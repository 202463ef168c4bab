/** The optional value returned by a pixel-mask overlap query: no point, or the first overlapping point. */
module Wrappers {
  datatype Option<+T> = None | Some(value: T)
}

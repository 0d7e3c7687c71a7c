/** The optional-value datatype used for "no tier observed yet" and "no wallpaper found". */
module Wrappers {

  datatype Option<+T> = None | Some(value: T)
}

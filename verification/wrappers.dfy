/** The nullable references of the source (`PopupWindow?`, `PopupMenuListener?`) as values. */
module Wrappers {

  datatype Option<+T> = None | Some(value: T)
}

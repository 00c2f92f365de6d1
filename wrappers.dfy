/** The optional value used wherever the hooks accept something that may be absent
    (the browser's `navigator`, a gesture callback) or return "nothing happened". */
module Wrappers {
  datatype Option<+T> = None | Some(value: T)
}

/** Small wrapper datatypes shared by the other modules. */
module Wrappers {

  /** An optional value: `None` stands for a JavaScript property that is absent (`undefined`). */
  datatype Option<+T> = None | Some(value: T)
}

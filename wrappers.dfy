/** The optional value shared by every module of the model: `None` stands for
    JavaScript's `undefined`. */
module Wrappers {

  datatype Option<+T> = None | Some(value: T)
}

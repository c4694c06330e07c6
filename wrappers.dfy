/** The optional value shared by the models: None stands for C's NULL and Java's null. */
module Wrappers {
  datatype Option<T> = None | Some(value: T)
}

/// The optional value shared by both modules.
module Options {
  datatype Option<T> = None | Some(value: T)
}

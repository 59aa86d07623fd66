/** The optional value used across the model (a missing map entry, a null attribute pointer). */
module Optional {
  datatype Option<T> = None | Some(value: T)
}

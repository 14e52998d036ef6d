/** An optional value: the model of JavaScript null / Python None results. */
module Optional {
  datatype Option<T> = None | Some(value: T)
}

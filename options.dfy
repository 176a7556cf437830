/** An optional value: JavaScript's "found or undefined". */
module Options {

  datatype Option<T> = None | Some(value: T)
}

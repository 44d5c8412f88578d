/** A value that may be absent: PHP's `null` next to an object or a scalar. */
module Options {

  datatype Option<T> = None | Some(value: T)
}

/** A value that may be absent: Go's nullable columns, `ok` results and nil references. */
module Options {

  datatype Option<T> = None | Some(value: T)
}

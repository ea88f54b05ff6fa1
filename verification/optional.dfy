/** JavaScript's "a value, or nothing" (`null`/`undefined`), for any value type. */
module Optional {

  datatype Option<+T> = None | Some(value: T)
}

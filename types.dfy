/** Shared scalar types of the frontend glue. */
module Types {

  /** An `unsigned char` of the C source. */
  type Byte = x: int | 0 <= x < 256

  /** A pointer that may be NULL. */
  datatype Option<+T> = None | Some(value: T)
}

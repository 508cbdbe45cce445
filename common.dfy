/** Small shared datatypes. */
module Common {

  /** A value that may be missing (a JavaScript `undefined`). */
  datatype Option<T> = None | Some(value: T)

  /** Octets, as Node's Buffer holds them. */
  newtype Byte = x: int | 0 <= x < 256

  /**
   * A storage object's address: the shape of the `files` entries the
   * submit handler pushes and the worker reads back.
   */
  datatype FileRef = FileRef(bucket: string, key: string)
}

/** Types shared by every part of the model. */
module Common {

  /** A value that may be absent: Objective-C's `nil`. */
  datatype Option<+T> = None | Some(value: T)

  /** One octet of file contents. */
  newtype Byte = x: int | 0 <= x < 256

  /** The contents of an NSData. */
  type Bytes = seq<Byte>

  /** A string-to-string NSDictionary: HTTP request headers, or the secondary keys of a file cache entry. */
  type Dict = map<string, string>
}

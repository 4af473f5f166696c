/** Small shared vocabulary: optional values and the outcome of decoding one message field. */
module Wrappers {

  datatype Option<+T> = None | Some(value: T)

  /** A negative C status code. */
  type ErrorCode = code: int | code < 0 witness -1

  /** A C int. */
  type int32 = x: int | -0x8000_0000 <= x < 0x8000_0000

  /** What a decoder of an unseen serialization library reports. */
  datatype Parse<+T> = Parsed(value: T) | Malformed(code: ErrorCode)
}

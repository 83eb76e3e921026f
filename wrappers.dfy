/** Small value wrappers shared by the storefront model. */
module Wrappers {

  /** A value that may be absent: `undefined`/`null` in the storefront. */
  datatype Option<+T> = None | Some(value: T)

  /** What a browser-storage key yields once read and parsed:
      nothing stored (or the empty string), text that does not parse, or a parsed value. */
  datatype Snapshot<+T> = Missing | Malformed | Parsed(value: T)

  function Min(a: int, b: int): (r: int)
    ensures r <= a && r <= b
    ensures r == a || r == b
  {
    if a <= b then a else b
  }
}

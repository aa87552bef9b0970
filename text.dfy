/** Option, for `TrackListView`'s shared pointers that may be null. */
module Wrappers {
  datatype Option<+T> = None | Some(value: T)
}

/**
  Byte strings and the text helpers the row formatter calls but whose code is not
  part of this model: `u8len` (visible length of a UTF-8 string), `text::Ellipsize`
  (cut a string to a visible budget) and `text::Duration` (format a raw duration).
  They are parameters of the formatter; the one fact assumed of them is that a
  string never shows more characters than it has bytes.
 */
module Text {

  newtype byte = b: int | 0 <= b < 256

  /** A `std::string`: its length is its byte count. */
  type Bytes = seq<byte>

  const SPACE: byte := 32

  datatype Helpers = Helpers(
    u8len: Bytes -> nat,
    ellipsize: (Bytes, nat) -> Bytes,
    duration: Bytes -> Bytes)

  /** The only property assumed of the helpers: `u8len(s) <= s.size()`. */
  ghost predicate Wellformed(h: Helpers) {
    forall s :: h.u8len(s) <= |s|
  }

  /** The number of bytes of `s` beyond its visible characters (multi-byte excess). */
  function Extra(h: Helpers, s: Bytes): (e: nat)
    requires Wellformed(h)
    ensures h.u8len(s) + e == |s|
  {
    |s| - h.u8len(s)
  }
}

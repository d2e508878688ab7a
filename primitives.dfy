/**
 * Byte strings and the text codecs the sync client calls into (UTF-8 and
 * RFC 4648 section 4 base64). The codecs are not re-implemented: they are
 * fields of function type, and `CodecSound` states the only facts the model
 * relies on.
 */
module Primitives {
  import opened Util

  type Bytes = seq<bv8>

  datatype Codec = Codec(
    utf8: string -> Bytes,            // str.encode("utf-8")
    b64encode: Bytes -> string,       // base64.b64encode(...).decode()
    b64decode: string -> Option<Bytes> // base64.b64decode, None where it raises
  )

  /** Base64 decoding inverts encoding. */
  ghost predicate CodecSound(c: Codec) {
    forall b :: c.b64decode(c.b64encode(b)) == Some(b)
  }

  /** The bytes of an ASCII literal, as Python's b"..." literals. */
  function Ascii(s: string): (r: Bytes)
    requires forall i :: 0 <= i < |s| ==> s[i] as int < 128
    ensures |r| == |s|
  {
    seq(|s|, i requires 0 <= i < |s| => s[i] as int as bv8)
  }
}

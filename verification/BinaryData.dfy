/** Bytes and the texts written into them. */
module BinaryData {
  type Byte = x: nat | x < 256
  type Bytes = seq<Byte>

  /** The bytes of an ASCII literal. */
  function Ascii(s: string): (b: Bytes)
    ensures |b| == |s|
  {
    seq(|s|, i requires 0 <= i < |s| => s[i] as int % 256)
  }
}

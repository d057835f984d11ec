/** Bytes and ASCII literals. */
module Bytes {
  newtype byte = x: int | 0 <= x < 256

  /** The bytes of an ASCII string literal. */
  function Ascii(s: string): (b: seq<byte>)
    requires forall i | 0 <= i < |s| :: s[i] as int < 256
    ensures |b| == |s|
    ensures forall i | 0 <= i < |s| :: b[i] as int == s[i] as int
  {
    if s == [] then [] else [s[0] as int as byte] + Ascii(s[1..])
  }

  /** The bytes of an upper-case ASCII word. */
  function UpperAscii(s: string): (b: seq<byte>)
    requires forall i | 0 <= i < |s| :: 'A' <= s[i] <= 'Z'
    ensures |b| == |s|
    ensures forall i | 0 <= i < |b| :: IsUpperAscii(b[i]) && b[i] as int == s[i] as int
  {
    if s == [] then [] else [s[0] as int as byte] + UpperAscii(s[1..])
  }

  predicate IsUpperAscii(b: byte) {
    'A' as int <= b as int <= 'Z' as int
  }
}

/** Go strings as the byte sequences they are. A Go `string` is an immutable
    sequence of bytes, so `[]byte(s)` copies exactly those bytes. */
module Bytes {

  newtype byte = b: int | 0 <= b < 256

  /** A Go string: the bytes it holds. */
  type Str = seq<byte>

  /** The bytes of an ASCII literal such as "init". */
  function Ascii(s: string): Str
    requires forall i :: 0 <= i < |s| ==> s[i] as int < 128
  {
    seq(|s|, i requires 0 <= i < |s| && s[i] as int < 128 => s[i] as int as byte)
  }

  predicate IsUpper(b: byte)
  {
    'A' as int <= b as int <= 'Z' as int
  }

  /** Lower-casing of one byte as `strings.ToLower` does it for ASCII letters. */
  function LowerByte(b: byte): byte
  {
    if IsUpper(b) then b + 32 else b
  }

  /** `strings.ToLower` restricted to ASCII: the result has no upper-case
      letter, each upper-case letter becomes the letter 32 positions on (its
      lower-case form), and every other byte is kept. */
  function ToLower(s: Str): (r: Str)
    ensures |r| == |s|
    ensures forall i :: 0 <= i < |r| ==> !IsUpper(r[i])
    ensures forall i :: 0 <= i < |s| ==> if IsUpper(s[i]) then r[i] as int == s[i] as int + 32 else r[i] == s[i]
  {
    seq(|s|, i requires 0 <= i < |s| => LowerByte(s[i]))
  }
}

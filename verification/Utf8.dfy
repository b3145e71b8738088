/** UTF-8 as section 4 of RFC 3629 defines it; a char above 0xff stands for no byte. */
module Utf8 {
  import opened Text
  import opened Wrappers

  datatype Decoded = Decoded(code: int, length: nat)

  predicate Within(c: char, low: int, high: int) { low <= c as int <= high }

  /** UTF8-tail */
  predicate IsTail(c: char) { Within(c, 0x80, 0xBF) }

  function Bits(c: char, base: int): int { c as int - base }

  /** The first character of s, by the productions UTF8-1 to UTF8-4; None when there is none. */
  function Decode(s: string): (d: Option<Decoded>)
    ensures d.Some? ==> 0 < d.value.length <= |s| && d.value.length <= 4
  {
    if s == "" then None
    else if Within(s[0], 0, 0x7F) then Some(Decoded(s[0] as int, 1))
    else if |s| < 2 then None
    else if Within(s[0], 0xC2, 0xDF) && IsTail(s[1]) then
      Some(Decoded(Bits(s[0], 0xC0) * 0x40 + Bits(s[1], 0x80), 2))
    else if |s| < 3 || !IsTail(s[2]) then None
    else if ThreeLead(s[0], s[1]) then
      Some(Decoded(Bits(s[0], 0xE0) * 0x1000 + Bits(s[1], 0x80) * 0x40 + Bits(s[2], 0x80), 3))
    else if |s| < 4 || !IsTail(s[3]) then None
    else if FourLead(s[0], s[1]) then
      Some(Decoded(Bits(s[0], 0xF0) * 0x40000 + Bits(s[1], 0x80) * 0x1000 + Bits(s[2], 0x80) * 0x40 + Bits(s[3], 0x80), 4))
    else None
  }

  predicate ThreeLead(a: char, b: char) {
    || (Within(a, 0xE0, 0xE0) && Within(b, 0xA0, 0xBF))
    || (Within(a, 0xE1, 0xEC) && IsTail(b))
    || (Within(a, 0xED, 0xED) && Within(b, 0x80, 0x9F))
    || (Within(a, 0xEE, 0xEF) && IsTail(b))
  }

  predicate FourLead(a: char, b: char) {
    || (Within(a, 0xF0, 0xF0) && Within(b, 0x90, 0xBF))
    || (Within(a, 0xF1, 0xF3) && IsTail(b))
    || (Within(a, 0xF4, 0xF4) && Within(b, 0x80, 0x8F))
  }

  predicate Valid(s: string) {
    s == "" || (Decode(s).Some? && Valid(s[Decode(s).value.length..]))
  }

  /** A scalar value: no surrogate, nothing above 0x10ffff. */
  predicate IsScalar(code: int) {
    0 <= code < 0xD800 || 0xDFFF < code < 0x11_0000
  }

  /** Decoding is shortest-form: the length is the one the code needs. */
  lemma DecodesScalars(s: string)
    requires Decode(s).Some?
    ensures IsScalar(Decode(s).value.code)
    ensures Decode(s).value.length ==
      if Decode(s).value.code < 0x80 then 1
      else if Decode(s).value.code < 0x800 then 2
      else if Decode(s).value.code < 0x1_0000 then 3
      else 4
  {}

  /** A character is decoded from its own bytes, whatever follows. */
  lemma DecodesAlone(s: string, rest: string)
    requires Decode(s).Some?
    ensures Decode(s[..Decode(s).value.length] + rest) == Decode(s)
  {}

  /** Only the first byte of a character can be ASCII. */
  lemma TailsAreNotAscii(s: string, j: nat)
    requires Decode(s).Some? && 0 < j < Decode(s).value.length
    ensures s[j] as int >= 0x80
    ensures s[0] as int >= 0x80
  {}
}

/**
 * A stand-in for `decodeURIComponent`: each escape `%XY` with two hexadecimal
 * digits becomes the character with code 16 * X + Y; every other character is
 * kept. Multi-byte UTF-8 sequences and the `URIError` on a malformed escape
 * are not modelled.
 */
module UriDecode {

  predicate IsHexDigit(c: char)
  {
    '0' <= c <= '9' || 'a' <= c <= 'f' || 'A' <= c <= 'F'
  }

  function HexValue(c: char): (v: nat)
    requires IsHexDigit(c)
    ensures v < 16
  {
    if '0' <= c <= '9' then c as nat - '0' as nat
    else if 'a' <= c <= 'f' then c as nat - 'a' as nat + 10
    else c as nat - 'A' as nat + 10
  }

  function HexDigit(v: nat): (c: char)
    requires v < 16
    ensures IsHexDigit(c) && HexValue(c) == v
  {
    if v < 10 then (48 + v) as char else (55 + v) as char
  }

  /** `s` starts with a well-formed escape `%XY`. */
  predicate StartsWithEscape(s: string)
  {
    3 <= |s| && s[0] == '%' && IsHexDigit(s[1]) && IsHexDigit(s[2])
  }

  function Decode(s: string): (r: string)
    ensures |r| <= |s|
    ensures '%' !in s ==> r == s
    decreases |s|
  {
    if s == [] then []
    else if StartsWithEscape(s) then [(16 * HexValue(s[1]) + HexValue(s[2])) as char] + Decode(s[3..])
    else [s[0]] + Decode(s[1..])
  }

  /** The escape `encodeURIComponent` writes for a byte-sized code point. */
  function Escape(b: nat): (e: string)
    requires b < 256
    ensures StartsWithEscape(e) && |e| == 3
  {
    ['%', HexDigit(b / 16), HexDigit(b % 16)]
  }

  /** Decoding undoes an escape and goes on with the rest of the string. */
  lemma DecodeEscape(b: nat, rest: string)
    requires b < 256
    ensures Decode(Escape(b) + rest) == [b as char] + Decode(rest)
  {
    var s := Escape(b) + rest;
    assert StartsWithEscape(s);
    assert s[3..] == rest;
  }
}

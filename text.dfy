/**
 * Text as the two services see it. Ruby measures strings in characters and
 * judges `blank?` by Unicode white space; Go measures strings in bytes of their
 * UTF-8 encoding. Both print integers in decimal, and `SecureRandom.hex`
 * prints bytes as lower-case hexadecimal.
 */
module Text {
  import opened Common

  // ---------------------------------------------------------------------------
  // Ruby's notion of a blank string

  /** Ruby's `[[:space:]]` on a Unicode string: the characters with the White_Space property. */
  predicate IsSpace(c: char) {
    var n := c as int;
    (0x09 <= n <= 0x0D) || n == 0x20 || n == 0x85 || n == 0xA0 || n == 0x1680
    || (0x2000 <= n <= 0x200A) || n == 0x2028 || n == 0x2029 || n == 0x202F
    || n == 0x205F || n == 0x3000
  }

  /** ActiveSupport's `String#blank?`: empty, or white space only. */
  predicate IsBlank(s: string) {
    forall i :: 0 <= i < |s| ==> IsSpace(s[i])
  }

  /** `blank?` on a value that may be nil; `present?` is its negation. */
  predicate Blank(s: Option<string>) {
    s.None? || IsBlank(s.value)
  }

  // ---------------------------------------------------------------------------
  // Go's `len` of a string

  /** The number of bytes UTF-8 uses for one Unicode scalar value. */
  function Utf8Width(c: char): nat {
    if c as int < 0x80 then 1
    else if c as int < 0x800 then 2
    else if c as int < 0x10000 then 3
    else 4
  }

  /** Go's `len(s)`: the length in bytes of the UTF-8 encoding of `s`. */
  function Utf8Length(s: string): nat {
    if s == [] then 0 else Utf8Length(s[..|s| - 1]) + Utf8Width(s[|s| - 1])
  }

  predicate IsAscii(s: string) {
    forall i :: 0 <= i < |s| ==> s[i] as int < 0x80
  }

  /** A string has at least as many bytes as characters, and at most four bytes per character. */
  lemma {:induction false} Utf8LengthBounds(s: string)
    ensures |s| <= Utf8Length(s) <= 4 * |s|
  {
    if s != [] {
      Utf8LengthBounds(s[..|s| - 1]);
    }
  }

  /** Byte length and character length agree exactly on ASCII text. */
  lemma {:induction false} Utf8LengthIsCharsIffAscii(s: string)
    ensures IsAscii(s) <==> Utf8Length(s) == |s|
  {
    if s != [] {
      var p := s[..|s| - 1];
      Utf8LengthBounds(p);
      Utf8LengthIsCharsIffAscii(p);
      assert forall i :: 0 <= i < |p| ==> p[i] == s[i];
      if Utf8Length(s) == |s| {
        assert Utf8Width(s[|s| - 1]) == 1;
      }
    }
  }

  // ---------------------------------------------------------------------------
  // Decimal integers: Ruby's `Integer#to_s` in an interpolation, Go's `%d`

  predicate IsDigit(c: char) {
    '0' <= c <= '9'
  }

  predicate AllDigits(s: string) {
    forall i :: 0 <= i < |s| ==> IsDigit(s[i])
  }

  function DigitChar(d: nat): (c: char)
    requires d < 10
    ensures IsDigit(c)
  {
    (0x30 + d) as char
  }

  function DigitValue(c: char): (d: nat)
    requires IsDigit(c)
    ensures d < 10 && DigitChar(d) == c
  {
    c as int - 0x30
  }

  /** The decimal text of a natural number, most significant digit first, no leading zeros. */
  function NatToString(n: nat): (s: string)
    ensures 1 <= |s| && AllDigits(s)
    decreases n
  {
    if n < 10 then [DigitChar(n)] else NatToString(n / 10) + [DigitChar(n % 10)]
  }

  /** Reads back a decimal text. */
  function ParseNat(s: string): nat
    requires AllDigits(s)
  {
    if s == [] then 0 else 10 * ParseNat(s[..|s| - 1]) + DigitValue(s[|s| - 1])
  }

  lemma {:induction false} ParseNatToString(n: nat)
    ensures ParseNat(NatToString(n)) == n
  {
    if n >= 10 {
      var s := NatToString(n);
      assert s[..|s| - 1] == NatToString(n / 10);
      ParseNatToString(n / 10);
    }
  }

  /** Different numbers print differently. */
  lemma NatToStringInjective(m: nat, n: nat)
    ensures NatToString(m) == NatToString(n) ==> m == n
  {
    ParseNatToString(m);
    ParseNatToString(n);
  }

  /** The decimal text of an integer, with a leading '-' when it is negative. */
  function IntToString(i: int): (s: string)
    ensures 1 <= |s|
    ensures i < 0 <==> s[0] == '-'
    ensures i >= 0 ==> AllDigits(s)
  {
    if i < 0 then "-" + NatToString(-i) else NatToString(i)
  }

  lemma IntToStringInjective(i: int, j: int)
    ensures IntToString(i) == IntToString(j) ==> i == j
  {
    if IntToString(i) == IntToString(j) && i < 0 && j < 0 {
      assert NatToString(-i) == IntToString(i)[1..];
      assert NatToString(-j) == IntToString(j)[1..];
      NatToStringInjective(-i, -j);
    } else if IntToString(i) == IntToString(j) && i >= 0 && j >= 0 {
      NatToStringInjective(i, j);
    }
  }

  // ---------------------------------------------------------------------------
  // Lower-case hexadecimal, as `SecureRandom.hex` prints random bytes

  newtype byte = x: int | 0 <= x < 256

  predicate IsLowerHex(c: char) {
    ('0' <= c <= '9') || ('a' <= c <= 'f')
  }

  function HexDigit(d: nat): (c: char)
    requires d < 16
    ensures IsLowerHex(c)
  {
    if d < 10 then (0x30 + d) as char else (0x61 + d - 10) as char
  }

  function HexValue(c: char): (d: nat)
    requires IsLowerHex(c)
    ensures d < 16 && HexDigit(d) == c
  {
    if c <= '9' then c as int - 0x30 else c as int - 0x61 + 10
  }

  /** Two lower-case hex digits per byte, high nibble first. */
  function HexEncode(bytes: seq<byte>): (s: string)
    ensures |s| == 2 * |bytes|
    ensures forall i :: 0 <= i < |s| ==> IsLowerHex(s[i])
  {
    if bytes == [] then []
    else
      var b := bytes[|bytes| - 1] as int;
      HexEncode(bytes[..|bytes| - 1]) + [HexDigit(b / 16), HexDigit(b % 16)]
  }

  /** The byte two hex digits stand for, high digit first; 0 for a pair that is not hex. */
  function HexPair(hi: char, lo: char): byte {
    if IsLowerHex(hi) && IsLowerHex(lo) then (16 * HexValue(hi) + HexValue(lo)) as byte else 0
  }

  /** Reads hex text back two digits at a time; an odd last character is ignored. */
  function HexDecode(s: string): seq<byte> {
    if |s| < 2 then []
    else HexDecode(s[..|s| - 2]) + [HexPair(s[|s| - 2], s[|s| - 1])]
  }

  lemma HexValueOfDigit(d: nat)
    requires d < 16
    ensures HexValue(HexDigit(d)) == d
  {
  }

  /** The two digits of one byte read back as that byte. */
  lemma HexByteRoundTrip(x: byte)
    ensures HexPair(HexDigit(x as int / 16), HexDigit(x as int % 16)) == x
  {
    HexValueOfDigit(x as int / 16);
    HexValueOfDigit(x as int % 16);
  }

  /** Decoding reads two more digits as one more byte. */
  lemma HexDecodeSnoc(t: string, hi: char, lo: char)
    ensures HexDecode(t + [hi, lo]) == HexDecode(t) + [HexPair(hi, lo)]
  {
    var s := t + [hi, lo];
    assert s[..|s| - 2] == t;
  }

  /** The hex text of a byte string determines the bytes: no two byte strings print alike. */
  lemma {:induction false} HexRoundTrip(bytes: seq<byte>)
    ensures HexDecode(HexEncode(bytes)) == bytes
  {
    if bytes != [] {
      var p, x := bytes[..|bytes| - 1], bytes[|bytes| - 1];
      var hi, lo := HexDigit(x as int / 16), HexDigit(x as int % 16);
      calc {
        HexDecode(HexEncode(bytes));
        HexDecode(HexEncode(p) + [hi, lo]);
        { HexDecodeSnoc(HexEncode(p), hi, lo); }
        HexDecode(HexEncode(p)) + [HexPair(hi, lo)];
        { HexRoundTrip(p); HexByteRoundTrip(x); }
        p + [x];
        bytes;
      }
    }
  }
}

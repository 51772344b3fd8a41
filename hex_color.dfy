/**
 * The colour text the picker shows and copies: the format `'#%02x%02x%02x'` applied to an
 * RGB triple, that is `#` followed by two lower-case hexadecimal digits per channel, red
 * first. The module also gives the inverse reading of such a string, and proves the two
 * are a bijection between triples and well-formed seven-character strings.
 */
module HexColor {
  import opened Optional

  /** One colour channel of an 8-bit RGB pixel. */
  type Byte = n: int | 0 <= n < 256

  datatype Rgb = Rgb(r: Byte, g: Byte, b: Byte)

  /** The digits `%x` produces: `0`-`9` and lower-case `a`-`f`. */
  predicate IsLowerHexDigit(c: char) {
    '0' <= c <= '9' || 'a' <= c <= 'f'
  }

  /** The numeric value of one lower-case hexadecimal digit. */
  function DigitValue(c: char): (v: int)
    requires IsLowerHexDigit(c)
    ensures 0 <= v < 16
    ensures (v < 10) == ('0' <= c <= '9')
  {
    if '0' <= c <= '9' then c as int - '0' as int else c as int - 'a' as int + 10
  }

  /** The lower-case digit for a value below 16. */
  function DigitChar(d: int): (c: char)
    requires 0 <= d < 16
    ensures IsLowerHexDigit(c)
    ensures DigitValue(c) == d
  {
    if d < 10 then ('0' as int + d) as char else ('a' as int + d - 10) as char
  }

  /** Every lower-case digit is the digit of its own value. */
  lemma DigitCharOfValue(c: char)
    requires IsLowerHexDigit(c)
    ensures DigitChar(DigitValue(c)) == c
  {
  }

  /** The value of a two-digit pair, high digit first. */
  function PairValue(hi: char, lo: char): (v: int)
    requires IsLowerHexDigit(hi) && IsLowerHexDigit(lo)
    ensures 0 <= v < 256
  {
    16 * DigitValue(hi) + DigitValue(lo)
  }

  /** `'%02x' % n` for a channel value: exactly two lower-case digits that denote `n`. */
  function Hex2(n: Byte): (s: string)
    ensures |s| == 2 && IsLowerHexDigit(s[0]) && IsLowerHexDigit(s[1])
    ensures PairValue(s[0], s[1]) == n
  {
    [DigitChar(n / 16), DigitChar(n % 16)]
  }

  /** The shape of every string `ToHex` can produce. */
  predicate IsHexColor(s: string) {
    |s| == 7 && s[0] == '#' && forall i :: 1 <= i < 7 ==> IsLowerHexDigit(s[i])
  }

  /**
   * `'#%02x%02x%02x' % (r, g, b)`: a `#`, then six lower-case digits, the first pair
   * denoting red, the second green and the third blue.
   */
  function ToHex(c: Rgb): (s: string)
    ensures IsHexColor(s)
    ensures PairValue(s[1], s[2]) == c.r
    ensures PairValue(s[3], s[4]) == c.g
    ensures PairValue(s[5], s[6]) == c.b
  {
    "#" + Hex2(c.r) + Hex2(c.g) + Hex2(c.b)
  }

  /** Reads a `#rrggbb` string back into a triple; anything else is not a colour. */
  function ParseHex(s: string): (c: Option<Rgb>)
    ensures c.Some? <==> IsHexColor(s)
  {
    if IsHexColor(s) then
      Some(Rgb(PairValue(s[1], s[2]), PairValue(s[3], s[4]), PairValue(s[5], s[6])))
    else
      None
  }

  /** Reading back the text of a colour gives the colour. */
  lemma ParseToHex(c: Rgb)
    ensures ParseHex(ToHex(c)) == Some(c)
  {
  }

  /** Two different colours never share a text. */
  lemma ToHexInjective(a: Rgb, b: Rgb)
    requires ToHex(a) == ToHex(b)
    ensures a == b
  {
    ParseToHex(a);
    ParseToHex(b);
  }

  /** A pair of digits is the `%02x` of its own value. */
  lemma Hex2OfPair(hi: char, lo: char)
    requires IsLowerHexDigit(hi) && IsLowerHexDigit(lo)
    ensures Hex2(PairValue(hi, lo)) == [hi, lo]
  {
    var n := PairValue(hi, lo);
    assert n / 16 == DigitValue(hi) && n % 16 == DigitValue(lo);
    DigitCharOfValue(hi);
    DigitCharOfValue(lo);
  }

  /**
   * The other direction of the round trip: a string that reads as a colour is exactly that
   * colour's text, so no second spelling (upper case, missing zero) is accepted.
   */
  lemma ToHexOfParse(s: string)
    requires ParseHex(s).Some?
    ensures ToHex(ParseHex(s).value) == s
  {
    var c := ParseHex(s).value;
    Hex2OfPair(s[1], s[2]);
    Hex2OfPair(s[3], s[4]);
    Hex2OfPair(s[5], s[6]);
    assert s == [s[0]] + [s[1], s[2]] + [s[3], s[4]] + [s[5], s[6]];
  }
}

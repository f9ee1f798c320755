/** The page's colour-input parser (script.js `hexToRgb`): six hex digits, optionally after a
    '#', case-insensitive, read as three two-digit components; anything else gives null. */
module Colors {
  import opened Wrappers

  datatype Rgb = Rgb(r: int, g: int, b: int)

  predicate InByteRange(c: Rgb)
  {
    0 <= c.r <= 255 && 0 <= c.g <= 255 && 0 <= c.b <= 255
  }

  /** `[a-f\d]` under the `i` flag: ASCII digits and the letters a-f in either case. */
  predicate IsHexDigit(ch: char)
  {
    '0' <= ch <= '9' || 'a' <= ch <= 'f' || 'A' <= ch <= 'F'
  }

  predicate AllHex(s: string)
  {
    forall i :: 0 <= i < |s| ==> IsHexDigit(s[i])
  }

  /** The strings the pattern accepts, written as its two alternatives. */
  predicate IsHexColor(s: string)
  {
    (|s| == 6 && AllHex(s)) || (|s| == 7 && s[0] == '#' && AllHex(s[1..]))
  }

  /** The value `parseInt(_, 16)` gives a single hex digit. */
  function DigitValue(ch: char): (v: int)
    requires IsHexDigit(ch)
    ensures 0 <= v < 16
  {
    if '0' <= ch <= '9' then ch as int - '0' as int
    else if 'a' <= ch <= 'f' then ch as int - 'a' as int + 10
    else ch as int - 'A' as int + 10
  }

  /** `parseInt(pair, 16)` for two hex digits. */
  function PairValue(hi: char, lo: char): (v: int)
    requires IsHexDigit(hi) && IsHexDigit(lo)
    ensures 0 <= v <= 255
  {
    16 * DigitValue(hi) + DigitValue(lo)
  }

  /** The digits of an accepted string, without its '#'. */
  function Digits(s: string): (d: string)
    requires IsHexColor(s)
    ensures |d| == 6 && AllHex(d)
  {
    if |s| == 7 then s[1..] else s
  }

  function HexToRgb(hex: string): (c: Option<Rgb>)
    ensures c.Some? <==> IsHexColor(hex)
    ensures c.Some? ==> InByteRange(c.value)
    ensures c.Some? ==> var d := Digits(hex);
      c.value == Rgb(PairValue(d[0], d[1]), PairValue(d[2], d[3]), PairValue(d[4], d[5]))
  {
    var body := if |hex| > 0 && hex[0] == '#' then hex[1..] else hex;
    if |body| == 6 && AllHex(body) then
      Some(Rgb(PairValue(body[0], body[1]), PairValue(body[2], body[3]), PairValue(body[4], body[5])))
    else
      None
  }

  // ---------------------------------------------------------------- the inverse

  /** The lower-case hex digit for 0..15. */
  function HexChar(n: int): (ch: char)
    requires 0 <= n < 16
    ensures IsHexDigit(ch) && DigitValue(ch) == n
  {
    if n < 10 then ('0' as int + n) as char else ('a' as int + n - 10) as char
  }

  function Lower(ch: char): char
  {
    if 'A' <= ch <= 'Z' then (ch as int - 'A' as int + 'a' as int) as char else ch
  }

  function LowerAll(s: string): (t: string)
    ensures |t| == |s| && forall i :: 0 <= i < |s| ==> t[i] == Lower(s[i])
  {
    seq(|s|, i requires 0 <= i < |s| => Lower(s[i]))
  }

  /** A byte as two lower-case hex digits, as a colour picker writes it. */
  function ByteHex(n: int): (s: string)
    requires 0 <= n <= 255
    ensures |s| == 2 && AllHex(s) && PairValue(s[0], s[1]) == n
  {
    [HexChar(n / 16), HexChar(n % 16)]
  }

  /** A colour as `#rrggbb`. */
  function ToHex(c: Rgb): (s: string)
    requires InByteRange(c)
    ensures |s| == 7 && s[0] == '#'
  {
    "#" + ByteHex(c.r) + ByteHex(c.g) + ByteHex(c.b)
  }

  /** Every colour survives being written as `#rrggbb` and parsed back. */
  lemma HexRoundTrip(c: Rgb)
    requires InByteRange(c)
    ensures HexToRgb(ToHex(c)) == Some(c)
  {
    var s := ToHex(c);
    assert s[1..] == ByteHex(c.r) + ByteHex(c.g) + ByteHex(c.b);
    assert AllHex(s[1..]);
  }

  /** Writing a digit's value back gives the digit in lower case. */
  lemma HexCharOfDigit(ch: char)
    requires IsHexDigit(ch)
    ensures HexChar(DigitValue(ch)) == Lower(ch)
  {
  }

  /** Parsing and writing back an accepted string gives its digits in lower case after a '#':
      parsing keeps everything but the case of the letters and the optional '#'. */
  lemma {:induction false} HexNormalises(s: string)
    requires IsHexColor(s)
    ensures ToHex(HexToRgb(s).value) == "#" + LowerAll(Digits(s))
  {
    var d := Digits(s);
    forall i | 0 <= i < 6
      ensures HexChar(DigitValue(d[i])) == Lower(d[i])
    {
      HexCharOfDigit(d[i]);
    }
    forall i | 0 <= i < 6 && i % 2 == 0
      ensures ByteHex(PairValue(d[i], d[i + 1])) == [Lower(d[i]), Lower(d[i + 1])]
    {
      var v := PairValue(d[i], d[i + 1]);
      assert v / 16 == DigitValue(d[i]) && v % 16 == DigitValue(d[i + 1]);
    }
    assert LowerAll(d) == [Lower(d[0]), Lower(d[1])] + [Lower(d[2]), Lower(d[3])] + [Lower(d[4]), Lower(d[5])];
  }

  /** The leading '#' is optional: a string without one parses as it does with one. */
  lemma HashOptional(s: string)
    requires |s| == 0 || s[0] != '#'
    ensures HexToRgb("#" + s) == HexToRgb(s)
  {
    assert ("#" + s)[1..] == s;
  }
}

/** The colour helpers of the application window: `#rrggbb` text to a red,
    green and blue triple and back, with Python's own rules for `int(s, 16)`,
    for slicing and for the `02x` format. */
module Colors {
  import opened Wrappers
  import Text

  datatype Rgb = Rgb(r: int, g: int, b: int)

  // ----- Hexadecimal digits -----

  predicate IsHexDigit(c: char)
  {
    '0' <= c <= '9' || 'a' <= c <= 'f' || 'A' <= c <= 'F'
  }

  /** A digit as the `x` format writes it. */
  predicate IsLowerHexDigit(c: char)
  {
    '0' <= c <= '9' || 'a' <= c <= 'f'
  }

  predicate AllHex(s: string)
  {
    forall i :: 0 <= i < |s| ==> IsHexDigit(s[i])
  }

  function HexDigitValue(c: char): (v: nat)
    requires IsHexDigit(c)
    ensures v < 16
  {
    if '0' <= c <= '9' then c as int - '0' as int
    else if 'a' <= c <= 'f' then c as int - 'a' as int + 10
    else c as int - 'A' as int + 10
  }

  /** The lower-case digit of a value below sixteen. */
  function HexChar(v: nat): (c: char)
    requires v < 16
    ensures IsLowerHexDigit(c) && IsHexDigit(c) && HexDigitValue(c) == v
  {
    if v < 10 then ('0' as int + v) as char else ('a' as int + v - 10) as char
  }

  /** The value of a string of hexadecimal digits, most significant first. */
  function HexValue(ds: string): nat
    requires AllHex(ds)
  {
    if ds == [] then 0 else HexValue(ds[..|ds| - 1]) * 16 + HexDigitValue(ds[|ds| - 1])
  }

  /** `format(n, 'x')` for a non-negative `n`: its digits, lower case, without
      leading zeros, read back as `n` by `HexValue`. */
  function HexDigitsOf(n: nat): (s: string)
    ensures |s| >= 1 && AllHex(s) && HexValue(s) == n
    ensures forall i :: 0 <= i < |s| ==> IsLowerHexDigit(s[i])
    ensures |s| > 1 ==> s[0] != '0'
    ensures n < 16 <==> |s| == 1
  {
    if n < 16 then [HexChar(n)]
    else
      var s := HexDigitsOf(n / 16) + [HexChar(n % 16)];
      assert s[..|s| - 1] == HexDigitsOf(n / 16);
      s
  }

  /** `format(n, "02x")`: the digits of `|n|` after a minus sign for a
      negative `n`, else padded with zeros to two characters. */
  function Hex02(n: int): (s: string)
    ensures |s| >= 2
    ensures n < 0 ==> s[0] == '-' && s[1..] == HexDigitsOf(-n)
    ensures n >= 0 ==> AllHex(s) && HexValue(s) == n && forall i :: 0 <= i < |s| ==> IsLowerHexDigit(s[i])
    ensures n >= 0 ==> !(s[0] == '0' && (s[1] == 'x' || s[1] == 'X'))
    ensures 0 <= n < 256 <==> |s| == 2 && s[0] != '-'
  {
    if n < 0 then "-" + HexDigitsOf(-n)
    else
      var d := HexDigitsOf(n);
      if |d| < 2 then
        assert HexValue("0" + d) == HexValue(d) by {
          assert ("0" + d)[..1] == "0";
        }
        "0" + d
      else d
  }

  // ----- Python's `int(s, 16)` -----

  /** The white space `int()` skips around a number: the ASCII space and `\t`
      to `\r`, and every non-ASCII character for which `str.isspace()` holds
      (those are read as spaces first). The ASCII separators U+001C to U+001F,
      white space for `str.isspace()`, are not skipped. */
  predicate IntSpace(c: char)
  {
    c == ' ' || '\t' <= c <= '\r' || (c as int >= 128 && Text.IsSpace(c))
  }

  /** The white space `int()` skips removed at both ends. */
  function Strip(s: string): (t: string)
    ensures |t| <= |s|
    ensures t == [] || (!IntSpace(t[0]) && !IntSpace(t[|t| - 1]))
    ensures (s == [] || (!IntSpace(s[0]) && !IntSpace(s[|s| - 1]))) ==> t == s
    decreases |s|
  {
    if s == [] then []
    else if IntSpace(s[0]) then Strip(s[1..])
    else if IntSpace(s[|s| - 1]) then Strip(s[..|s| - 1])
    else s
  }

  /** Zero or more digits, each optionally preceded by one underscore; the
      digits without the underscores. */
  function Underscored(u: string): (r: Option<string>)
    ensures r.Some? ==> AllHex(r.value) && |r.value| <= |u|
    ensures AllHex(u) ==> r == Some(u)
    decreases |u|
  {
    if u == [] then Some([])
    else if IsHexDigit(u[0]) then
      match Underscored(u[1..])
      case None => None
      case Some(d) =>
        assert AllHex(u) ==> [u[0]] + u[1..] == u;
        Some([u[0]] + d)
    else if u[0] == '_' && |u| >= 2 && IsHexDigit(u[1]) then
      match Underscored(u[2..])
      case None => None
      case Some(d) => Some([u[1]] + d)
    else None
  }

  /** The digits of an integer literal in base sixteen: after a `0x` or `0X`
      prefix at least one (optionally underscored) digit, otherwise a digit
      followed by (optionally underscored) digits. */
  function LiteralDigits(u: string): (r: Option<string>)
    ensures r.Some? ==> 1 <= |r.value| <= |u| && AllHex(r.value)
  {
    if |u| >= 2 && u[0] == '0' && (u[1] == 'x' || u[1] == 'X') then
      match Underscored(u[2..])
      case Some(d) => if d == [] then None else Some(d)
      case None => None
    else if u != [] && IsHexDigit(u[0]) then
      match Underscored(u[1..])
      case Some(d) => Some([u[0]] + d)
      case None => None
    else None
  }

  /** `int(s, 16)`, with `None` for the `ValueError` it raises. */
  function IntBase16(s: string): (r: Option<int>)
    ensures r.Some? ==> Strip(s) != [] && (Strip(s)[0] != '-' ==> r.value >= 0)
  {
    ReadSigned(Strip(s))
  }

  /** An optional sign and the digits of a literal, already stripped. */
  function ReadSigned(t: string): (r: Option<int>)
    ensures r.Some? ==> t != [] && (t[0] != '-' ==> r.value >= 0) && (t[0] == '-' ==> r.value <= 0)
  {
    if t == [] then None
    else
      var u := if t[0] == '-' || t[0] == '+' then t[1..] else t;
      match LiteralDigits(u)
      case None => None
      case Some(d) => Some(if t[0] == '-' then -(HexValue(d) as int) else HexValue(d))
  }

  /** Digits alone, not starting with a `0x` prefix. */
  predicate PlainDigits(s: string)
  {
    |s| >= 1 && AllHex(s) && !(|s| >= 2 && s[0] == '0' && (s[1] == 'x' || s[1] == 'X'))
  }

  /** Plain digits are a literal of their own digits. */
  lemma PlainLiteral(s: string)
    requires PlainDigits(s)
    ensures LiteralDigits(s) == Some(s)
  {
    assert [s[0]] + s[1..] == s;
  }

  /** Plain digits have no white space to strip. */
  lemma PlainUnstripped(s: string)
    requires PlainDigits(s)
    ensures Strip(s) == s
  {
    assert IsHexDigit(s[0]) && IsHexDigit(s[|s| - 1]);
  }

  /** Digits alone are read as their value. */
  lemma IntBase16Digits(s: string)
    requires PlainDigits(s)
    ensures IntBase16(s) == Some(HexValue(s) as int)
  {
    PlainUnstripped(s);
    PlainLiteral(s);
  }

  /** A minus sign before the digits negates them. */
  lemma IntBase16Negative(d: string)
    requires PlainDigits(d)
    ensures IntBase16("-" + d) == Some(-(HexValue(d) as int))
  {
    var t := "-" + d;
    SignedUnstripped(d, t);
    SignedRead(d, t);
  }

  /** A minus sign and plain digits have no white space to strip. */
  lemma SignedUnstripped(d: string, t: string)
    requires PlainDigits(d) && t == "-" + d
    ensures Strip(t) == t
  {
    assert t[0] == '-' && t[|t| - 1] == d[|d| - 1] && IsHexDigit(d[|d| - 1]);
  }

  /** A minus sign and plain digits read as minus their value. */
  lemma SignedRead(d: string, t: string)
    requires PlainDigits(d) && t == "-" + d
    ensures ReadSigned(t) == Some(-(HexValue(d) as int))
  {
    assert t[0] == '-' && t[1..] == d;
    PlainLiteral(d);
  }

  /** A separator such as U+001C is no white space for `int()`: `int('\x1cf', 16)`
      raises, while `int(' f', 16)` and `int('\u2003f', 16)` read 15. */
  lemma SeparatorNotSkipped()
    ensures IntBase16("\U{1c}f").None?
    ensures IntBase16(" f") == Some(15) && IntBase16("\U{2003}f") == Some(15)
  {
    assert Strip("\U{1c}f") == "\U{1c}f";
    assert LiteralDigits("\U{1c}f").None?;
    assert Strip(" f") == "f" by { assert " f"[1..] == "f"; }
    assert Strip("\U{2003}f") == "f" by { assert "\U{2003}f"[1..] == "f"; }
    assert PlainDigits("f");
    PlainLiteral("f");
    assert HexValue("f") == 15 by { assert "f"[..0] == []; }
  }

  /** `int(..., 16)` reads back what the `02x` format writes, for every integer. */
  lemma IntBase16Hex02(n: int)
    ensures IntBase16(Hex02(n)) == Some(n)
  {
    if n >= 0 {
      ReadNonNegative(n);
    } else {
      ReadNegative(n);
    }
  }

  lemma ReadNonNegative(n: nat)
    ensures IntBase16(Hex02(n)) == Some(n)
  {
    IntBase16Digits(Hex02(n));
  }

  lemma ReadNegative(n: int)
    requires n < 0
    ensures IntBase16(Hex02(n)) == Some(n)
  {
    var d := HexDigitsOf(-n);
    assert Hex02(n) == "-" + d;
    IntBase16Negative(d);
  }

  // ----- The two conversions -----

  /** `s.lstrip('#')`: every leading `#` removed. */
  function LStripHash(s: string): (t: string)
    ensures |t| <= |s| && t == s[|s| - |t|..]
    ensures t == [] || t[0] != '#'
    ensures forall i :: 0 <= i < |s| - |t| ==> s[i] == '#'
  {
    if s != [] && s[0] == '#' then LStripHash(s[1..]) else s
  }

  /** Python's `s[i:j]` for `0 <= i <= j`: the slice clipped to the string. */
  function Slice(s: string, i: nat, j: nat): (t: string)
    requires i <= j
    ensures |t| <= j - i
    ensures j <= |s| ==> t == s[i..j]
  {
    if j <= |s| then s[i..j] else if i <= |s| then s[i..] else []
  }

  /** What two characters can read as: `ff` is 255 at most, `-f` is -15 at
      least. */
  predicate InChannelRange(v: int)
  {
    -15 <= v <= 255
  }

  /** `int(s, 16)` of at most two characters is in that range. */
  lemma ShortRead(s: string)
    requires |s| <= 2
    ensures IntBase16(s).Some? ==> InChannelRange(IntBase16(s).value)
  {
    var t := Strip(s);
    if IntBase16(s).Some? {
      var u := if t[0] == '-' || t[0] == '+' then t[1..] else t;
      var d := LiteralDigits(u).value;
      HexValueOfTwo(d);
    }
  }

  /** At most two hex digits are worth at most `ff`. */
  lemma HexValueOfTwo(d: string)
    requires AllHex(d) && |d| <= 2
    ensures HexValue(d) <= 255 && (|d| <= 1 ==> HexValue(d) <= 15)
  {
    if |d| == 2 {
      assert HexValue(d[..1]) == HexDigitValue(d[0]) by {
        assert d[..1][..0] == [];
      }
    } else if |d| == 1 {
      assert d[..0] == [];
    }
  }

  /** `hex_to_rgb`: after the leading hashes, characters 0-1, 2-3 and 4-5 read
      as base-sixteen integers; `None` where Python raises `ValueError`. */
  function HexToRgb(hexValue: string): (c: Option<Rgb>)
    ensures c.Some? ==> InChannelRange(c.value.r) && InChannelRange(c.value.g) && InChannelRange(c.value.b)
  {
    var t := LStripHash(hexValue);
    ShortRead(Slice(t, 0, 2));
    ShortRead(Slice(t, 2, 4));
    ShortRead(Slice(t, 4, 6));
    match (IntBase16(Slice(t, 0, 2)), IntBase16(Slice(t, 2, 4)), IntBase16(Slice(t, 4, 6)))
    case (Some(r), Some(g), Some(b)) => Some(Rgb(r, g, b))
    case _ => None
  }

  /** `rgb_to_hex`: a hash and each component in the `02x` format form. */
  function RgbToHex(r: int, g: int, b: int): (h: string)
    ensures |h| >= 7 && h[0] == '#'
  {
    "#" + (Hex02(r) + (Hex02(g) + Hex02(b)))
  }

  // ----- What they promise -----

  /** A byte is written as its two digits, high first. */
  lemma Hex02Byte(hi: nat, lo: nat)
    requires hi < 16 && lo < 16
    ensures Hex02(hi * 16 + lo) == [HexChar(hi), HexChar(lo)]
  {
    var n := hi * 16 + lo;
    var s := Hex02(n);
    assert |s| == 2;
    assert HexValue(s) == HexValue(s[..1]) * 16 + HexDigitValue(s[1]);
    assert HexValue(s[..1]) == HexDigitValue(s[0]) by {
      assert s[..1][..0] == [];
    }
    assert HexDigitValue(s[1]) == lo && HexDigitValue(s[0]) == hi;
  }

  /** Components in a byte's range give a hash and six lower-case digits. */
  lemma RgbToHexFormat(r: int, g: int, b: int)
    requires 0 <= r < 256 && 0 <= g < 256 && 0 <= b < 256
    ensures var s := RgbToHex(r, g, b);
      |s| == 7 && s[0] == '#' && forall i :: 1 <= i < 7 ==> IsLowerHexDigit(s[i])
  {
    var x, y, z := Hex02(r), Hex02(g), Hex02(b);
    var s := RgbToHex(r, g, b);
    assert s == ['#', x[0], x[1], y[0], y[1], z[0], z[1]];
  }

  /** Any run of hashes in front is dropped with the rest. */
  lemma {:induction false} StripHashes(t: string, hashes: nat)
    ensures LStripHash(seq(hashes, _ => '#') + t) == LStripHash(t)
  {
    if hashes > 0 {
      var s := seq(hashes, _ => '#') + t;
      assert s[1..] == seq(hashes - 1, _ => '#') + t;
      StripHashes(t, hashes - 1);
    } else {
      assert seq(hashes, _ => '#') + t == t;
    }
  }

  /** However many hashes lead the text, the colour read is the same. */
  lemma HashesIgnored(t: string, hashes: nat)
    ensures HexToRgb(seq(hashes, _ => '#') + t) == HexToRgb(t)
  {
    StripHashes(t, hashes);
  }

  /** Three pairs after a hash, each read by `int(..., 16)`, give the colour
      of those three values. */
  lemma ThreePairs(x: string, y: string, z: string, r: int, g: int, b: int)
    requires |x| == 2 && |y| == 2 && |z| == 2 && x[0] != '#'
    requires IntBase16(x) == Some(r) && IntBase16(y) == Some(g) && IntBase16(z) == Some(b)
    ensures HexToRgb("#" + (x + (y + z))) == Some(Rgb(r, g, b))
  {
    var t := x + (y + z);
    assert ("#" + t)[1..] == t;
    assert LStripHash("#" + t) == t;
    assert Slice(t, 0, 2) == x && Slice(t, 2, 4) == y && Slice(t, 4, 6) == z;
  }

  /** What `rgb_to_hex` writes for bytes, `hex_to_rgb` reads back. */
  lemma RgbRoundTrip(r: int, g: int, b: int)
    requires 0 <= r < 256 && 0 <= g < 256 && 0 <= b < 256
    ensures HexToRgb(RgbToHex(r, g, b)) == Some(Rgb(r, g, b))
  {
    IntBase16Hex02(r);
    IntBase16Hex02(g);
    IntBase16Hex02(b);
    ThreePairs(Hex02(r), Hex02(g), Hex02(b), r, g, b);
  }

  /** The lower-case form of a digit. */
  function Lower(c: char): (l: char)
    requires IsHexDigit(c)
    ensures IsLowerHexDigit(l) && HexDigitValue(l) == HexDigitValue(c)
  {
    HexChar(HexDigitValue(c))
  }

  /** Two digits are read by `int(..., 16)` as one component, which
      the `02x` format writes back in lower case. */
  lemma PairRoundTrip(p: string)
    requires |p| == 2 && AllHex(p)
    ensures IntBase16(p) == Some(HexValue(p) as int)
    ensures Hex02(HexValue(p)) == [Lower(p[0]), Lower(p[1])]
  {
    IntBase16Digits(p);
    assert HexValue(p[..1]) == HexDigitValue(p[0]) by {
      assert p[..1][..0] == [];
    }
    Hex02Byte(HexDigitValue(p[0]), HexDigitValue(p[1]));
  }

  /** A colour read from `#` and six digits is written back as the same digits
      in lower case. */
  lemma HexRoundTrip(x: string, y: string, z: string)
    requires |x| == 2 && |y| == 2 && |z| == 2 && AllHex(x) && AllHex(y) && AllHex(z)
    ensures var c := HexToRgb("#" + (x + (y + z)));
      c == Some(Rgb(HexValue(x), HexValue(y), HexValue(z)))
      && RgbToHex(c.value.r, c.value.g, c.value.b)
         == "#" + ([Lower(x[0]), Lower(x[1])] + ([Lower(y[0]), Lower(y[1])] + [Lower(z[0]), Lower(z[1])]))
  {
    PairRoundTrip(x);
    PairRoundTrip(y);
    PairRoundTrip(z);
    ThreePairs(x, y, z, HexValue(x), HexValue(y), HexValue(z));
  }

  /** Fewer than five characters after the hashes leave the third component
      empty, and `int('', 16)` raises. */
  lemma HexToRgbShort(hexValue: string)
    requires |LStripHash(hexValue)| <= 4
    ensures HexToRgb(hexValue) == None
  {
  }

  /** Only the first six characters after the hashes are read. */
  lemma HexToRgbIgnoresRest(t: string, rest: string)
    requires |t| == 6 && t[0] != '#'
    ensures HexToRgb(t + rest) == HexToRgb(t)
  {
    var s := t + rest;
    assert s[0..2] == t[0..2] && s[2..4] == t[2..4] && s[4..6] == t[4..6];
  }
}

/** Character classes and the few string built-ins of the program:
    `str(n)`, `int(digits)`, `str.split('\n')`, `'\n'.join(...)` and `in`. */
module Text {

  /** `\d` of a regular expression (ASCII decimal digits). */
  predicate IsDigit(c: char) {
    '0' <= c <= '9'
  }

  /** `\s` of a str pattern: the characters for which `str.isspace()` holds. */
  predicate IsSpace(c: char) {
    c == ' ' || '\t' <= c <= '\r' || '\U{1c}' <= c <= '\U{1f}' || c == '\U{85}' || c == '\U{a0}'
    || c == '\U{1680}' || '\U{2000}' <= c <= '\U{200a}' || c == '\U{2028}' || c == '\U{2029}'
    || c == '\U{202f}' || c == '\U{205f}' || c == '\U{3000}'
  }

  /** `\w` of a regular expression, restricted to ASCII. */
  predicate IsWordChar(c: char) {
    IsDigit(c) || 'a' <= c <= 'z' || 'A' <= c <= 'Z' || c == '_'
  }

  predicate AllDigits(s: string) {
    forall i :: 0 <= i < |s| ==> IsDigit(s[i])
  }

  /** Python's `int(s)` for a string of ASCII digits (leading zeros allowed). */
  function DigitsValue(s: string): nat
    requires AllDigits(s)
  {
    if s == [] then 0 else DigitsValue(s[..|s| - 1]) * 10 + (s[|s| - 1] as int - '0' as int)
  }

  function DigitChar(d: nat): (c: char)
    requires d < 10
    ensures IsDigit(c) && c as int - '0' as int == d
  {
    ('0' as int + d) as char
  }

  /** Python's `str(n)` for a non-negative integer: its decimal digits, no
      leading zero, and reading them back with `int` gives `n` again. */
  function NatToString(n: nat): (s: string)
    ensures |s| >= 1 && AllDigits(s)
    ensures DigitsValue(s) == n
    ensures s[0] == '0' ==> n == 0
    ensures |s| > 1 ==> s[0] != '0'
    decreases n
  {
    if n < 10 then [DigitChar(n)]
    else
      var init := NatToString(n / 10);
      var s := init + [DigitChar(n % 10)];
      assert s[..|s| - 1] == init;
      s
  }

  /** `pat` occurs in `s` starting at index `k`. */
  predicate OccursAt(s: string, pat: string, k: nat) {
    k + |pat| <= |s| && s[k..k + |pat|] == pat
  }

  /** `pat in s` for strings. */
  predicate Contains(s: string, pat: string) {
    exists k: nat :: k <= |s| && OccursAt(s, pat, k)
  }

  lemma ContainsInSlice(s: string, a: nat, b: nat, pat: string)
    requires a <= b <= |s|
    requires Contains(s[a..b], pat)
    ensures Contains(s, pat)
  {
    var k: nat :| k <= b - a && OccursAt(s[a..b], pat, k);
    var piece := s[a..b][k..k + |pat|];
    assert piece == s[a + k..a + k + |pat|] by {
      forall j | 0 <= j < |pat| ensures piece[j] == s[a + k + j] {
        assert s[a..b][k + j] == s[a + k + j];
      }
    }
    assert OccursAt(s, pat, a + k);
  }

  /** Python's `s.split('\n')`: there is always one more piece than there are
      line feeds, and no piece contains one. */
  function SplitLines(s: string): (lines: seq<string>)
    ensures |lines| >= 1
    ensures forall i :: 0 <= i < |lines| ==> '\n' !in lines[i]
  {
    if s == [] then [""]
    else
      var rest := SplitLines(s[1..]);
      if s[0] == '\n' then [""] + rest
      else [[s[0]] + rest[0]] + rest[1..]
  }

  /** Python's `'\n'.join(lines)`. */
  function JoinLines(lines: seq<string>): string
  {
    if lines == [] then ""
    else if |lines| == 1 then lines[0]
    else lines[0] + "\n" + JoinLines(lines[1..])
  }

  /** Joining the pieces of a split gives back the text exactly. */
  lemma {:induction false} JoinSplit(s: string)
    ensures JoinLines(SplitLines(s)) == s
  {
    if s != [] {
      JoinSplit(s[1..]);
      var rest := SplitLines(s[1..]);
      if s[0] == '\n' {
        assert SplitLines(s)[1..] == rest;
      } else {
        JoinHead(s[0], rest);
      }
    }
  }

  lemma JoinHead(c: char, rest: seq<string>)
    requires |rest| >= 1
    ensures JoinLines([[c] + rest[0]] + rest[1..]) == [c] + JoinLines(rest)
  {
    var ls := [[c] + rest[0]] + rest[1..];
    if |rest| > 1 {
      assert ls[1..] == rest[1..];
    }
  }

  /** Splitting a join of lines without line feeds gives the lines back. */
  lemma {:induction false} SplitJoin(lines: seq<string>)
    requires |lines| >= 1
    requires forall i :: 0 <= i < |lines| ==> '\n' !in lines[i]
    ensures SplitLines(JoinLines(lines)) == lines
  {
    if |lines| == 1 {
      SplitNoFeed(lines[0]);
    } else {
      SplitJoin(lines[1..]);
      SplitPrefix(lines[0], JoinLines(lines[1..]));
      assert [lines[0]] + lines[1..] == lines;
    }
  }

  lemma {:induction false} SplitNoFeed(s: string)
    requires '\n' !in s
    ensures SplitLines(s) == [s]
  {
    if s != [] {
      assert '\n' !in s[1..] by {
        forall i | 0 <= i < |s[1..]| ensures s[1..][i] != '\n' { assert s[1..][i] == s[i + 1]; }
      }
      SplitNoFeed(s[1..]);
      assert [s[0]] + s[1..] == s;
    }
  }

  lemma {:induction false} SplitPrefix(a: string, b: string)
    requires '\n' !in a
    ensures SplitLines(a + "\n" + b) == [a] + SplitLines(b)
  {
    if a == [] {
      assert a + "\n" + b == "\n" + b;
      assert ("\n" + b)[1..] == b;
    } else {
      var s := a + "\n" + b;
      assert s[1..] == a[1..] + "\n" + b;
      assert '\n' !in a[1..] by {
        forall i | 0 <= i < |a[1..]| ensures a[1..][i] != '\n' { assert a[1..][i] == a[i + 1]; }
      }
      SplitPrefix(a[1..], b);
      assert [a[0]] + a[1..] == a;
    }
  }

  /** Every piece of a split is a stretch of the text. */
  lemma {:induction false} SplitPieceIsSlice(s: string, i: nat)
    requires i < |SplitLines(s)|
    ensures exists a, b :: 0 <= a <= b <= |s| && SplitLines(s)[i] == s[a..b]
  {
    if s == [] {
      assert SplitLines(s)[i] == s[0..0];
    } else {
      var rest := SplitLines(s[1..]);
      if s[0] == '\n' {
        if i == 0 {
          assert SplitLines(s)[i] == s[0..0];
        } else {
          SplitPieceIsSlice(s[1..], i - 1);
          var a, b :| 0 <= a <= b <= |s[1..]| && rest[i - 1] == s[1..][a..b];
          assert s[1..][a..b] == s[a + 1..b + 1];
        }
      } else if i == 0 {
        SplitHeadIsPrefix(s[1..]);
        var b :| 0 <= b <= |s[1..]| && rest[0] == s[1..][..b];
        assert [s[0]] + s[1..][..b] == s[0..b + 1];
      } else {
        SplitPieceIsSlice(s[1..], i);
        var a, b :| 0 <= a <= b <= |s[1..]| && rest[i] == s[1..][a..b];
        assert s[1..][a..b] == s[a + 1..b + 1];
      }
    }
  }

  lemma {:induction false} SplitHeadIsPrefix(s: string)
    ensures exists b :: 0 <= b <= |s| && SplitLines(s)[0] == s[..b]
  {
    if s == [] {
      assert SplitLines(s)[0] == s[..0];
    } else if s[0] == '\n' {
      assert SplitLines(s)[0] == s[..0];
    } else {
      SplitHeadIsPrefix(s[1..]);
      var b :| 0 <= b <= |s[1..]| && SplitLines(s[1..])[0] == s[1..][..b];
      assert [s[0]] + s[1..][..b] == s[..b + 1];
    }
  }

  /** A pattern found in one line of a split is found in the whole text. */
  lemma ContainsInSplitLine(s: string, i: nat, pat: string)
    requires i < |SplitLines(s)|
    requires Contains(SplitLines(s)[i], pat)
    ensures Contains(s, pat)
  {
    SplitPieceIsSlice(s, i);
    var a, b :| 0 <= a <= b <= |s| && SplitLines(s)[i] == s[a..b];
    ContainsInSlice(s, a, b, pat);
  }
}

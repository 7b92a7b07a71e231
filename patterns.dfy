/** The regular expressions of the tool switcher, written out as lists of
    tokens, with Python's `re.search`, `re.sub` and `match.group(1)`.

    Each pattern here is made of literals, `\d+`, `\s+`, `\s*` and `\b`, and
    every run of digits or spaces in them is followed by a literal or by a
    boundary that the run's own characters cannot satisfy. A run therefore
    matches only when it is taken whole, so matching with maximal runs and no
    backtracking finds exactly the matches the regular-expression engine finds. */
module Patterns {
  import opened Wrappers
  import opened Text

  datatype Token =
    | Lit(text: string)        // literal characters, such as `P0` or `M104\.1`
    | Digits(captured: bool)   // `\d+`; the captured one is group 1
    | Spaces(atLeast: nat)     // `\s+` (at least 1) or `\s*` (at least 0)
    | WordBoundary             // `\b`

  /** Where a match that starts at a given index ends, and its group 1
      (empty when the pattern captures nothing). */
  datatype Match = Match(end: nat, group: string)

  /** Length of the run of digits that starts at index `i`. */
  function DigitSpan(s: string, i: nat): (n: nat)
    requires i <= |s|
    ensures i + n <= |s|
    ensures forall j :: i <= j < i + n ==> IsDigit(s[j])
    ensures i + n == |s| || !IsDigit(s[i + n])
    decreases |s| - i
  {
    if i < |s| && IsDigit(s[i]) then 1 + DigitSpan(s, i + 1) else 0
  }

  /** Length of the run of white space that starts at index `i`. */
  function SpaceSpan(s: string, i: nat): (n: nat)
    requires i <= |s|
    ensures i + n <= |s|
    ensures forall j :: i <= j < i + n ==> IsSpace(s[j])
    ensures i + n == |s| || !IsSpace(s[i + n])
    decreases |s| - i
  {
    if i < |s| && IsSpace(s[i]) then 1 + SpaceSpan(s, i + 1) else 0
  }

  /** `\b`: exactly one side of index `i` is a word character. */
  predicate AtWordBoundary(s: string, i: nat)
    requires i <= |s|
  {
    (i > 0 && IsWordChar(s[i - 1])) != (i < |s| && IsWordChar(s[i]))
  }

  /** The number of characters a pattern's literals take: every match is at
      least this long. */
  function LiteralLength(toks: seq<Token>): nat
  {
    if toks == [] then 0
    else (if toks[0].Lit? then |toks[0].text| else 0) + LiteralLength(toks[1..])
  }

  /** Matches the tokens against `s` from index `i` on. */
  function MatchFrom(toks: seq<Token>, s: string, i: nat, group: string): (r: Option<Match>)
    requires i <= |s|
    requires AllDigits(group)
    ensures r.Some? ==> i + LiteralLength(toks) <= r.value.end <= |s| && AllDigits(r.value.group)
    decreases |toks|
  {
    if toks == [] then Some(Match(i, group))
    else
      match toks[0]
      case Lit(t) =>
        if i + |t| <= |s| && s[i..i + |t|] == t then MatchFrom(toks[1..], s, i + |t|, group) else None
      case Digits(captured) =>
        var n := DigitSpan(s, i);
        if n == 0 then None
        else MatchFrom(toks[1..], s, i + n, if captured then s[i..i + n] else group)
      case Spaces(atLeast) =>
        var n := SpaceSpan(s, i);
        if n < atLeast then None else MatchFrom(toks[1..], s, i + n, group)
      case WordBoundary =>
        if AtWordBoundary(s, i) then MatchFrom(toks[1..], s, i, group) else None
  }

  /** The match of the pattern that starts exactly at index `k`, if any. */
  function MatchAt(toks: seq<Token>, s: string, k: nat): (r: Option<Match>)
    requires k <= |s|
    ensures r.Some? ==> k + LiteralLength(toks) <= r.value.end <= |s| && AllDigits(r.value.group)
  {
    MatchFrom(toks, s, k, "")
  }

  /** The leftmost index at or after `k` where the pattern matches. */
  function SearchFrom(toks: seq<Token>, s: string, k: nat): (r: Option<nat>)
    requires k <= |s|
    ensures r.Some? ==> k <= r.value <= |s| && MatchAt(toks, s, r.value).Some?
    ensures r.Some? ==> forall j :: k <= j < r.value ==> MatchAt(toks, s, j).None?
    ensures r.None? ==> forall j :: k <= j <= |s| ==> MatchAt(toks, s, j).None?
    decreases |s| - k
  {
    if MatchAt(toks, s, k).Some? then Some(k)
    else if k == |s| then None
    else SearchFrom(toks, s, k + 1)
  }

  /** `re.search(pattern, s)`: the start of the leftmost match. */
  function Search(toks: seq<Token>, s: string): Option<nat>
  {
    SearchFrom(toks, s, 0)
  }

  /** Whether `re.search(pattern, s)` finds anything. */
  predicate Matches(toks: seq<Token>, s: string)
  {
    Search(toks, s).Some?
  }

  /** `re.search(pattern, s).group(1)`: group 1 of the leftmost match. */
  function Find(toks: seq<Token>, s: string): (r: Option<string>)
    ensures r.Some? <==> Matches(toks, s)
    ensures r.Some? ==> AllDigits(r.value)
  {
    match Search(toks, s)
    case None => None
    case Some(k) => Some(MatchAt(toks, s, k).value.group)
  }

  /** A pattern that matches at the start of a text is found there. */
  lemma FindAtStart(toks: seq<Token>, s: string)
    requires MatchAt(toks, s, 0).Some?
    ensures Search(toks, s) == Some(0) && Find(toks, s) == Some(MatchAt(toks, s, 0).value.group)
  {
  }

  /** `re.sub(pattern, repl, s)` from index `i` on: every leftmost,
      non-overlapping match is replaced by `repl`, the rest is copied. */
  function SubFrom(toks: seq<Token>, s: string, i: nat, repl: string): (r: string)
    requires i <= |s|
    requires LiteralLength(toks) > 0
    ensures (forall j :: i <= j < |s| ==> MatchAt(toks, s, j).None?) ==> r == s[i..]
    decreases |s| - i
  {
    if i == |s| then ""
    else
      match MatchAt(toks, s, i)
      case Some(m) => repl + SubFrom(toks, s, m.end, repl)
      case None =>
        var r := [s[i]] + SubFrom(toks, s, i + 1, repl);
        assert [s[i]] + s[i + 1..] == s[i..];
        r
  }

  /** The character at `i` followed by the slice after it up to `k`. */
  lemma ConsSlice(s: string, i: nat, k: nat, tail: string)
    requires i < k <= |s|
    ensures [s[i]] + (s[i + 1..k] + tail) == s[i..k] + tail
  {
    assert [s[i]] + s[i + 1..k] == s[i..k];
  }

  /** A match at `i` is replaced and the substitution goes on after it. */
  lemma SubFromHit(toks: seq<Token>, s: string, i: nat, repl: string)
    requires i <= |s| && LiteralLength(toks) > 0 && MatchAt(toks, s, i).Some?
    ensures var e := MatchAt(toks, s, i).value.end;
      i < e && SubFrom(toks, s, i, repl) == repl + SubFrom(toks, s, e, repl)
  {
  }

  /** Without a match at `i` the character there is copied. */
  lemma SubFromMiss(toks: seq<Token>, s: string, i: nat, repl: string)
    requires i < |s| && LiteralLength(toks) > 0 && MatchAt(toks, s, i).None?
    ensures SubFrom(toks, s, i, repl) == [s[i]] + SubFrom(toks, s, i + 1, repl)
  {
  }

  /** The pattern matches at no index from `i` up to, not including, `k`. */
  predicate NoMatchIn(toks: seq<Token>, s: string, i: nat, k: nat)
    requires i <= k <= |s|
    decreases k - i
  {
    i == k || (MatchAt(toks, s, i).None? && NoMatchIn(toks, s, i + 1, k))
  }

  /** The search passes only indexes where the pattern does not match. */
  lemma {:induction false} SearchGap(toks: seq<Token>, s: string, i: nat)
    requires i <= |s| && SearchFrom(toks, s, i).Some?
    ensures NoMatchIn(toks, s, i, SearchFrom(toks, s, i).value)
    decreases |s| - i
  {
    if MatchAt(toks, s, i).None? {
      SearchGap(toks, s, i + 1);
    }
  }

  /** A stretch without a match is copied as it is. */
  lemma {:induction false} SubFromGap(toks: seq<Token>, s: string, i: nat, k: nat, repl: string)
    requires i <= k <= |s| && LiteralLength(toks) > 0
    requires NoMatchIn(toks, s, i, k)
    ensures SubFrom(toks, s, i, repl) == s[i..k] + SubFrom(toks, s, k, repl)
    decreases k - i
  {
    if i < k {
      SubFromMiss(toks, s, i, repl);
      SubFromGap(toks, s, i + 1, k, repl);
      ConsSlice(s, i, k, SubFrom(toks, s, k, repl));
    } else {
      assert s[i..k] == [];
    }
  }

  /** `re.sub` copies the text before the leftmost match, puts `repl` in
      place of that match and goes on from where the match ends. */
  lemma SubFromLeftmost(toks: seq<Token>, s: string, i: nat, repl: string)
    requires i <= |s| && LiteralLength(toks) > 0
    requires SearchFrom(toks, s, i).Some?
    ensures var k := SearchFrom(toks, s, i).value;
      var e := MatchAt(toks, s, k).value.end;
      k < e && SubFrom(toks, s, i, repl) == s[i..k] + repl + SubFrom(toks, s, e, repl)
  {
    var k := SearchFrom(toks, s, i).value;
    SearchGap(toks, s, i);
    SubFromLeftmostAt(toks, s, i, k, MatchAt(toks, s, k).value.end, repl);
  }

  /** The same, with the match's start and end given. */
  lemma SubFromLeftmostAt(toks: seq<Token>, s: string, i: nat, k: nat, e: nat, repl: string)
    requires i <= k <= |s| && LiteralLength(toks) > 0
    requires NoMatchIn(toks, s, i, k) && MatchAt(toks, s, k).Some? && e == MatchAt(toks, s, k).value.end
    ensures k < e && SubFrom(toks, s, i, repl) == s[i..k] + repl + SubFrom(toks, s, e, repl)
  {
    SubFromGap(toks, s, i, k, repl);
    SubFromHit(toks, s, k, repl);
    var rest := SubFrom(toks, s, e, repl);
    assert s[i..k] + (repl + rest) == s[i..k] + repl + rest;
  }

  /** `re.sub(pattern, repl, s)`: a text without a match is returned as it
      is; otherwise the text before the leftmost match is kept, the match
      becomes `repl`, and the substitution goes on after the match. */
  function SubAll(toks: seq<Token>, s: string, repl: string): (r: string)
    requires LiteralLength(toks) > 0
    ensures !Matches(toks, s) ==> r == s
    ensures Matches(toks, s) ==>
      var k := Search(toks, s).value;
      var e := MatchAt(toks, s, k).value.end;
      k < e && r == s[..k] + repl + SubFrom(toks, s, e, repl)
  {
    if Matches(toks, s) then
      SubFromLeftmost(toks, s, 0, repl);
      SubFrom(toks, s, 0, repl)
    else SubFrom(toks, s, 0, repl)
  }

  /** `re.sub('^' + pattern, repl, s)`: only a match at the start is replaced. */
  function SubAtStart(toks: seq<Token>, s: string, repl: string): (r: string)
    ensures MatchAt(toks, s, 0).None? ==> r == s
    ensures MatchAt(toks, s, 0).Some? ==> r == repl + s[MatchAt(toks, s, 0).value.end..]
  {
    match MatchAt(toks, s, 0)
    case None => s
    case Some(m) => repl + s[m.end..]
  }

  /** Where `$` lets `.*` stop: the end of the text, or just before a line feed
      that ends it. */
  function TextEnd(s: string): (e: nat)
    ensures e <= |s|
  {
    if |s| > 0 && s[|s| - 1] == '\n' then |s| - 1 else |s|
  }

  /** `;.*$` matches at index `k`. */
  predicate CommentAt(s: string, k: nat)
    requires k < |s|
  {
    s[k] == ';' && k < TextEnd(s) && '\n' !in s[k + 1..TextEnd(s)]
  }

  /** `re.search(r';.*$', s).group(0)` from index `k` on. */
  function CommentFrom(s: string, k: nat): Option<string>
    requires k <= |s|
    decreases |s| - k
  {
    if k == |s| then None
    else if CommentAt(s, k) then Some(s[k..TextEnd(s)])
    else CommentFrom(s, k + 1)
  }

  /** The comment search finds the text from a place where `;.*$` matches to
      the end, and finds nothing exactly when it matches nowhere from `k` on. */
  lemma {:induction false} CommentFound(s: string, k: nat)
    requires k <= |s|
    ensures var r := CommentFrom(s, k);
      (r.Some? ==> exists j :: k <= j < |s| && CommentAt(s, j) && r.value == s[j..TextEnd(s)])
      && (r.None? <==> forall j :: k <= j < |s| ==> !CommentAt(s, j))
    decreases |s| - k
  {
    if k < |s| {
      CommentFound(s, k + 1);
    }
  }

  /** `re.search(r';.*$', s).group(0)`: the comment that ends a line. */
  function Comment(s: string): Option<string>
  {
    CommentFrom(s, 0)
  }

  /** On a line without line feeds the comment is everything from its first
      semicolon on. */
  lemma {:induction false} CommentOfLine(s: string, k: nat)
    requires '\n' !in s
    requires k < |s| && s[k] == ';'
    requires forall j :: 0 <= j < k ==> s[j] != ';'
    ensures Comment(s) == Some(s[k..])
  {
    assert TextEnd(s) == |s|;
    assert CommentAt(s, k) by {
      assert forall j :: k + 1 <= j < |s| ==> s[k + 1..][j - k - 1] == s[j];
    }
    CommentScan(s, 0, k);
    assert s[k..TextEnd(s)] == s[k..];
  }

  lemma {:induction false} CommentScan(s: string, i: nat, k: nat)
    requires i <= k < |s| && CommentAt(s, k)
    requires forall j :: i <= j < k ==> !CommentAt(s, j)
    ensures CommentFrom(s, i) == Some(s[k..TextEnd(s)])
    decreases k - i
  {
    if i < k {
      assert !CommentAt(s, i);
      CommentScan(s, i + 1, k);
      assert CommentFrom(s, i) == CommentFrom(s, i + 1);
    } else {
      assert CommentFrom(s, i) == Some(s[k..TextEnd(s)]);
    }
  }

  // ----- The patterns of the switcher -----

  /** `P0\s+S1\s+L2\s+D0`: park the mounted tool. */
  const ParkPattern: seq<Token> :=
    [Lit("P0"), Spaces(1), Lit("S1"), Spaces(1), Lit("L2"), Spaces(1), Lit("D0")]

  /** `T(\d+)\s+S1\s+L0\s+D0`: pick up tool n. */
  const PickupPattern: seq<Token> :=
    [Lit("T"), Digits(true), Spaces(1), Lit("S1"), Spaces(1), Lit("L0"), Spaces(1), Lit("D0")]

  /** `M104\.1\s+T(\d+)`: a temperature switch for tool n. */
  const M104Pattern: seq<Token> :=
    [Lit("M104.1"), Spaces(1), Lit("T"), Digits(true)]

  /** `\bT(\d+)\s+S\d+\s+L\d+\s+D\d+`: a tool command with parameters. */
  const ToolPattern: seq<Token> :=
    [WordBoundary, Lit("T"), Digits(true), Spaces(1), Lit("S"), Digits(false), Spaces(1),
     Lit("L"), Digits(false), Spaces(1), Lit("D"), Digits(false)]

  /** `T(\d+)\s*;`, tried only at the start of a line (`^`). */
  const SimpleToolPattern: seq<Token> :=
    [Lit("T"), Digits(true), Spaces(0), Lit(";")]

  /** `P(\d+)`, `Q(\d+)` and `S(\d+)`: a numeric parameter. */
  function ParamPattern(letter: char): seq<Token>
  {
    [Lit([letter]), Digits(true)]
  }

  /** `T\d+`: a tool token anywhere. */
  const ToolToken: seq<Token> := [Lit("T"), Digits(false)]

  /** `\bT\d+\b`: a tool token that is a word of its own. */
  const WordToolToken: seq<Token> := [WordBoundary, Lit("T"), Digits(false), WordBoundary]

  /** A run of digits starting at `i` that is followed by a non-digit is the
      digit span there. */
  lemma DigitSpanIs(s: string, i: nat, d: string)
    requires i + |d| <= |s| && s[i..i + |d|] == d && AllDigits(d)
    requires i + |d| == |s| || !IsDigit(s[i + |d|])
    ensures DigitSpan(s, i) == |d|
  {
    var n := DigitSpan(s, i);
    assert forall j :: 0 <= j < |d| ==> s[i + j] == d[j];
  }

  /** The group of a parameter pattern is never empty. */
  lemma ParamGroupNonEmpty(letter: char, s: string)
    requires Matches(ParamPattern(letter), s)
    ensures |Find(ParamPattern(letter), s).value| >= 1
  {
    var p := ParamPattern(letter);
    var k := Search(p, s).value;
    var n := DigitSpan(s, k + 1);
    assert p[1..] == [Digits(true)];
    assert MatchAt(p, s, k) == MatchFrom(p[1..], s, k + 1, "");
    assert n > 0;
    assert MatchFrom(p[1..], s, k + 1, "") == Some(Match(k + 1 + n, s[k + 1..k + 1 + n]));
  }

  /** A temperature switch at the start of a text is the leftmost one, and
      its group is the tool number written there. */
  lemma M104Lead(n: string, rest: string)
    requires |n| >= 1 && AllDigits(n)
    requires rest == [] || !IsDigit(rest[0])
    ensures Find(M104Pattern, "M104.1 T" + (n + rest)) == Some(n)
  {
    var x := "M104.1 T";
    assert x == "M104.1" + " T";
    HeadThenTool(M104Pattern, "M104.1", x, n, rest, x + (n + rest));
    FindAtStart(M104Pattern, x + (n + rest));
  }

  /** A pattern shaped as `{h}\s+T(\d+)` reads `{h} T{n}` before a rest that
      does not start with a digit, and captures `n`. */
  lemma HeadThenTool(p: seq<Token>, h: string, x: string, n: string, rest: string, s: string)
    requires |p| == 4 && p[0] == Lit(h) && p[1] == Spaces(1) && p[2] == Lit("T") && p[3] == Digits(true)
    requires x == h + " T" && |n| >= 1 && AllDigits(n) && (rest == [] || !IsDigit(rest[0]))
    requires s == x + (n + rest)
    ensures MatchFrom(p, s, 0, "") == Some(Match(|x| + |n|, n))
  {
    DigitsAfter(x, n, rest, s);
    HeadLayout(h, x, s);
    HeadThenToolAt(p, s, h, n, |h|, |h| + 1, |h| + 2, |x| + |n|);
  }

  /** The same on a text whose layout is given by indices. */
  lemma HeadThenToolAt(p: seq<Token>, s: string, h: string, n: string, i1: nat, i2: nat, i3: nat, e: nat)
    requires |p| == 4 && p[0] == Lit(h) && p[1] == Spaces(1) && p[2] == Lit("T") && p[3] == Digits(true)
    requires i1 == |h| && i2 == i1 + 1 && i3 == i2 + 1 && e == i3 + |n| && e <= |s| && AllDigits(n)
    requires s[0..i1] == h && s[i1] == ' ' && s[i2] == 'T' && s[i2..i3] == "T"
    requires DigitSpan(s, i3) == |n| && |n| >= 1 && s[i3..e] == n
    ensures MatchFrom(p, s, 0, "") == Some(Match(e, n))
  {
    assert MatchFrom(p, s, 0, "") == MatchFrom(p[1..], s, i1, "") by {
      LitTo(p, s, 0, i1, "");
    }
    assert MatchFrom(p[1..], s, i1, "") == MatchFrom(p[2..], s, i2, "") by {
      assert SpaceSpan(s, i2) == 0;
      assert SpaceSpan(s, i1) == 1;
      SpacesTo(p[1..], s, i1, i2, "");
      assert p[1..][1..] == p[2..];
    }
    assert MatchFrom(p[2..], s, i2, "") == MatchFrom(p[3..], s, i3, "") by {
      LitTo(p[2..], s, i2, i3, "");
      assert p[2..][1..] == p[3..];
    }
    assert MatchFrom(p[3..], s, i3, "") == Some(Match(e, n)) by {
      DigitsTo(p[3..], s, i3, e, "", n);
      assert p[3..][1..] == [];
    }
  }

  /** Where the parts of `{h} T` stand in a text that starts with it. */
  lemma HeadLayout(h: string, x: string, s: string)
    requires x == h + " T" && |x| <= |s| && s[..|x|] == x
    ensures s[0..|h|] == h && s[|h|] == ' ' && s[|h| + 1] == 'T' && s[|h| + 1..|h| + 2] == "T"
  {
    assert s[0..|h|] == x[0..|h|];
    assert s[|h| + 1..|h| + 2] == x[|h| + 1..|h| + 2];
  }

  /** A text, then digits, then a rest that does not start with a digit: the
      digit run after the text is those digits. */
  lemma DigitsAfter(x: string, n: string, rest: string, s: string)
    requires AllDigits(n) && (rest == [] || !IsDigit(rest[0]))
    requires s == x + (n + rest)
    ensures s[..|x|] == x && s[|x|..|x| + |n|] == n && DigitSpan(s, |x|) == |n|
  {
    SliceAfter(x, n, rest, s, |x| + |n|);
    DigitSpanAt(s, |x|, |x| + |n|, n);
  }

  /** Where the parts of `x + (n + rest)` stand. */
  lemma SliceAfter(x: string, n: string, rest: string, s: string, e: nat)
    requires s == x + (n + rest) && e == |x| + |n|
    ensures e <= |s| && s[..|x|] == x && s[|x|..e] == n && (e == |s| || s[e] == rest[0])
  {
  }

  /** The same, with the end of the run given. */
  lemma DigitSpanAt(s: string, i: nat, e: nat, d: string)
    requires e == i + |d| && e <= |s| && s[i..e] == d && AllDigits(d)
    requires e == |s| || !IsDigit(s[e])
    ensures DigitSpan(s, i) == |d|
  {
    DigitSpanIs(s, i, d);
  }

  /** A parameter written at the start of a text is the one found. */
  lemma FindParamHere(letter: char, d: string, rest: string)
    requires |d| >= 1 && AllDigits(d)
    requires rest == [] || !IsDigit(rest[0])
    ensures Find(ParamPattern(letter), [letter] + (d + rest)) == Some(d)
  {
    var s := [letter] + (d + rest);
    var p := ParamPattern(letter);
    assert s[..1] == [letter];
    assert s[1..1 + |d|] == d;
    assert 1 + |d| == |s| || s[1 + |d|] == rest[0];
    DigitSpanIs(s, 1, d);
    assert p[1..] == [Digits(true)];
    assert MatchFrom(p[1..], s, 1, "") == Some(Match(1 + |d|, d));
    assert MatchAt(p, s, 0) == Some(Match(1 + |d|, d));
  }

  /** Digit runs inside the second part of a text do not depend on the first
      part. */
  lemma {:induction false} DigitSpanShift(a: string, b: string, j: nat)
    requires j <= |b|
    ensures DigitSpan(a + b, |a| + j) == DigitSpan(b, j)
    decreases |b| - j
  {
    if j < |b| {
      assert (a + b)[|a| + j] == b[j];
      DigitSpanShift(a, b, j + 1);
    }
  }

  /** A slice of the second part of a text, read in the whole text. */
  lemma SliceShiftAt(a: string, b: string, j: nat, k: nat, n: nat)
    requires j + n <= |b| && k == |a| + j
    ensures (a + b)[k..k + n] == b[j..j + n]
  {
  }

  /** The same, with the index in the whole text given. */
  lemma DigitSpanShiftAt(a: string, b: string, j: nat, k: nat)
    requires j <= |b| && k == |a| + j
    ensures DigitSpan(a + b, k) == DigitSpan(b, j)
  {
    DigitSpanShift(a, b, j);
  }

  /** White-space runs inside the second part of a text do not depend on the
      first part. */
  lemma {:induction false} SpaceSpanShift(a: string, b: string, j: nat)
    requires j <= |b|
    ensures SpaceSpan(a + b, |a| + j) == SpaceSpan(b, j)
    decreases |b| - j
  {
    if j < |b| {
      assert (a + b)[|a| + j] == b[j];
      SpaceSpanShift(a, b, j + 1);
    }
  }

  /** Where a parameter pattern matches: its letter before a nonempty digit
      run, which it captures. */
  function ParamAt(letter: char, s: string, i: nat): Option<Match>
    requires i <= |s|
  {
    if i + 1 <= |s| && s[i] == letter && DigitSpan(s, i + 1) > 0
    then Some(Match(i + 1 + DigitSpan(s, i + 1), s[i + 1..i + 1 + DigitSpan(s, i + 1)]))
    else None
  }

  /** The matcher agrees with that description of a parameter. */
  lemma ParamMatchHere(letter: char, s: string, i: nat)
    requires i <= |s|
    ensures MatchAt(ParamPattern(letter), s, i) == ParamAt(letter, s, i)
  {
    var p := ParamPattern(letter);
    assert p[0] == Lit([letter]) && p[1..] == [Digits(true)] && p[1..][1..] == [];
    if i + 1 <= |s| && s[i] == letter {
      assert s[i..i + 1] == [letter];
      assert MatchAt(p, s, i) == MatchFrom(p[1..], s, i + 1, "");
      if DigitSpan(s, i + 1) > 0 {
        DigitsStep(p[1..], s, i + 1, "");
      }
    } else if i + 1 <= |s| {
      assert s[i..i + 1][0] == s[i];
    }
  }

  /** A parameter stands inside the second part of a text exactly where it
      stands in that part alone, with the same digits. */
  lemma ParamAtShift(letter: char, a: string, b: string, j: nat)
    requires j <= |b|
    ensures ParamAt(letter, a + b, |a| + j).Some? == ParamAt(letter, b, j).Some?
    ensures ParamAt(letter, b, j).Some? ==> ParamAt(letter, a + b, |a| + j).value.group == ParamAt(letter, b, j).value.group
  {
    var s, i := a + b, |a| + j;
    if j + 1 <= |b| {
      var n := DigitSpan(b, j + 1);
      assert s[i] == b[j] && DigitSpan(s, i + 1) == n by {
        DigitSpanShiftAt(a, b, j + 1, i + 1);
      }
      if b[j] == letter && n > 0 {
        SliceShiftAt(a, b, j + 1, i + 1, n);
      }
    }
  }

  /** A parameter pattern matches inside the second part of a text exactly
      where it matches in that part alone, with the same group. */
  lemma ParamMatchShift(letter: char, a: string, b: string, j: nat)
    requires j <= |b|
    ensures MatchAt(ParamPattern(letter), a + b, |a| + j).Some? == MatchAt(ParamPattern(letter), b, j).Some?
    ensures MatchAt(ParamPattern(letter), b, j).Some? ==>
      MatchAt(ParamPattern(letter), a + b, |a| + j).value.group == MatchAt(ParamPattern(letter), b, j).value.group
  {
    ParamMatchHere(letter, a + b, |a| + j);
    ParamMatchHere(letter, b, j);
    ParamAtShift(letter, a, b, j);
  }

  /** Searching from inside the second part of a text finds what searching
      that part alone finds. */
  lemma {:induction false} ParamSearchShift(letter: char, a: string, b: string, j: nat)
    requires j <= |b|
    ensures SearchFrom(ParamPattern(letter), a + b, |a| + j).Some? == SearchFrom(ParamPattern(letter), b, j).Some?
    ensures SearchFrom(ParamPattern(letter), b, j).Some? ==>
      SearchFrom(ParamPattern(letter), a + b, |a| + j).value == |a| + SearchFrom(ParamPattern(letter), b, j).value
    decreases |b| - j
  {
    ParamMatchShift(letter, a, b, j);
    if j < |b| {
      ParamSearchShift(letter, a, b, j + 1);
    }
  }

  /** Searching from inside a first part that does not hold the letter goes
      on at the start of the second part. */
  lemma {:induction false} ParamSearchSkip(letter: char, a: string, b: string, i: nat)
    requires i <= |a| && letter !in a
    ensures SearchFrom(ParamPattern(letter), a + b, i) == SearchFrom(ParamPattern(letter), a + b, |a|)
    decreases |a| - i
  {
    if i < |a| {
      var s := a + b;
      assert s[i] == a[i];
      assert s[i..i + 1] != [letter] by { assert s[i..i + 1][0] == s[i]; }
      ParamSearchSkip(letter, a, b, i + 1);
    }
  }

  /** A first part without the parameter's letter is skipped by the search
      for that parameter. */
  lemma FindParamSkip(letter: char, a: string, b: string)
    requires letter !in a
    ensures Find(ParamPattern(letter), a + b) == Find(ParamPattern(letter), b)
  {
    ParamSearchSkip(letter, a, b, 0);
    ParamSearchShift(letter, a, b, 0);
    var p := ParamPattern(letter);
    if Search(p, b).Some? {
      ParamMatchShift(letter, a, b, Search(p, b).value);
    }
  }

  /** A pattern that starts with a literal is only searched for where the
      literal's first character occurs. */
  lemma {:induction false} SearchSkipsToLead(toks: seq<Token>, s: string, k: nat)
    requires toks != [] && toks[0].Lit? && |toks[0].text| > 0 && k <= |s|
    requires forall j :: k <= j < |s| && s[j] == toks[0].text[0] ==> MatchAt(toks, s, j).None?
    ensures SearchFrom(toks, s, k) == None
    decreases |s| - k
  {
    var t := toks[0].text;
    if k < |s| && s[k] != t[0] && k + |t| <= |s| {
      assert s[k..k + |t|][0] == s[k];
    }
    if k < |s| {
      SearchSkipsToLead(toks, s, k + 1);
    }
  }

  /** Matching a captured number moves past it and records it. */
  lemma DigitsStep(toks: seq<Token>, s: string, i: nat, group: string)
    requires toks != [] && toks[0] == Digits(true) && i <= |s| && AllDigits(group)
    requires DigitSpan(s, i) > 0
    ensures MatchFrom(toks, s, i, group)
      == MatchFrom(toks[1..], s, i + DigitSpan(s, i), s[i..i + DigitSpan(s, i)])
  {
  }

  /** Matching an uncaptured number moves past it. */
  lemma DigitsSkip(toks: seq<Token>, s: string, i: nat, group: string)
    requires toks != [] && toks[0] == Digits(false) && i <= |s| && AllDigits(group)
    requires DigitSpan(s, i) > 0
    ensures MatchFrom(toks, s, i, group) == MatchFrom(toks[1..], s, i + DigitSpan(s, i), group)
  {
  }

  /** Matching a literal moves past it. */
  lemma LitStep(toks: seq<Token>, s: string, i: nat, group: string)
    requires toks != [] && toks[0].Lit? && AllDigits(group)
    requires i + |toks[0].text| <= |s| && s[i..i + |toks[0].text|] == toks[0].text
    ensures MatchFrom(toks, s, i, group) == MatchFrom(toks[1..], s, i + |toks[0].text|, group)
  {
  }

  /** A word boundary that holds moves on to the rest of the pattern. */
  lemma BoundaryTo(toks: seq<Token>, s: string, i: nat, group: string)
    requires toks != [] && toks[0] == WordBoundary && i <= |s| && AllDigits(group) && AtWordBoundary(s, i)
    ensures MatchFrom(toks, s, i, group) == MatchFrom(toks[1..], s, i, group)
  {
  }

  /** Matching a literal that ends at `e` moves to `e`. */
  lemma LitTo(toks: seq<Token>, s: string, i: nat, e: nat, group: string)
    requires toks != [] && toks[0].Lit? && AllDigits(group)
    requires e == i + |toks[0].text| && e <= |s| && s[i..e] == toks[0].text
    ensures MatchFrom(toks, s, i, group) == MatchFrom(toks[1..], s, e, group)
  {
  }

  /** Matching enough white space that ends at `e` moves to `e`. */
  lemma SpacesTo(toks: seq<Token>, s: string, i: nat, e: nat, group: string)
    requires toks != [] && toks[0].Spaces? && i <= |s| && AllDigits(group)
    requires SpaceSpan(s, i) >= toks[0].atLeast && e == i + SpaceSpan(s, i)
    ensures MatchFrom(toks, s, i, group) == MatchFrom(toks[1..], s, e, group)
  {
  }

  /** Matching a digit run that ends at `e` moves to `e`, with the group `h`
      it leaves. */
  lemma DigitsTo(toks: seq<Token>, s: string, i: nat, e: nat, group: string, h: string)
    requires toks != [] && toks[0].Digits? && i <= |s| && AllDigits(group)
    requires DigitSpan(s, i) > 0 && e == i + DigitSpan(s, i)
    requires h == if toks[0].captured then s[i..e] else group
    ensures MatchFrom(toks, s, i, group) == MatchFrom(toks[1..], s, e, h)
  {
  }

  /** A literal in front of a pattern matches where the literal stands
      before a match of the pattern. */
  lemma LitThen(x: string, toks: seq<Token>, s: string, i: nat)
    requires i + |x| <= |s| && s[i..i + |x|] == x && MatchFrom(toks, s, i + |x|, "").Some?
    ensures MatchFrom([Lit(x)] + toks, s, i, "").Some?
  {
    LitStep([Lit(x)] + toks, s, i, "");
    assert ([Lit(x)] + toks)[1..] == toks;
  }

  /** One white-space character in front of a pattern matches where a single
      space stands before a match of the pattern. */
  lemma SpaceThen(toks: seq<Token>, s: string, i: nat)
    requires i + 1 < |s| && s[i] == ' ' && !IsSpace(s[i + 1]) && MatchFrom(toks, s, i + 1, "").Some?
    ensures MatchFrom([Spaces(1)] + toks, s, i, "").Some?
  {
    assert SpaceSpan(s, i) == 1;
    SpacesStep([Spaces(1)] + toks, s, i, "");
    assert ([Spaces(1)] + toks)[1..] == toks;
  }

  /** A literal and one white-space character in front of a pattern match
      where the literal and a single space stand before a match of the
      pattern. */
  lemma LitSpaceThen(x: string, toks: seq<Token>, s: string, i: nat)
    requires i + |x| + 1 < |s| && s[i..i + |x|] == x && s[i + |x|] == ' ' && !IsSpace(s[i + |x| + 1])
    requires MatchFrom(toks, s, i + |x| + 1, "").Some?
    ensures MatchFrom([Lit(x), Spaces(1)] + toks, s, i, "").Some?
  {
    SpaceThen(toks, s, i + |x|);
    LitThen(x, [Spaces(1)] + toks, s, i);
    assert [Lit(x)] + ([Spaces(1)] + toks) == [Lit(x), Spaces(1)] + toks;
  }

  /** Matching enough white space moves past all of it. */
  lemma SpacesStep(toks: seq<Token>, s: string, i: nat, group: string)
    requires toks != [] && toks[0].Spaces? && i <= |s| && AllDigits(group)
    requires SpaceSpan(s, i) >= toks[0].atLeast
    ensures MatchFrom(toks, s, i, group) == MatchFrom(toks[1..], s, i + SpaceSpan(s, i), group)
  {
  }

  /** A pattern that starts with a literal only matches where the literal's
      first character stands. */
  lemma LitLead(toks: seq<Token>, s: string, i: nat, group: string)
    requires toks != [] && toks[0].Lit? && |toks[0].text| > 0 && i <= |s| && AllDigits(group)
    requires MatchFrom(toks, s, i, group).Some?
    ensures i < |s| && s[i] == toks[0].text[0]
  {
    var t := toks[0].text;
    assert s[i..i + |t|][0] == s[i];
  }

  /** Nor does it match where some other character, or the end, stands. */
  lemma LitMiss(toks: seq<Token>, s: string, i: nat, group: string)
    requires toks != [] && toks[0].Lit? && |toks[0].text| > 0 && i <= |s| && AllDigits(group)
    requires i == |s| || s[i] != toks[0].text[0]
    ensures MatchFrom(toks, s, i, group).None?
  {
    var t := toks[0].text;
    if i + |t| <= |s| {
      assert s[i..i + |t|][0] == s[i];
    }
  }

  /** Without line feeds a comment runs to the end of the text. */
  lemma NoFeedEnd(s: string)
    requires '\n' !in s
    ensures TextEnd(s) == |s|
  {
    if |s| > 0 {
      assert s[|s| - 1] in s;
    }
  }

  /** A comment starts at the same place in the second part of a text
      without line feeds as in that part alone. */
  lemma CommentAtShift(a: string, b: string, j: nat)
    requires j < |b| && '\n' !in a && '\n' !in b
    ensures CommentAt(a + b, |a| + j) == CommentAt(b, j)
  {
    var s := a + b;
    NoFeedEnd(s);
    NoFeedEnd(b);
    assert s[|a| + j] == b[j];
    assert s[|a| + j + 1..|s|] == b[j + 1..|b|];
  }

  /** Scanning for a comment inside the second part of a text without line
      feeds finds what scanning that part alone finds. */
  lemma {:induction false} CommentShift(a: string, b: string, j: nat)
    requires j <= |b| && '\n' !in a && '\n' !in b
    ensures CommentFrom(a + b, |a| + j) == CommentFrom(b, j)
    decreases |b| - j
  {
    var s := a + b;
    if j < |b| {
      CommentShift(a, b, j + 1);
      assert CommentAt(s, |a| + j) == CommentAt(b, j) by {
        CommentAtShift(a, b, j);
      }
      if CommentAt(b, j) {
        assert s[|a| + j..TextEnd(s)] == b[j..TextEnd(b)] by {
          NoFeedEnd(s);
          NoFeedEnd(b);
          assert s[|a| + j..|s|] == b[j..|b|];
        }
        assert CommentFrom(s, |a| + j) == Some(s[|a| + j..TextEnd(s)]);
        assert CommentFrom(b, j) == Some(b[j..TextEnd(b)]);
      } else {
        assert CommentFrom(s, |a| + j) == CommentFrom(s, |a| + (j + 1));
        assert CommentFrom(b, j) == CommentFrom(b, j + 1);
      }
    } else {
      assert |a| + j == |s|;
      assert CommentFrom(s, |s|) == None && CommentFrom(b, |b|) == None;
    }
  }

  /** A first part without semicolons is passed over. */
  lemma {:induction false} CommentSkip(a: string, b: string, i: nat)
    requires i <= |a| && ';' !in a && '\n' !in a && '\n' !in b
    ensures CommentFrom(a + b, i) == CommentFrom(b, 0)
    decreases |a| - i
  {
    if i < |a| {
      assert !CommentAt(a + b, i) by {
        assert (a + b)[i] == a[i] && a[i] in a;
      }
      assert CommentFrom(a + b, i) == CommentFrom(a + b, i + 1);
      CommentSkip(a, b, i + 1);
    } else {
      CommentShift(a, b, 0);
      assert |a| + 0 == i;
    }
  }

  // ----- The bare tool select -----

  /** Where `T(\d+)\s*;` matches at the start of a line: a `T`, a nonempty
      digit run, which it captures, then any white space and a semicolon. */
  function SimpleAt(s: string): Option<Match>
  {
    if 1 <= |s| && s[0] == 'T' && DigitSpan(s, 1) > 0 then
      var e := 1 + DigitSpan(s, 1);
      SemicolonAt(s, e, s[1..e])
    else None
  }

  /** Where `\s*;` from index `e` ends, carrying the capture `g`. */
  function SemicolonAt(s: string, e: nat, g: string): Option<Match>
    requires e <= |s|
  {
    var f := e + SpaceSpan(s, e);
    if f < |s| && s[f] == ';' then Some(Match(f + 1, g)) else None
  }

  /** `\s*;` from index `e`: any white space, then a semicolon. */
  lemma SemicolonTail(s: string, e: nat, g: string)
    requires e <= |s| && AllDigits(g)
    ensures MatchFrom([Spaces(0), Lit(";")], s, e, g) == SemicolonAt(s, e, g)
  {
    var t: seq<Token> := [Spaces(0), Lit(";")];
    var f := e + SpaceSpan(s, e);
    SpacesStep(t, s, e, g);
    assert t[1..] == [Lit(";")] && t[1..][1..] == [];
    if f < |s| {
      assert s[f..f + 1] == [s[f]];
    }
  }

  /** The matcher agrees with that description of a bare tool select. */
  lemma SimpleMatchHere(s: string)
    ensures MatchAt(SimpleToolPattern, s, 0) == SimpleAt(s)
  {
    if 1 <= |s| && s[0] == 'T' && DigitSpan(s, 1) > 0 {
      SimpleMatchDigits(s);
    } else {
      SimpleMatchNone(s);
    }
  }

  /** A line that opens with `T` and digits: the rest is `\s*;`. */
  lemma SimpleMatchDigits(s: string)
    requires 1 <= |s| && s[0] == 'T' && DigitSpan(s, 1) > 0
    ensures MatchAt(SimpleToolPattern, s, 0) == SimpleAt(s)
  {
    var p := SimpleToolPattern;
    var e := 1 + DigitSpan(s, 1);
    var g := s[1..e];
    assert MatchFrom(p, s, 0, "") == MatchFrom(p[1..], s, 1, "") by {
      assert p[0] == Lit("T") && s[0..1] == "T";
      LitTo(p, s, 0, 1, "");
    }
    assert MatchFrom(p[1..], s, 1, "") == MatchFrom(p[2..], s, e, g) by {
      assert p[1..][0] == Digits(true) && p[1..][1..] == p[2..];
      DigitsTo(p[1..], s, 1, e, "", g);
    }
    assert MatchFrom(p[2..], s, e, g) == SemicolonAt(s, e, g) by {
      assert p[2..] == [Spaces(0), Lit(";")];
      SemicolonTail(s, e, g);
    }
  }

  /** A line that does not open with `T` and digits holds no bare tool
      select at its start. */
  lemma SimpleMatchNone(s: string)
    requires !(1 <= |s| && s[0] == 'T' && DigitSpan(s, 1) > 0)
    ensures MatchAt(SimpleToolPattern, s, 0) == None
  {
    var p := SimpleToolPattern;
    assert p[0] == Lit("T");
    if 1 <= |s| && s[0] == 'T' {
      assert s[0..1] == "T";
      assert MatchAt(p, s, 0) == MatchFrom(p[1..], s, 1, "") by {
        LitStep(p, s, 0, "");
      }
      assert p[1..] == [Digits(true), Spaces(0), Lit(";")];
      assert MatchFrom(p[1..], s, 1, "") == None;
    } else if 1 <= |s| {
      assert s[0..1][0] == s[0];
    }
  }

  /** `T\d+` at the start of a line that opens with `T` and digits covers
      the `T` and the whole digit run. */
  lemma ToolTokenAtStart(s: string)
    requires 1 <= |s| && s[0] == 'T' && DigitSpan(s, 1) > 0
    ensures MatchAt(ToolToken, s, 0) == Some(Match(1 + DigitSpan(s, 1), ""))
  {
    assert s[0..1] == "T";
    LitStep(ToolToken, s, 0, "");
    assert ToolToken[1..] == [Digits(false)] && ToolToken[1..][1..] == [];
  }

  /** Whether `\s*;` matches in the second part of a text does not depend
      on the first part. */
  lemma SemicolonShift(a: string, b: string, e: nat, g: string)
    requires e == |a|
    ensures SemicolonAt(a + b, e, g).Some? == SemicolonAt(b, 0, g).Some?
  {
    SpaceSpanShift(a, b, 0);
    var n := SpaceSpan(b, 0);
    if n < |b| {
      assert (a + b)[|a| + n] == b[n];
    }
  }

  /** A `T` and a digit string before a text that does not start with a digit:
      the digit run after the `T` is that string. */
  lemma ToolDigitsHead(c: string, rest: string)
    requires AllDigits(c) && (rest == [] || !IsDigit(rest[0]))
    ensures DigitSpan("T" + c + rest, 1) == |c|
    ensures ("T" + c + rest)[1..1 + |c|] == c
  {
    var t := "T" + c + rest;
    assert t[1..1 + |c|] == c;
    assert 1 + |c| == |t| || t[1 + |c|] == rest[0];
    DigitSpanIs(t, 1, c);
  }

  /** A `T`, a nonempty digit string, and a text on which `\s*;` matches
      and that does not start with a digit: a bare tool select of those
      digits. */
  lemma SimpleHead(c: string, rest: string)
    requires |c| >= 1 && AllDigits(c) && (rest == [] || !IsDigit(rest[0]))
    requires SemicolonAt(rest, 0, c).Some?
    ensures SimpleAt("T" + c + rest).Some? && SimpleAt("T" + c + rest).value.group == c
  {
    var a := "T" + c;
    var e := 1 + DigitSpan(a + rest, 1);
    ToolDigitsHead(c, rest);
    SemicolonShift(a, rest, e, c);
    assert SimpleAt(a + rest) == SemicolonAt(a + rest, e, c);
  }

  /** What follows the tool number of a bare tool select: a text that does
      not start with a digit and on which `\s*;` matches. */
  lemma SimpleTail(s: string, c: string)
    requires SimpleAt(s).Some?
    ensures var e := 1 + DigitSpan(s, 1);
      e < |s| && !IsDigit(s[e]) && SemicolonAt(s[e..], 0, c).Some?
  {
    var e := 1 + DigitSpan(s, 1);
    assert SemicolonAt(s, e, s[1..e]).Some?;
    SemicolonDrop(s, e, s[1..e], c);
  }

  /** White-space runs do not depend on what stands before them. */
  lemma {:induction false} SpaceSpanDrop(s: string, e: nat, j: nat)
    requires e + j <= |s|
    ensures SpaceSpan(s, e + j) == SpaceSpan(s[e..], j)
    decreases |s| - e - j
  {
    if e + j < |s| {
      assert s[e..][j] == s[e + j];
      SpaceSpanDrop(s, e, j + 1);
    }
  }

  /** Nor does `\s*;`. */
  lemma SemicolonDrop(s: string, e: nat, g: string, h: string)
    requires e <= |s|
    ensures SemicolonAt(s, e, g).Some? == SemicolonAt(s[e..], 0, h).Some?
  {
    SpaceSpanDrop(s, e, 0);
    var f := SpaceSpan(s[e..], 0);
    if f < |s[e..]| {
      assert s[e..][f] == s[e + f];
    }
  }

  /** Writing other digits in place of the tool number of a bare tool select
      leaves a bare tool select that captures the new digits. */
  lemma SimpleRetarget(s: string, c: string)
    requires SimpleAt(s).Some? && |c| >= 1 && AllDigits(c)
    ensures var e := 1 + DigitSpan(s, 1);
      e < |s| && SimpleAt("T" + c + s[e..]).Some? && SimpleAt("T" + c + s[e..]).value.group == c
  {
    var e := 1 + DigitSpan(s, 1);
    SimpleTail(s, c);
    assert s[e..][0] == s[e];
    SimpleHead(c, s[e..]);
  }

  // ----- Written parameters ` {letter}{v}` -----

  /** Where a written parameter ` {letter}{v}` stands in a text. */
  predicate ParamAtIndex(t: string, i: nat, letter: char, v: string)
  {
    i + 2 + |v| <= |t| && t[i] == ' ' && t[i + 1] == letter && t[i + 2..i + 2 + |v|] == v
  }

  /** A written parameter ` {letter}{v}` that ends at index `e` and is followed
      by a non-digit, read by `\s+`, the letter and `\d+`. */
  lemma ParamStep(toks: seq<Token>, t: string, i: nat, e: nat, letter: char, v: string, g: string)
    requires |toks| >= 3 && toks[0] == Spaces(1) && toks[1] == Lit([letter]) && toks[2] == Digits(false)
    requires !IsSpace(letter) && |v| >= 1 && AllDigits(v) && AllDigits(g)
    requires ParamAtIndex(t, i, letter, v) && e == i + 2 + |v| && (e == |t| || !IsDigit(t[e]))
    ensures MatchFrom(toks, t, i, g) == MatchFrom(toks[3..], t, e, g)
  {
    var i1 := i + 1;
    var j := i1 + 1;
    assert MatchFrom(toks, t, i, g) == MatchFrom(toks[1..], t, i1, g) by {
      assert SpaceSpan(t, i1) == 0;
      assert SpaceSpan(t, i) == 1;
      SpacesTo(toks, t, i, i1, g);
    }
    assert MatchFrom(toks[1..], t, i1, g) == MatchFrom(toks[2..], t, j, g) by {
      assert t[i1..j] == [letter];
      LitTo(toks[1..], t, i1, j, g);
      assert toks[1..][1..] == toks[2..];
    }
    assert MatchFrom(toks[2..], t, j, g) == MatchFrom(toks[3..], t, e, g) by {
      assert DigitSpan(t, j) == |v| by {
        assert t[j..e] == v;
        DigitSpanIs(t, j, v);
      }
      DigitsTo(toks[2..], t, j, e, g, g);
      assert toks[2..][1..] == toks[3..];
    }
  }

  /** A written parameter ` {letter}{v}` that ends at index `e`, read by `\s+`
      and the literal `{letter}{v}`. */
  lemma ParamLitStep(toks: seq<Token>, t: string, i: nat, e: nat, letter: char, v: string, g: string)
    requires |toks| >= 2 && toks[0] == Spaces(1) && toks[1] == Lit([letter] + v)
    requires !IsSpace(letter) && AllDigits(g) && ParamAtIndex(t, i, letter, v) && e == i + 2 + |v|
    ensures MatchFrom(toks, t, i, g) == MatchFrom(toks[2..], t, e, g)
  {
    var i1 := i + 1;
    assert MatchFrom(toks, t, i, g) == MatchFrom(toks[1..], t, i1, g) by {
      assert SpaceSpan(t, i1) == 0;
      assert SpaceSpan(t, i) == 1;
      SpacesTo(toks, t, i, i1, g);
    }
    assert MatchFrom(toks[1..], t, i1, g) == MatchFrom(toks[2..], t, e, g) by {
      assert t[i1..e] == [letter] + v;
      LitTo(toks[1..], t, i1, e, g);
      assert toks[1..][1..] == toks[2..];
    }
  }

  // ----- The parametrised tool command -----

  /** The parameter part `\s+S{a}\s+L{b}\s+D{c}` of the pickup and park
      patterns reads
      written parameters ` S{a}`, ` L{b}` and ` D{c}` that stand from `i0`,
      `i1` and `i2` on, up to `i3`. */
  lemma FixedParamsRead(q: seq<Token>, t: string, i0: nat, i1: nat, i2: nat, i3: nat, a: string, b: string, c: string, g: string)
    requires |q| == 6 && q[0] == Spaces(1) && q[1] == Lit(['S'] + a) && q[2] == Spaces(1) && q[3] == Lit(['L'] + b)
    requires q[4] == Spaces(1) && q[5] == Lit(['D'] + c) && AllDigits(g)
    requires ParamAtIndex(t, i0, 'S', a) && i1 == i0 + 2 + |a|
    requires ParamAtIndex(t, i1, 'L', b) && i2 == i1 + 2 + |b|
    requires ParamAtIndex(t, i2, 'D', c) && i3 == i2 + 2 + |c|
    ensures MatchFrom(q, t, i0, g) == Some(Match(i3, g))
  {
    assert MatchFrom(q, t, i0, g) == MatchFrom(q[2..], t, i1, g) by {
      ParamLitStep(q, t, i0, i1, 'S', a, g);
    }
    assert MatchFrom(q[2..], t, i1, g) == MatchFrom(q[4..], t, i2, g) by {
      assert q[2..][2..] == q[4..];
      ParamLitStep(q[2..], t, i1, i2, 'L', b, g);
    }
    assert MatchFrom(q[4..], t, i2, g) == MatchFrom([], t, i3, g) by {
      assert q[4..][2..] == [];
      ParamLitStep(q[4..], t, i2, i3, 'D', c, g);
    }
  }

  /** The tokens after the first of a pattern without a captured digit run
      have none either. */
  lemma NoCaptureInTail(toks: seq<Token>)
    requires toks != [] && Digits(true) !in toks
    ensures Digits(true) !in toks[1..]
  {
    assert toks == [toks[0]] + toks[1..];
  }

  /** A pattern without a captured digit run keeps the group it is given. */
  lemma {:induction false} GroupKept(toks: seq<Token>, s: string, i: nat, g: string)
    requires i <= |s| && AllDigits(g) && Digits(true) !in toks
    ensures MatchFrom(toks, s, i, g).Some? ==> MatchFrom(toks, s, i, g).value.group == g
    decreases |toks|
  {
    if toks != [] {
      NoCaptureInTail(toks);
      match toks[0]
      case Lit(t) =>
        if i + |t| <= |s| && s[i..i + |t|] == t {
          GroupKept(toks[1..], s, i + |t|, g);
        }
      case Digits(captured) =>
        if DigitSpan(s, i) > 0 {
          GroupKept(toks[1..], s, i + DigitSpan(s, i), g);
        }
      case Spaces(atLeast) =>
        GroupKept(toks[1..], s, i + SpaceSpan(s, i), g);
      case WordBoundary =>
        GroupKept(toks[1..], s, i, g);
    }
  }
}

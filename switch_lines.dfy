/** Temperature switches as a slicer writes them,
    `M104.1 T{n} P{p} Q{q} S{s} ;comment`, and the park command: which
    recognisers fire on them and what the rewriter makes of them. */
module SwitchLines {
  import opened Wrappers
  import opened Text
  import opened Patterns
  import opened CommandRewriter
  import opened RewriterProperties

  /** `M104.1 T{n} P{p} Q{q} S{s} {c}`. */
  function SwitchLine(n: string, p: string, q: string, s: string, c: string): string
  {
    "M104.1 T" + (n + Param('P', p, Param('Q', q, Param('S', s, " " + c))))
  }

  /** Digits for the tool and the parameters, and a comment that starts with a
      semicolon and holds neither a line feed nor an upper-case `T`. */
  predicate Standard(n: string, p: string, q: string, s: string, c: string)
  {
    |n| >= 1 && AllDigits(n) && |p| >= 1 && AllDigits(p)
    && |q| >= 1 && AllDigits(q) && |s| >= 1 && AllDigits(s)
    && c != [] && c[0] == ';' && '\n' !in c && 'T' !in c
  }

  /** The only upper-case `T` of a standard switch is the one of its head. */
  lemma OnlyHeadT(n: string, p: string, q: string, s: string, c: string)
    requires Standard(n, p, q, s, c)
    ensures var line := SwitchLine(n, p, q, s, c);
      forall j :: 0 <= j < |line| && line[j] == 'T' ==> j == 7
  {
    var line := SwitchLine(n, p, q, s, c);
    var rest := n + Param('P', p, Param('Q', q, Param('S', s, " " + c)));
    LetterNotInDigits('T', n);
    LetterNotInDigits('T', p);
    LetterNotInDigits('T', q);
    LetterNotInDigits('T', s);
    assert 'T' !in rest;
    forall j | 8 <= j < |line|
      ensures line[j] != 'T'
    {
      assert line[j] == rest[j - 8] && rest[j - 8] in rest;
    }
  }

  /** A pattern that reads `T`, a captured number, white space and a literal
      starting with `S` does not match where the tool number at `t` is followed
      by one space and a `P`. */
  lemma NumberThenP(toks: seq<Token>, line: string, t: nat, n: string)
    requires |toks| >= 4 && toks[0] == Lit("T") && toks[1] == Digits(true) && toks[2] == Spaces(1)
    requires toks[3].Lit? && |toks[3].text| > 0 && toks[3].text[0] == 'S'
    requires |n| >= 1 && AllDigits(n) && t + |n| + 2 < |line|
    requires line[t] == 'T' && line[t + 1..t + 1 + |n|] == n
    requires line[t + 1 + |n|] == ' ' && line[t + 2 + |n|] == 'P'
    ensures MatchFrom(toks, line, t, "").None?
  {
    assert line[t..t + 1] == "T";
    LitStep(toks, line, t, "");
    DigitsThenP(toks[1..], line, t + 1, n);
  }

  /** The same from the tool number on. */
  lemma DigitsThenP(toks: seq<Token>, line: string, i: nat, n: string)
    requires |toks| >= 3 && toks[0] == Digits(true) && toks[1] == Spaces(1)
    requires toks[2].Lit? && |toks[2].text| > 0 && toks[2].text[0] == 'S'
    requires |n| >= 1 && AllDigits(n) && i + |n| + 1 < |line|
    requires line[i..i + |n|] == n && line[i + |n|] == ' ' && line[i + 1 + |n|] == 'P'
    ensures MatchFrom(toks, line, i, "").None?
  {
    DigitSpanIs(line, i, n);
    DigitsStep(toks, line, i, "");
    SpaceThenP(toks[1..], line, i + |n|, n);
  }

  /** The same after the tool number: one space, then `P` where an `S` is
      needed. */
  lemma SpaceThenP(toks: seq<Token>, line: string, h: nat, n: string)
    requires |toks| >= 2 && toks[0] == Spaces(1)
    requires toks[1].Lit? && |toks[1].text| > 0 && toks[1].text[0] == 'S'
    requires AllDigits(n) && h + 1 < |line| && line[h] == ' ' && line[h + 1] == 'P'
    ensures MatchFrom(toks, line, h, n).None?
  {
    assert SpaceSpan(line, h + 1) == 0;
    assert SpaceSpan(line, h) == 1;
    SpacesStep(toks, line, h, n);
    if MatchFrom(toks[1..], line, h + 1, n).Some? {
      LitLead(toks[1..], line, h + 1, n);
    }
  }

  /** The head of a switch: `T` at index 7, the tool number, one space and
      the `P` of the first parameter. */
  lemma SwitchHead(n: string, p: string, q: string, s: string, c: string)
    ensures var line := SwitchLine(n, p, q, s, c);
      |line| > |n| + 9 && line[7] == 'T' && line[8..8 + |n|] == n
      && line[8 + |n|] == ' ' && line[9 + |n|] == 'P'
  {
    var rest := Param('P', p, Param('Q', q, Param('S', s, " " + c)));
    var line := SwitchLine(n, p, q, s, c);
    assert line == "M104.1 T" + (n + rest);
    assert rest[0] == ' ' && rest[1] == 'P';
    assert line[8 + |n|] == rest[0] && line[9 + |n|] == rest[1];
  }

  /** At the head's `T` neither the pickup nor the parametrised tool command
      matches: the tool number is followed by `P`, not by `S`. */
  lemma HeadIsNoToolCommand(n: string, p: string, q: string, s: string, c: string)
    requires Standard(n, p, q, s, c)
    ensures MatchAt(PickupPattern, SwitchLine(n, p, q, s, c), 7).None?
    ensures MatchAt(ToolPattern, SwitchLine(n, p, q, s, c), 7).None?
  {
    var line := SwitchLine(n, p, q, s, c);
    SwitchHead(n, p, q, s, c);
    var tp := ToolPattern;
    NumberThenP(PickupPattern, line, 7, n);
    NumberThenP(tp[1..], line, 7, n);
    if AtWordBoundary(line, 7) {
      assert MatchFrom(tp, line, 7, "") == MatchFrom(tp[1..], line, 7, "");
    }
  }

  /** The parametrised tool command only matches at an upper-case `T`. */
  lemma ToolPatternLead(line: string, j: nat)
    requires j <= |line| && MatchAt(ToolPattern, line, j).Some?
    ensures j < |line| && line[j] == 'T'
  {
    var tp := ToolPattern;
    assert MatchFrom(tp[1..], line, j, "").Some?;
    LitLead(tp[1..], line, j, "");
  }

  /** A line whose only upper-case `T` stands at `t` holds a pickup command
      only if it holds one at `t`. */
  lemma PickupOnlyAt(line: string, t: nat)
    requires t <= |line| && forall j :: 0 <= j < |line| && line[j] == 'T' ==> j == t
    requires MatchAt(PickupPattern, line, t).None?
    ensures Search(PickupPattern, line).None?
  {
    forall j | 0 <= j <= |line|
      ensures MatchAt(PickupPattern, line, j).None?
    {
      if MatchAt(PickupPattern, line, j).Some? {
        LitLead(PickupPattern, line, j, "");
      }
    }
  }

  /** The same for the parametrised tool command. */
  lemma ToolOnlyAt(line: string, t: nat)
    requires t <= |line| && forall j :: 0 <= j < |line| && line[j] == 'T' ==> j == t
    requires MatchAt(ToolPattern, line, t).None?
    ensures Search(ToolPattern, line).None?
  {
    forall j | 0 <= j <= |line|
      ensures MatchAt(ToolPattern, line, j).None?
    {
      if MatchAt(ToolPattern, line, j).Some? {
        ToolPatternLead(line, j);
      }
    }
  }

  /** Neither the pickup nor the parametrised tool command occurs anywhere in
      a standard switch. */
  lemma NoToolCommand(n: string, p: string, q: string, s: string, c: string)
    requires Standard(n, p, q, s, c)
    ensures Search(PickupPattern, SwitchLine(n, p, q, s, c)).None?
    ensures Search(ToolPattern, SwitchLine(n, p, q, s, c)).None?
  {
    var line := SwitchLine(n, p, q, s, c);
    OnlyHeadT(n, p, q, s, c);
    HeadIsNoToolCommand(n, p, q, s, c);
    PickupOnlyAt(line, 7);
    ToolOnlyAt(line, 7);
  }

  /** On a standard switch only the temperature-switch recogniser fires: the
      tool is `n`, and the comment is `c`. */
  lemma SwitchRecognised(n: string, p: string, q: string, s: string, c: string)
    requires Standard(n, p, q, s, c)
    ensures var line := SwitchLine(n, p, q, s, c);
      ToolNumber(M104Pattern, line) == Some(DigitsValue(n))
      && ToolNumber(PickupPattern, line).None?
      && ToolNumber(ToolPattern, line).None?
      && SimpleToolNumber(line).None?
      && Comment(line) == Some(c)
  {
    var line := SwitchLine(n, p, q, s, c);
    assert Find(M104Pattern, line) == Some(n) by {
      SwitchParams(n, p, q, s, " " + c);
    }
    assert Search(PickupPattern, line).None? && Search(ToolPattern, line).None? by {
      NoToolCommand(n, p, q, s, c);
    }
    assert MatchAt(SimpleToolPattern, line, 0).None? by {
      if MatchAt(SimpleToolPattern, line, 0).Some? {
        LitLead(SimpleToolPattern, line, 0, "");
      }
    }
    SwitchComment(n, p, q, s, c);
  }

  /** A written parameter holds no semicolon and no line feed, so the comment
      search passes over it. */
  lemma CommentPastParam(letter: char, v: string, rest: string)
    requires AllDigits(v) && letter != ';' && letter != '\n' && '\n' !in rest
    ensures '\n' !in Param(letter, v, rest)
    ensures Comment(Param(letter, v, rest)) == Comment(rest)
  {
    LetterNotInDigits(';', v);
    LetterNotInDigits('\n', v);
    CommentSkip(v, rest, 0);
    CommentSkip([letter], v + rest, 0);
    CommentSkip(" ", [letter] + (v + rest), 0);
  }

  /** Nor does the search stop in the head of a switch. */
  lemma CommentPastHead(n: string, rest: string)
    requires AllDigits(n) && '\n' !in rest
    ensures Comment("M104.1 T" + (n + rest)) == Comment(rest)
  {
    assert '\n' !in n && Comment(n + rest) == Comment(rest) by {
      LetterNotInDigits(';', n);
      LetterNotInDigits('\n', n);
      CommentSkip(n, rest, 0);
    }
    var head := "M104.1 T";
    assert ';' !in head && '\n' !in head;
    CommentSkip(head, n + rest, 0);
  }

  /** A comment after a space is found whole. */
  lemma CommentAfterSpace(c: string)
    requires c != [] && c[0] == ';' && '\n' !in c
    ensures '\n' !in " " + c
    ensures Comment(" " + c) == Some(c)
  {
    CommentWhole(c);
    CommentSkip(" ", c, 0);
  }

  /** A line that starts with a semicolon and has no line feed is all comment. */
  lemma CommentWhole(c: string)
    requires c != [] && c[0] == ';' && '\n' !in c
    ensures Comment(c) == Some(c)
  {
    NoFeedEnd(c);
    assert CommentAt(c, 0);
    assert CommentFrom(c, 0) == Some(c[0..|c|]) && c[0..|c|] == c;
  }

  /** The comment of a standard switch is its own comment. */
  lemma SwitchComment(n: string, p: string, q: string, s: string, c: string)
    requires Standard(n, p, q, s, c)
    ensures Comment(SwitchLine(n, p, q, s, c)) == Some(c)
  {
    CommentAfterSpace(c);
    var rs := Param('S', s, " " + c);
    var rq := Param('Q', q, rs);
    var rp := Param('P', p, rq);
    CommentPastParam('S', s, " " + c);
    CommentPastParam('Q', q, rs);
    CommentPastParam('P', p, rq);
    CommentPastHead(n, rp);
  }

  /** A standard switch for another tool than the scheduled one, met while the
      scheduled tool is not mounted, is rewritten to name the scheduled tool;
      the parameters and the comment stay exactly as written, and the
      scheduled tool is now mounted. */
  lemma SwitchRetargeted(names: seq<string>, n: string, p: string, q: string, s: string, c: string,
                         cur: nat, active: Option<nat>)
    requires Standard(n, p, q, s, c) && DigitsValue(n) != cur && active != Some(cur)
    ensures LineStep(names, SwitchLine(n, p, q, s, c), cur, active)
      == Go(SwitchLine(NatToString(cur), p, q, s, c), Some(cur))
  {
    var line := SwitchLine(n, p, q, s, c);
    SwitchRecognised(n, p, q, s, c);
    SwitchParams(n, p, q, s, " " + c);
    assert M104P(line) == p && M104Q(line, cur) == q && M104S(line) == s;
    M104Rebuilt(names, line, cur, active, DigitsValue(n));
  }

  /** The same switch met while the scheduled tool is already mounted is
      commented out. */
  lemma SwitchSkipped(names: seq<string>, n: string, p: string, q: string, s: string, c: string, cur: nat)
    requires Standard(n, p, q, s, c) && DigitsValue(n) != cur && cur < |names|
    requires !Matches(ParkPattern, SwitchLine(n, p, q, s, c))
    ensures var line := SwitchLine(n, p, q, s, c);
      LineStep(names, line, cur, Some(cur)) == Stop(SkipNote(line, "", cur, names[cur]), Some(cur))
  {
    SwitchRecognised(n, p, q, s, c);
    M104Skipped(names, SwitchLine(n, p, q, s, c), cur, DigitsValue(n));
  }

  /** `M104.1 T2 P120 Q123 S210 ; switch to tool 2`, scheduled for tool 4 while
      tool 2 is mounted, becomes `M104.1 T4 P120 Q123 S210 ; switch to tool 2`:
      the tool number is the only thing rewritten. The existing `Q123` is kept,
      and so is the comment, which still names tool 2. */
  lemma SwitchExample(names: seq<string>, c: string)
    requires c == "; switch to tool 2"
    ensures LineStep(names, SwitchLine("2", "120", "123", "210", c), 4, Some(2))
      == Go(SwitchLine("4", "120", "123", "210", c), Some(4))
  {
    ExampleIsStandard(c);
    SwitchRetargeted(names, "2", "120", "123", "210", c, 4, Some(2));
  }

  /** The parts of that example make a standard switch from tool 2. */
  lemma ExampleIsStandard(c: string)
    requires c == "; switch to tool 2"
    ensures Standard("2", "120", "123", "210", c) && DigitsValue("2") == 2 && NatToString(4) == "4"
  {
    assert 'T' !in c && '\n' !in c;
  }

  // ----- The park command -----

  /** A line that reads `P0`, `S1`, `L2` and `D0` separated by single spaces
      starts with a park command. */
  lemma ParkShapeMatches(line: string)
    requires |line| >= 11 && line[0..2] == "P0" && line[3..5] == "S1" && line[6..8] == "L2" && line[9..11] == "D0"
    requires line[2] == ' ' && line[5] == ' ' && line[8] == ' '
    ensures MatchAt(ParkPattern, line, 0).Some?
  {
    var pp := ParkPattern;
    assert ParamAtIndex(line, 2, 'S', "1") && ParamAtIndex(line, 5, 'L', "2") && ParamAtIndex(line, 8, 'D', "0") by {
      PairAt(line, 3, 'S', '1');
      PairAt(line, 6, 'L', '2');
      PairAt(line, 9, 'D', '0');
    }
    assert pp[2] == Lit(['S'] + "1") && pp[4] == Lit(['L'] + "2") && pp[6] == Lit(['D'] + "0");
    ParkShapeRead(pp, line, "1", "2", "0");
  }

  /** A pattern shaped as `P0\s+S{a}\s+L{b}\s+D{c}` with one-digit values
      reads `P0` and the written parameters ` S{a}`, ` L{b}` and ` D{c}`. */
  lemma ParkShapeRead(pp: seq<Token>, line: string, a: string, b: string, c: string)
    requires |pp| == 7 && pp[0] == Lit("P0") && pp[1] == Spaces(1) && pp[2] == Lit(['S'] + a)
    requires pp[3] == Spaces(1) && pp[4] == Lit(['L'] + b) && pp[5] == Spaces(1) && pp[6] == Lit(['D'] + c)
    requires |a| == 1 && |b| == 1 && |c| == 1 && 2 <= |line| && line[0..2] == "P0"
    requires ParamAtIndex(line, 2, 'S', a) && ParamAtIndex(line, 5, 'L', b) && ParamAtIndex(line, 8, 'D', c)
    ensures MatchFrom(pp, line, 0, "") == Some(Match(11, ""))
  {
    LitTo(pp, line, 0, 2, "");
    FixedParamsRead(pp[1..], line, 2, 5, 8, 11, a, b, c, "");
  }

  /** Two characters written at index `i`. */
  lemma PairAt(t: string, i: nat, x: char, y: char)
    requires i + 2 <= |t| && t[i..i + 2] == [x, y]
    ensures t[i] == x && t[i + 1..i + 2] == [y]
  {
    assert t[i] == t[i..i + 2][0];
  }

  /** `P0 S1 L2 D0` is a park command. */
  lemma ParkLineMatches(line: string)
    requires line == "P0 S1 L2 D0"
    ensures Matches(ParkPattern, line)
  {
    assert line[0..2] == "P0" && line[3..5] == "S1" && line[6..8] == "L2" && line[9..11] == "D0";
    ParkShapeMatches(line);
    assert SearchFrom(ParkPattern, line, 0) == Some(0);
  }

  /** A park met while the scheduled tool is mounted becomes a skip comment
      and the mounted tool stays. */
  lemma ParkExample(names: seq<string>, line: string, cur: nat)
    requires line == "P0 S1 L2 D0" && cur < |names|
    ensures LineStep(names, line, cur, Some(cur)) == Stop(SkipNote(line, "parking ", cur, names[cur]), Some(cur))
  {
    ParkLineMatches(line);
    ParkSkipped(names, line, cur);
  }
}

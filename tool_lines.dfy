/** Tool commands as a slicer writes them, `T{n};` and `T{n} S{s} L{l} D{d}`:
    which recognisers fire on them, what the rewriter writes in their place,
    and that the written line is read back as a command for the scheduled
    tool. */
module ToolLines {
  import opened Wrappers
  import opened Text
  import opened Patterns
  import opened CommandRewriter
  import opened RewriterProperties
  import opened SwitchLines

  // ----- The bare tool select -----

  /** A bare tool select of another tool: the tool number at the start of the
      line is replaced by the scheduled one, everything after it is kept, and
      the new line is a bare tool select of the scheduled tool. */
  lemma SimpleRewrites(line: string, cur: nat, out: string, active: Option<nat>)
    requires SimpleToolNumber(line).Some? && SimpleToolNumber(line).value != cur
    ensures var e := 1 + DigitSpan(line, 1);
      var r := SimpleStage(line, cur, out, active);
      e < |line| && line == "T" + line[1..e] + line[e..]
      && r == Go("T" + NatToString(cur) + line[e..], Some(cur))
      && SimpleToolNumber(r.out) == Some(cur)
  {
    SimpleSplit(line);
    SimpleStageResult(line, cur, out, active);
    SimpleReread(line, cur);
  }

  /** A bare tool select is `T`, its digits and a nonempty rest. */
  lemma SimpleSplit(line: string)
    requires SimpleToolNumber(line).Some?
    ensures var e := 1 + DigitSpan(line, 1);
      e < |line| && line == "T" + line[1..e] + line[e..]
  {
    var e := 1 + DigitSpan(line, 1);
    assert SemicolonAt(line, e, line[1..e]).Some?;
    HeadSplit(line, e);
  }

  /** A text that opens with `T` is `T`, the part up to `e` and the rest. */
  lemma HeadSplit(line: string, e: nat)
    requires 1 <= e <= |line| && line[0] == 'T'
    ensures line == "T" + line[1..e] + line[e..]
  {
    assert line[..1] == "T";
    assert line == line[..1] + line[1..e] + line[e..];
  }

  /** On a bare tool select of another tool the stage puts the scheduled
      tool's number in place of the digits after `T`. */
  lemma SimpleStageResult(line: string, cur: nat, out: string, active: Option<nat>)
    requires SimpleToolNumber(line).Some? && SimpleToolNumber(line).value != cur
    ensures var e := 1 + DigitSpan(line, 1);
      e <= |line| && SimpleStage(line, cur, out, active) == Go("T" + NatToString(cur) + line[e..], Some(cur))
  {
    SimpleMatchHere(line);
    ToolTokenAtStart(line);
  }

  /** The scheduled tool's number followed by the rest of a bare tool select
      is a bare tool select of the scheduled tool. */
  lemma SimpleReread(line: string, cur: nat)
    requires SimpleToolNumber(line).Some?
    ensures var e := 1 + DigitSpan(line, 1);
      e < |line| && SimpleToolNumber("T" + NatToString(cur) + line[e..]) == Some(cur)
  {
    var e := 1 + DigitSpan(line, 1);
    var t := "T" + NatToString(cur) + line[e..];
    SimpleMatchHere(line);
    SimpleRetarget(line, NatToString(cur));
    SimpleMatchHere(t);
  }

  lemma SimpleRetargeted(names: seq<string>, line: string, cur: nat, active: Option<nat>)
    requires SimpleToolNumber(line).Some? && SimpleToolNumber(line).value != cur
    requires !(Matches(ParkPattern, line) && active == Some(cur))
    requires !(ToolNumber(PickupPattern, line) == Some(cur) && active == Some(cur))
    requires NoneOr(ToolNumber(M104Pattern, line), cur)
    ensures var e := 1 + DigitSpan(line, 1);
      e < |line| && LineStep(names, line, cur, active) == Go("T" + NatToString(cur) + line[e..], Some(cur))
  {
    var s1 := ParkStage(names, line, cur, active);
    assert s1 == Go(line, active);
    var s2 := PickupStage(names, line, cur, line, active);
    assert s2.Go? by {
      match ToolNumber(PickupPattern, line)
      case None =>
      case Some(n) =>
        assert n != cur || active != Some(cur);
    }
    var s3 := M104Stage(names, line, cur, s2.out, s2.active);
    assert s3 == s2;
    var s4 := ToolStage(line, cur, s2.out, s2.active);
    assert LineStep(names, line, cur, active) == SimpleStage(line, cur, s4.out, s4.active);
    SimpleRewrites(line, cur, s4.out, s4.active);
  }

  // ----- Steps of the matcher over a written command -----

  /** `T` and a tool number at the start of a text, read by `T(\d+)`; the
      number ends at index `e`. */
  lemma HeadStep(toks: seq<Token>, n: string, rest: string, e: nat)
    requires |toks| >= 2 && toks[0] == Lit("T") && toks[1] == Digits(true)
    requires |n| >= 1 && AllDigits(n) && (rest == [] || !IsDigit(rest[0])) && e == 1 + |n|
    ensures var t := "T" + n + rest;
      MatchFrom(toks, t, 0, "") == MatchFrom(toks[2..], t, e, n)
  {
    var t := "T" + n + rest;
    assert MatchFrom(toks, t, 0, "") == MatchFrom(toks[1..], t, 1, "") by {
      assert t[0..1] == "T";
      LitTo(toks, t, 0, 1, "");
    }
    assert MatchFrom(toks[1..], t, 1, "") == MatchFrom(toks[2..], t, e, n) by {
      assert t[1..e] == n;
      assert e == |t| || t[e] == rest[0];
      DigitSpanIs(t, 1, n);
      DigitsTo(toks[1..], t, 1, e, "", n);
      assert toks[1..][1..] == toks[2..];
    }
  }

  /** `T{n} S{s} L{l} D{d}` followed by `rest`. */
  function ToolLine(n: string, s: string, l: string, d: string, rest: string): string
  {
    "T" + n + Param('S', s, Param('L', l, Param('D', d, rest)))
  }

  /** Digits for the tool and the parameters, and a rest that does not start
      with a digit and holds no upper-case `T`, `P` or `M`. */
  predicate Plain(n: string, s: string, l: string, d: string, rest: string)
  {
    Number(n) && Number(s) && Number(l) && Number(d) && PlainRest(rest)
  }

  /** A nonempty digit string. */
  predicate Number(v: string)
  {
    |v| >= 1 && AllDigits(v)
  }

  /** A tail that does not start with a digit and holds no upper-case `T`,
      `P` or `M`. */
  predicate PlainRest(rest: string)
  {
    (rest == [] || !IsDigit(rest[0])) && 'T' !in rest && 'P' !in rest && 'M' !in rest
  }

  /** A parameter line's tail does not start with a digit. */
  lemma ParamLead(letter: char, v: string, r: string)
    ensures Param(letter, v, r) != [] && !IsDigit(Param(letter, v, r)[0])
  {
  }

  /** A digit run that reaches index `k` of a text ends there. */
  predicate NumberEnds(t: string, k: nat)
  {
    k <= |t| && (k == |t| || !IsDigit(t[k]))
  }

  /** A written parameter stands at the start of its own text, and the text
      after it does not start with a digit. */
  lemma ParamInner(letter: char, v: string, r: string)
    requires r == [] || !IsDigit(r[0])
    ensures ParamAtIndex(Param(letter, v, r), 0, letter, v) && NumberEnds(Param(letter, v, r), 2 + |v|)
  {
    var t := Param(letter, v, r);
    assert t[2..2 + |v|] == v;
    assert 2 + |v| == |t| || t[2 + |v|] == r[0];
  }

  /** What stands at index `k` after a written parameter stands
      `2 + |v|` further on with the parameter in front. */
  lemma ParamOuter(letter: char, v: string, r: string, k: nat, e: nat, l: char, w: string)
    requires ParamAtIndex(r, k, l, w) && e == 2 + |v| + k
    ensures ParamAtIndex(Param(letter, v, r), e, l, w)
  {
    var t := Param(letter, v, r);
    assert t[e + 2..e + 2 + |w|] == r[k + 2..k + 2 + |w|];
  }

  /** The end of a digit run after a written parameter. */
  lemma ParamOuterEnd(letter: char, v: string, r: string, k: nat, e: nat)
    requires NumberEnds(r, k) && e == 2 + |v| + k
    ensures NumberEnds(Param(letter, v, r), e)
  {
    var t := Param(letter, v, r);
    assert e == |t| || t[e] == r[k];
  }

  /** What stands at index `k` of a text stands `1 + |n|` further on with
      `T{n}` in front. */
  lemma HeadOuter(n: string, p: string, k: nat, e: nat, l: char, w: string)
    requires ParamAtIndex(p, k, l, w) && e == 1 + |n| + k
    ensures ParamAtIndex("T" + n + p, e, l, w)
  {
    var t := "T" + n + p;
    assert t[e + 2..e + 2 + |w|] == p[k + 2..k + 2 + |w|];
  }

  /** The end of a digit run of a text with `T{n}` in front. */
  lemma HeadOuterEnd(n: string, p: string, k: nat, e: nat)
    requires NumberEnds(p, k) && e == 1 + |n| + k
    ensures NumberEnds("T" + n + p, e)
  {
    var t := "T" + n + p;
    assert e == |t| || t[e] == p[k];
  }

  /** Where the parameters of a written tool command stand: ` S{s}` from
      index `1 + |n|`, then ` L{l}`, then ` D{d}`, and no digit after them. */
  lemma ToolLineLayout(n: string, s: string, l: string, d: string, rest: string)
    requires rest == [] || !IsDigit(rest[0])
    ensures var line := ToolLine(n, s, l, d, rest);
      var i0 := 1 + |n|; var i1 := i0 + 2 + |s|; var i2 := i1 + 2 + |l|; var i3 := i2 + 2 + |d|;
      ParamAtIndex(line, i0, 'S', s) && ParamAtIndex(line, i1, 'L', l) && ParamAtIndex(line, i2, 'D', d)
      && NumberEnds(line, i3)
  {
    var pd := Param('D', d, rest);
    var pl := Param('L', l, pd);
    var ps := Param('S', s, pl);
    var i0 := 1 + |n|;
    var i1 := i0 + 2 + |s|;
    var i2 := i1 + 2 + |l|;
    var i3 := i2 + 2 + |d|;
    var kl := 2 + |s|;
    var kd := 2 + |l|;
    var kd' := kl + kd;
    ParamLead('L', l, pd);
    ParamLead('D', d, rest);
    assert ParamAtIndex(ps, 0, 'S', s) && NumberEnds(pd, 2 + |d|) && ParamAtIndex(pl, 0, 'L', l) && ParamAtIndex(pd, 0, 'D', d) by {
      ParamInner('S', s, pl);
      ParamInner('L', l, pd);
      ParamInner('D', d, rest);
    }
    assert ParamAtIndex("T" + n + ps, i0, 'S', s) by {
      HeadOuter(n, ps, 0, i0, 'S', s);
    }
    assert ParamAtIndex("T" + n + ps, i1, 'L', l) by {
      ParamOuter('S', s, pl, 0, kl, 'L', l);
      HeadOuter(n, ps, kl, i1, 'L', l);
    }
    assert ParamAtIndex("T" + n + ps, i2, 'D', d) by {
      ParamOuter('L', l, pd, 0, kd, 'D', d);
      ParamOuter('S', s, pl, kd, kd', 'D', d);
      HeadOuter(n, ps, kd', i2, 'D', d);
    }
    assert NumberEnds("T" + n + ps, i3) by {
      ParamOuterEnd('L', l, pd, 2 + |d|, kd + 2 + |d|);
      ParamOuterEnd('S', s, pl, kd + 2 + |d|, kd' + 2 + |d|);
      HeadOuterEnd(n, ps, kd' + 2 + |d|, i3);
    }
  }

  /** The parameter part `\s+S\d+\s+L\d+\s+D\d+` of the tool pattern reads
      written parameters ` S{s}`, ` L{l}` and ` D{d}` that stand from `i0`,
      `i1` and `i2` on, up to `i3`. */
  lemma ToolParamsRead(q: seq<Token>, t: string, i0: nat, i1: nat, i2: nat, i3: nat, s: string, l: string, d: string, g: string)
    requires |q| == 9 && q[0] == Spaces(1) && q[1] == Lit("S") && q[2] == Digits(false)
    requires q[3] == Spaces(1) && q[4] == Lit("L") && q[5] == Digits(false)
    requires q[6] == Spaces(1) && q[7] == Lit("D") && q[8] == Digits(false)
    requires |s| >= 1 && AllDigits(s) && |l| >= 1 && AllDigits(l) && |d| >= 1 && AllDigits(d) && AllDigits(g)
    requires ParamAtIndex(t, i0, 'S', s) && i1 == i0 + 2 + |s|
    requires ParamAtIndex(t, i1, 'L', l) && i2 == i1 + 2 + |l|
    requires ParamAtIndex(t, i2, 'D', d) && i3 == i2 + 2 + |d| && (i3 == |t| || !IsDigit(t[i3]))
    ensures MatchFrom(q, t, i0, g) == Some(Match(i3, g))
  {
    assert MatchFrom(q, t, i0, g) == MatchFrom(q[3..], t, i1, g) by {
      ParamStep(q, t, i0, i1, 'S', s, g);
    }
    assert MatchFrom(q[3..], t, i1, g) == MatchFrom(q[6..], t, i2, g) by {
      assert q[3..][3..] == q[6..];
      ParamStep(q[3..], t, i1, i2, 'L', l, g);
    }
    assert MatchFrom(q[6..], t, i2, g) == MatchFrom([], t, i3, g) by {
      assert q[6..][3..] == [];
      ParamStep(q[6..], t, i2, i3, 'D', d, g);
    }
  }

  /** A pattern shaped as `\bT(\d+)\s+S\d+\s+L\d+\s+D\d+` matches a plain tool
      line at its start and captures the tool number written there. */
  lemma ToolShapeFound(tp: seq<Token>, n: string, s: string, l: string, d: string, rest: string)
    requires |tp| == 12 && tp[0] == WordBoundary && tp[1] == Lit("T") && tp[2] == Digits(true)
    requires tp[3] == Spaces(1) && tp[4] == Lit("S") && tp[5] == Digits(false)
    requires tp[6] == Spaces(1) && tp[7] == Lit("L") && tp[8] == Digits(false)
    requires tp[9] == Spaces(1) && tp[10] == Lit("D") && tp[11] == Digits(false)
    requires Plain(n, s, l, d, rest)
    ensures MatchAt(tp, ToolLine(n, s, l, d, rest), 0).Some?
    ensures MatchAt(tp, ToolLine(n, s, l, d, rest), 0).value.group == n
  {
    var ps := Param('S', s, Param('L', l, Param('D', d, rest)));
    var line := ToolLine(n, s, l, d, rest);
    var i0 := 1 + |n|;
    var i1 := i0 + 2 + |s|;
    var i2 := i1 + 2 + |l|;
    var i3 := i2 + 2 + |d|;
    assert MatchFrom(tp[3..], line, i0, n) == Some(Match(i3, n)) by {
      ToolLineLayout(n, s, l, d, rest);
      ToolParamsRead(tp[3..], line, i0, i1, i2, i3, s, l, d, n);
    }
    assert MatchFrom(tp[1..], line, 0, "") == MatchFrom(tp[3..], line, i0, n) by {
      assert tp[1..][2..] == tp[3..];
      HeadStep(tp[1..], n, ps, i0);
    }
    assert MatchAt(tp, line, 0) == MatchFrom(tp[1..], line, 0, "") by {
      assert AtWordBoundary(line, 0);
    }
  }


  /** A pattern shaped as `T(\d+)\s+S{a}\s+L{b}\s+D{c}`, with the values
      written into its literals, matches a plain tool line with `S{a} L{b}
      D{c}` at its start and captures the tool number written there. */
  lemma PickupShapeFound(pp: seq<Token>, n: string, a: string, b: string, c: string, rest: string)
    requires |pp| == 8 && pp[0] == Lit("T") && pp[1] == Digits(true)
    requires pp[2] == Spaces(1) && pp[3] == Lit(['S'] + a) && pp[4] == Spaces(1) && pp[5] == Lit(['L'] + b)
    requires pp[6] == Spaces(1) && pp[7] == Lit(['D'] + c)
    requires Plain(n, a, b, c, rest)
    ensures MatchAt(pp, ToolLine(n, a, b, c, rest), 0).Some?
    ensures MatchAt(pp, ToolLine(n, a, b, c, rest), 0).value.group == n
  {
    var ps := Param('S', a, Param('L', b, Param('D', c, rest)));
    var line := ToolLine(n, a, b, c, rest);
    var i0 := 1 + |n|;
    var i1 := i0 + 2 + |a|;
    var i2 := i1 + 2 + |b|;
    var i3 := i2 + 2 + |c|;
    assert MatchFrom(pp[2..], line, i0, n) == Some(Match(i3, n)) by {
      ToolLineLayout(n, a, b, c, rest);
      FixedParamsRead(pp[2..], line, i0, i1, i2, i3, a, b, c, n);
    }
    assert MatchAt(pp, line, 0) == MatchFrom(pp[2..], line, i0, n) by {
      HeadStep(pp, n, ps, i0);
    }
  }

  /** The parametrised tool command is found in a plain tool line, with the
      tool number written there. */
  lemma ToolLineFound(n: string, s: string, l: string, d: string, rest: string)
    requires Plain(n, s, l, d, rest)
    ensures Find(ToolPattern, ToolLine(n, s, l, d, rest)) == Some(n)
  {
    ToolShapeFound(ToolPattern, n, s, l, d, rest);
    FindAtStart(ToolPattern, ToolLine(n, s, l, d, rest));
  }

  /** The pickup command is found in a plain tool line with `S1 L0 D0`, with
      the tool number written there. */
  lemma PickupLineFound(n: string, rest: string)
    requires Plain(n, "1", "0", "0", rest)
    ensures Find(PickupPattern, ToolLine(n, "1", "0", "0", rest)) == Some(n)
  {
    assert PickupPattern[3] == Lit(['S'] + "1") && PickupPattern[5] == Lit(['L'] + "0")
      && PickupPattern[7] == Lit(['D'] + "0");
    PickupShapeFound(PickupPattern, n, "1", "0", "0", rest);
    FindAtStart(PickupPattern, ToolLine(n, "1", "0", "0", rest));
  }

  /** A letter other than a digit, a space and the parameter letters occurs in
      a tool line only where it occurs in the rest. */
  lemma LetterOnlyInRest(c: char, n: string, s: string, l: string, d: string, rest: string)
    requires Plain(n, s, l, d, rest) && !IsDigit(c) && c !in " SLD" && c !in rest
    ensures c !in n + Param('S', s, Param('L', l, Param('D', d, rest)))
  {
    LetterNotInDigits(c, n);
    LetterNotInDigits(c, s);
    LetterNotInDigits(c, l);
    LetterNotInDigits(c, d);
  }

  /** The only upper-case `T` of a plain tool line is its first character, and
      it holds no `P` and no `M`. */
  lemma ToolLineLetters(n: string, s: string, l: string, d: string, rest: string)
    requires Plain(n, s, l, d, rest)
    ensures var line := ToolLine(n, s, l, d, rest);
      line[0] == 'T' && forall j :: 1 <= j < |line| ==> line[j] != 'T' && line[j] != 'P' && line[j] != 'M'
  {
    var body := n + Param('S', s, Param('L', l, Param('D', d, rest)));
    var line := ToolLine(n, s, l, d, rest);
    assert line == "T" + body;
    LetterOnlyInRest('T', n, s, l, d, rest);
    LetterOnlyInRest('P', n, s, l, d, rest);
    LetterOnlyInRest('M', n, s, l, d, rest);
    forall j | 1 <= j < |line|
      ensures line[j] != 'T' && line[j] != 'P' && line[j] != 'M'
    {
      assert line[j] == body[j - 1] && body[j - 1] in body;
    }
  }

  // ----- Tool tokens -----

  /** `\bT\d+\b` does not match where no upper-case `T` stands. */
  lemma WordTokenMiss(line: string, j: nat)
    requires j <= |line| && (j == |line| || line[j] != 'T')
    ensures MatchAt(WordToolToken, line, j).None?
  {
    var w := WordToolToken;
    LitMiss(w[1..], line, j, "");
  }

  /** A pattern shaped as `\bT\d+\b` matches `T{n}` at the start of a text
      when a non-word character or the end follows the digits. */
  lemma WordShapeAtStart(w: seq<Token>, n: string, rest: string)
    requires |w| == 4 && w[0] == WordBoundary && w[1] == Lit("T") && w[2] == Digits(false) && w[3] == WordBoundary
    requires |n| >= 1 && AllDigits(n) && (rest == [] || !IsWordChar(rest[0]))
    ensures MatchAt(w, "T" + n + rest, 0) == Some(Match(1 + |n|, ""))
  {
    var t := "T" + n + rest;
    var e := 1 + |n|;
    HeadDigits(n, rest, e);
    ToolDigitsHead(n, rest);
    assert AtWordBoundary(t, e) by {
      assert t[e - 1] == n[|n| - 1];
      assert e == |t| || t[e] == rest[0];
    }
    assert MatchFrom(w, t, 0, "") == MatchFrom(w[1..], t, 0, "") by {
      BoundaryTo(w, t, 0, "");
    }
    assert MatchFrom(w[1..], t, 0, "") == MatchFrom(w[2..], t, 1, "") by {
      assert t[0..1] == "T";
      LitTo(w[1..], t, 0, 1, "");
      assert w[1..][1..] == w[2..];
    }
    assert MatchFrom(w[2..], t, 1, "") == MatchFrom(w[3..], t, e, "") by {
      DigitsTo(w[2..], t, 1, e, "", "");
      assert w[2..][1..] == w[3..];
    }
    assert MatchFrom(w[3..], t, e, "") == Some(Match(e, "")) by {
      BoundaryTo(w[3..], t, e, "");
      assert w[3..][1..] == [];
    }
  }

  /** `re.sub(r'\bT\d+\b', repl, line)` on `T{n}` before a rest that starts
      with a non-word character and holds no upper-case `T`: the head becomes
      `repl`, the rest is kept. */
  lemma WordTokenHead(n: string, rest: string, repl: string)
    requires |n| >= 1 && AllDigits(n) && (rest == [] || !IsWordChar(rest[0])) && 'T' !in rest
    ensures SubAll(WordToolToken, "T" + n + rest, repl) == repl + rest
  {
    var t := "T" + n + rest;
    var e := 1 + |n|;
    WordShapeAtStart(WordToolToken, n, rest);
    FindAtStart(WordToolToken, t);
    forall j | e <= j < |t|
      ensures MatchAt(WordToolToken, t, j).None?
    {
      assert t[j] == rest[j - e] && rest[j - e] in rest;
      WordTokenMiss(t, j);
    }
    assert t[e..] == rest;
  }

  /** `re.sub(r'T\d+', repl, line)` on `T{n}` before a rest that does not
      start with a digit and holds no upper-case `T`: the head becomes `repl`,
      the rest is kept. */
  lemma ToolTokenHead(n: string, rest: string, repl: string)
    requires |n| >= 1 && AllDigits(n) && (rest == [] || !IsDigit(rest[0])) && 'T' !in rest
    ensures SubAll(ToolToken, "T" + n + rest, repl) == repl + rest
  {
    var t := "T" + n + rest;
    var e := 1 + |n|;
    assert t[1..e] == n;
    assert e == |t| || t[e] == rest[0];
    DigitSpanIs(t, 1, n);
    ToolTokenAtStart(t);
    FindAtStart(ToolToken, t);
    forall j | e <= j < |t|
      ensures MatchAt(ToolToken, t, j).None?
    {
      assert t[j] == rest[j - e] && rest[j - e] in rest;
      LitMiss(ToolToken, t, j, "");
    }
    assert t[e..] == rest;
  }

  // ----- A plain tool line through the stages -----

  /** The parameters and the rest of a plain tool line hold no upper-case `T`. */
  lemma TailHasNoT(n: string, s: string, l: string, d: string, rest: string)
    requires Plain(n, s, l, d, rest)
    ensures 'T' !in Param('S', s, Param('L', l, Param('D', d, rest)))
  {
    var tail := Param('S', s, Param('L', l, Param('D', d, rest)));
    LetterOnlyInRest('T', n, s, l, d, rest);
    forall j | 0 <= j < |tail|
      ensures tail[j] != 'T'
    {
      assert (n + tail)[|n| + j] == tail[j];
    }
  }

  /** A pattern that starts with `T(\d+)` and captures nothing else reads the
      tool number of `T{n}` whenever it matches there. */
  lemma HeadGroup(pp: seq<Token>, n: string, rest: string)
    requires |pp| >= 2 && pp[0] == Lit("T") && pp[1] == Digits(true) && Digits(true) !in pp[2..]
    requires |n| >= 1 && AllDigits(n) && (rest == [] || !IsDigit(rest[0]))
    requires MatchAt(pp, "T" + n + rest, 0).Some?
    ensures MatchAt(pp, "T" + n + rest, 0).value.group == n
  {
    HeadStep(pp, n, rest, 1 + |n|);
    GroupKept(pp[2..], "T" + n + rest, 1 + |n|, n);
  }

  /** On a plain tool line the pickup recogniser finds nothing or the line's
      own tool number. */
  lemma PickupOnToolLine(n: string, s: string, l: string, d: string, rest: string)
    requires Plain(n, s, l, d, rest)
    ensures var p := ToolNumber(PickupPattern, ToolLine(n, s, l, d, rest));
      p.None? || p == Some(DigitsValue(n))
  {
    var line := ToolLine(n, s, l, d, rest);
    if MatchAt(PickupPattern, line, 0).None? {
      assert forall j :: 0 <= j < |line| && line[j] == 'T' ==> j == 0 by {
        ToolLineLetters(n, s, l, d, rest);
      }
      PickupOnlyAt(line, 0);
    } else {
      assert MatchAt(PickupPattern, line, 0).value.group == n by {
        assert Digits(true) !in PickupPattern[2..];
        HeadGroup(PickupPattern, n, Param('S', s, Param('L', l, Param('D', d, rest))));
      }
      FindAtStart(PickupPattern, line);
    }
  }

  /** A line without `P` and without `M` is neither a park command nor a
      temperature switch. */
  lemma NoParkNoSwitch(line: string)
    requires 'P' !in line && 'M' !in line
    ensures !Matches(ParkPattern, line) && ToolNumber(M104Pattern, line).None?
  {
    SearchSkipsToLead(ParkPattern, line, 0);
    SearchSkipsToLead(M104Pattern, line, 0);
  }

  /** A plain tool line is not a bare tool select: a space, not a semicolon,
      follows the tool number. */
  lemma ToolLineNotSimple(n: string, s: string, l: string, d: string, rest: string)
    requires Plain(n, s, l, d, rest)
    ensures SimpleToolNumber(ToolLine(n, s, l, d, rest)).None?
  {
    var e := 1 + |n|;
    var r := Param('L', l, Param('D', d, rest));
    ParamLead('L', l, Param('D', d, rest));
    ParamInner('S', s, r);
    HeadOuter(n, Param('S', s, r), 0, e, 'S', s);
    HeadDigits(n, Param('S', s, r), e);
    NotSimpleAt(ToolLine(n, s, l, d, rest), n, e, s);
  }

  /** The digits after the `T` of `T{n}` in front of a text. */
  lemma HeadDigits(n: string, p: string, e: nat)
    requires e == 1 + |n|
    ensures e <= |"T" + n + p| && ("T" + n + p)[0] == 'T' && ("T" + n + p)[1..e] == n
  {
  }

  /** `T{n}` followed by a space and `S` is not a bare tool select. */
  lemma NotSimpleAt(t: string, n: string, e: nat, w: string)
    requires e == 1 + |n| && |n| >= 1 && AllDigits(n)
    requires ParamAtIndex(t, e, 'S', w) && t[0] == 'T' && t[1..e] == n
    ensures SimpleToolNumber(t).None?
  {
    DigitSpanIs(t, 1, n);
    assert SpaceSpan(t, e + 1) == 0;
    assert SpaceSpan(t, e) == 1;
  }

  /** The tool number a plain tool line is read as. */
  lemma ToolNumberOfLine(n: string, s: string, l: string, d: string, rest: string)
    requires Plain(n, s, l, d, rest)
    ensures ToolNumber(ToolPattern, ToolLine(n, s, l, d, rest)) == Some(DigitsValue(n))
  {
    ToolLineFound(n, s, l, d, rest);
  }

  /** The tool stage on a tool command of another tool rewrites its tool
      tokens and mounts the scheduled tool. */
  lemma ToolStageOther(line: string, cur: nat, out: string, active: Option<nat>, was: nat)
    requires ToolNumber(ToolPattern, line) == Some(was) && was != cur
    ensures ToolStage(line, cur, out, active) == Go(SubAll(WordToolToken, line, "T" + NatToString(cur)), Some(cur))
  {
  }

  /** The tool stage on a plain tool line of another tool writes the same line
      with the scheduled tool's number, and that line is read back as a tool
      command for the scheduled tool. */
  lemma ToolStageRewrites(n: string, s: string, l: string, d: string, rest: string, cur: nat, out: string, active: Option<nat>)
    requires Plain(n, s, l, d, rest) && DigitsValue(n) != cur
    ensures ToolStage(ToolLine(n, s, l, d, rest), cur, out, active) == Go(ToolLine(NatToString(cur), s, l, d, rest), Some(cur))
  {
    PlainToolHead(n, s, l, d, rest);
    ToolNumberOfLine(n, s, l, d, rest);
    ToolStageOnHead(ToolLine(n, s, l, d, rest), n, Param('S', s, Param('L', l, Param('D', d, rest))), cur, out, active);
  }

  /** `line` is `T{n}` before a tail that starts with a non-word character
      and holds no upper-case `T`. */
  predicate ToolHead(line: string, n: string, tail: string)
  {
    line == "T" + n + tail && |n| >= 1 && AllDigits(n)
    && (tail == [] || !IsWordChar(tail[0])) && 'T' !in tail
  }

  /** A plain tool line has that shape. */
  lemma PlainToolHead(n: string, s: string, l: string, d: string, rest: string)
    requires Plain(n, s, l, d, rest)
    ensures ToolHead(ToolLine(n, s, l, d, rest), n, Param('S', s, Param('L', l, Param('D', d, rest))))
  {
    TailHasNoT(n, s, l, d, rest);
    ParamLead('S', s, Param('L', l, Param('D', d, rest)));
  }

  /** The tool stage on `T{n}`, read as a tool command of another tool,
      writes the scheduled tool's number in place of `n` and keeps the tail. */
  lemma ToolStageOnHead(line: string, n: string, tail: string, cur: nat, out: string, active: Option<nat>)
    requires ToolHead(line, n, tail)
    requires ToolNumber(ToolPattern, line) == Some(DigitsValue(n)) && DigitsValue(n) != cur
    ensures ToolStage(line, cur, out, active) == Go("T" + NatToString(cur) + tail, Some(cur))
  {
    WordTokenHead(n, tail, "T" + NatToString(cur));
    ToolStageOther(line, cur, out, active, DigitsValue(n));
  }

  /** The pickup stage on a plain pickup line `T{n} S1 L0 D0` of another tool
      writes the same line with the scheduled tool's number, and that line is
      read back as a pickup of the scheduled tool. */
  lemma PickupStageRewrites(names: seq<string>, n: string, rest: string, cur: nat, out: string, active: Option<nat>)
    requires Plain(n, "1", "0", "0", rest) && DigitsValue(n) != cur
    ensures var c := NatToString(cur);
      PickupStage(names, ToolLine(n, "1", "0", "0", rest), cur, out, active) == Go(ToolLine(c, "1", "0", "0", rest), Some(cur))
      && ToolNumber(PickupPattern, ToolLine(c, "1", "0", "0", rest)) == Some(cur)
  {
    var c := NatToString(cur);
    var line := ToolLine(n, "1", "0", "0", rest);
    var written := ToolLine(c, "1", "0", "0", rest);
    assert ToolNumber(PickupPattern, line) == Some(DigitsValue(n)) by {
      PickupLineFound(n, rest);
    }
    assert SubAll(ToolToken, line, "T" + c) == written by {
      TailHasNoT(n, "1", "0", "0", rest);
      ToolTokenHead(n, Param('S', "1", Param('L', "0", Param('D', "0", rest))), "T" + c);
    }
    assert ToolNumber(PickupPattern, written) == Some(cur) by {
      assert Plain(c, "1", "0", "0", rest);
      PickupLineFound(c, rest);
    }
  }

  /** A plain tool line of another tool, whether or not it is also a pickup:
      the whole line step writes it with the scheduled tool's number and
      mounts that tool, and the written line is read back as a tool command
      for the scheduled tool. */
  lemma ToolLineRetargeted(names: seq<string>, n: string, s: string, l: string, d: string, rest: string, cur: nat, active: Option<nat>)
    requires Plain(n, s, l, d, rest) && DigitsValue(n) != cur
    ensures var written := ToolLine(NatToString(cur), s, l, d, rest);
      LineStep(names, ToolLine(n, s, l, d, rest), cur, active) == Go(written, Some(cur))
      && ToolNumber(ToolPattern, written) == Some(cur)
  {
    ToolLineStep(names, n, s, l, d, rest, cur, active);
    ToolLineReread(s, l, d, rest, cur);
  }

  /** The line step part of that. */
  lemma ToolLineStep(names: seq<string>, n: string, s: string, l: string, d: string, rest: string, cur: nat, active: Option<nat>)
    requires Plain(n, s, l, d, rest) && DigitsValue(n) != cur
    ensures LineStep(names, ToolLine(n, s, l, d, rest), cur, active) == Go(ToolLine(NatToString(cur), s, l, d, rest), Some(cur))
  {
    PlainQuiet(n, s, l, d, rest);
    PlainRetargets(n, s, l, d, rest, cur);
    LineStepOnToolLine(names, ToolLine(n, s, l, d, rest), cur, active, DigitsValue(n), ToolLine(NatToString(cur), s, l, d, rest));
  }

  /** No park, temperature switch or bare tool select recogniser reads the
      line. */
  predicate Quiet(line: string)
  {
    !Matches(ParkPattern, line) && ToolNumber(M104Pattern, line).None? && SimpleToolNumber(line).None?
  }

  /** The line is a tool command of tool `was`, not the scheduled `cur`, and
      if a pickup at all a pickup of `was`; the tool token rewrite turns it
      into `written`. */
  predicate Retargets(line: string, was: nat, cur: nat, written: string)
  {
    (ToolNumber(PickupPattern, line).None? || ToolNumber(PickupPattern, line) == Some(was))
    && ToolNumber(ToolPattern, line) == Some(was) && was != cur
    && SubAll(WordToolToken, line, "T" + NatToString(cur)) == written
  }

  /** A plain tool line is read by none of those recognisers. */
  lemma PlainQuiet(n: string, s: string, l: string, d: string, rest: string)
    requires Plain(n, s, l, d, rest)
    ensures Quiet(ToolLine(n, s, l, d, rest))
  {
    var line := ToolLine(n, s, l, d, rest);
    ToolLineNoPM(n, s, l, d, rest, line);
    NoParkNoSwitch(line);
    ToolLineNotSimple(n, s, l, d, rest);
  }

  /** A plain tool line holds no `P` and no `M`. */
  lemma ToolLineNoPM(n: string, s: string, l: string, d: string, rest: string, line: string)
    requires Plain(n, s, l, d, rest) && line == ToolLine(n, s, l, d, rest)
    ensures 'P' !in line && 'M' !in line
  {
    ToolLineLetters(n, s, l, d, rest);
  }

  /** A plain tool line of another tool is retargeted to the same line with
      the scheduled tool's number. */
  lemma PlainRetargets(n: string, s: string, l: string, d: string, rest: string, cur: nat)
    requires Plain(n, s, l, d, rest) && DigitsValue(n) != cur
    ensures Retargets(ToolLine(n, s, l, d, rest), DigitsValue(n), cur, ToolLine(NatToString(cur), s, l, d, rest))
  {
    PickupOnToolLine(n, s, l, d, rest);
    ToolNumberOfLine(n, s, l, d, rest);
    PlainWordRewrite(n, s, l, d, rest, NatToString(cur));
  }

  /** `re.sub(r'\bT\d+\b', 'T' + c, line)` on a plain tool line puts `c` in
      place of the tool number. */
  lemma PlainWordRewrite(n: string, s: string, l: string, d: string, rest: string, c: string)
    requires Plain(n, s, l, d, rest)
    ensures SubAll(WordToolToken, ToolLine(n, s, l, d, rest), "T" + c) == ToolLine(c, s, l, d, rest)
  {
    PlainToolHead(n, s, l, d, rest);
    WordTokenHead(n, Param('S', s, Param('L', l, Param('D', d, rest))), "T" + c);
  }

  /** The whole line step on a quiet line that is retargeted: the tool
      stage's rewrite is written and the scheduled tool is mounted. */
  lemma LineStepOnToolLine(names: seq<string>, line: string, cur: nat, active: Option<nat>, was: nat, written: string)
    requires Quiet(line) && Retargets(line, was, cur, written)
    ensures LineStep(names, line, cur, active) == Go(written, Some(cur))
  {
  }

  /** The number in a plain tool line's place gives a plain tool line of the
      scheduled tool. */
  lemma ToolLineReread(s: string, l: string, d: string, rest: string, cur: nat)
    requires Number(s) && Number(l) && Number(d) && PlainRest(rest)
    ensures ToolNumber(ToolPattern, ToolLine(NatToString(cur), s, l, d, rest)) == Some(cur)
  {
    ToolNumberOfLine(NatToString(cur), s, l, d, rest);
  }

  // ----- Examples -----

  /** `T1 S0 L1 D0` in a layer scheduled for tool 3 becomes `T3 S0 L1 D0`. */
  lemma ToolLineExample(names: seq<string>, line: string, written: string, active: Option<nat>)
    requires line == "T1 S0 L1 D0" && written == "T3 S0 L1 D0"
    ensures LineStep(names, line, 3, active) == Go(written, Some(3))
    ensures ToolNumber(ToolPattern, written) == Some(3)
  {
    assert ToolLine("1", "0", "1", "0", "") == line;
    assert DigitsValue("1") == 1;
    assert NatToString(3) == "3";
    assert ToolLine(NatToString(3), "0", "1", "0", "") == written;
    ToolLineRetargeted(names, "1", "0", "1", "0", "", 3, active);
  }

  /** A line shorter than a pickup command and without `P` and `M` is read by
      none of the park, pickup and switch recognisers. */
  lemma ShortLineNoCommand(line: string)
    requires 'P' !in line && 'M' !in line && |line| < 7
    ensures !Matches(ParkPattern, line) && ToolNumber(M104Pattern, line).None? && ToolNumber(PickupPattern, line).None?
  {
    NoParkNoSwitch(line);
    assert LiteralLength(PickupPattern) == 7;
    forall k | 0 <= k <= |line|
      ensures MatchAt(PickupPattern, line, k).None?
    {
      assert k + LiteralLength(PickupPattern) > |line|;
    }
  }

  /** `T12;` is read as a bare tool select of tool 12 and by no other
      recogniser. */
  lemma SimpleLineRead(line: string)
    requires line == "T12;"
    ensures DigitSpan(line, 1) == 2 && SimpleToolNumber(line) == Some(12)
    ensures !Matches(ParkPattern, line) && ToolNumber(M104Pattern, line).None? && ToolNumber(PickupPattern, line).None?
  {
    assert line[1..3] == "12";
    DigitSpanIs(line, 1, "12");
    assert SpaceSpan(line, 3) == 0;
    assert DigitsValue("12") == 12;
    assert 'P' !in line && 'M' !in line;
    ShortLineNoCommand(line);
  }

  /** `T12;` in a layer scheduled for tool 3 becomes `T3;`. */
  lemma SimpleLineExample(names: seq<string>, line: string, written: string, active: Option<nat>)
    requires line == "T12;" && written == "T3;"
    ensures LineStep(names, line, 3, active) == Go(written, Some(3))
    ensures SimpleToolNumber(written) == Some(3)
  {
    SimpleLineRead(line);
    assert "T" + NatToString(3) + line[3..] == written by {
      assert NatToString(3) == "3";
    }
    SimpleRetargeted(names, line, 3, active);
    SimpleRewrites(line, 3, line, active);
  }
}

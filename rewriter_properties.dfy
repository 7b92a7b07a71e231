/** What the command rewriter promises: per line, the effect of each
    recogniser; over the whole pass, which lines can change, which tool each
    layer is moved to, what the mounted tool can be, and when the pass fails. */
module RewriterProperties {
  import opened Wrappers
  import opened Text
  import opened Patterns
  import opened CommandRewriter

  // ----- One line -----

  /** None of the five recognisers fires on the line. */
  predicate Unrecognised(line: string)
  {
    !Matches(ParkPattern, line)
    && ToolNumber(PickupPattern, line).None?
    && ToolNumber(M104Pattern, line).None?
    && ToolNumber(ToolPattern, line).None?
    && SimpleToolNumber(line).None?
  }

  /** `n` is absent or the scheduled tool. */
  predicate NoneOr(n: Option<nat>, cur: nat)
  {
    n.None? || n == Some(cur)
  }

  /** Every tool number the recognisers capture on the line is already the
      scheduled tool. */
  predicate OnSchedule(line: string, cur: nat)
  {
    NoneOr(ToolNumber(PickupPattern, line), cur)
    && NoneOr(ToolNumber(M104Pattern, line), cur)
    && NoneOr(ToolNumber(ToolPattern, line), cur)
    && NoneOr(SimpleToolNumber(line), cur)
  }

  /** A line that no recogniser fires on is left as it is, and so is the
      mounted tool. */
  lemma UnrecognisedLineKept(names: seq<string>, line: string, cur: nat, active: Option<nat>)
    requires Unrecognised(line)
    ensures LineStep(names, line, cur, active) == Go(line, active)
  {
  }

  /** No tool number that already names the scheduled tool is rewritten: a
      line that is on schedule is kept or becomes a skip comment. */
  lemma OnScheduleOnlySkips(names: seq<string>, line: string, cur: nat, active: Option<nat>)
    requires OnSchedule(line, cur)
    ensures var r := LineStep(names, line, cur, active);
      r.Fail? || (r.Go? && r.out == line) || (r.Stop? && IsSkipOf(r.out, line))
  {
    var s1 := ParkStage(names, line, cur, active);
    if s1.Go? {
      var s2 := PickupStage(names, line, cur, line, active);
      assert s2.Go? ==> s2.out == line;
      if s2.Go? {
        var a := s2.active;
        assert M104Stage(names, line, cur, line, a) == Go(line, a);
        assert ToolStage(line, cur, line, a) == Go(line, a);
        assert SimpleStage(line, cur, line, a) == Go(line, a);
      }
    }
  }

  /** Park while the scheduled tool is mounted: the line becomes a comment,
      the mounted tool stays and no other recogniser runs on it. */
  lemma ParkSkipped(names: seq<string>, line: string, cur: nat)
    requires Matches(ParkPattern, line) && cur < |names|
    ensures LineStep(names, line, cur, Some(cur)) == Stop(SkipNote(line, "parking ", cur, names[cur]), Some(cur))
  {
  }

  /** Park while another tool (or none) is mounted is passed on to the other
      recognisers; with nothing else on the line it is kept. */
  lemma ParkKept(names: seq<string>, line: string, cur: nat, active: Option<nat>)
    requires active != Some(cur)
    requires ToolNumber(PickupPattern, line).None? && ToolNumber(M104Pattern, line).None?
    requires ToolNumber(ToolPattern, line).None? && SimpleToolNumber(line).None?
    ensures LineStep(names, line, cur, active) == Go(line, active)
  {
  }

  /** A pickup of the scheduled tool while it is mounted becomes a comment and
      ends the line. */
  lemma PickupSkipped(names: seq<string>, line: string, cur: nat)
    requires ToolNumber(PickupPattern, line) == Some(cur) && cur < |names|
    requires !Matches(ParkPattern, line)
    ensures LineStep(names, line, cur, Some(cur)) == Stop(SkipNote(line, "pickup ", cur, names[cur]), Some(cur))
  {
    assert ParkStage(names, line, cur, Some(cur)) == Go(line, Some(cur));
  }

  /** A pickup of the scheduled tool while another one is mounted only mounts
      it. */
  lemma PickupMounts(names: seq<string>, line: string, cur: nat, active: Option<nat>)
    requires ToolNumber(PickupPattern, line) == Some(cur) && active != Some(cur)
    requires NoneOr(ToolNumber(M104Pattern, line), cur) && NoneOr(ToolNumber(ToolPattern, line), cur)
    requires NoneOr(SimpleToolNumber(line), cur)
    ensures LineStep(names, line, cur, active) == Go(line, Some(cur))
  {
  }

  /** A pickup of another tool picks up the scheduled one: every `T<n>` of the
      line names it, and it is mounted. */
  lemma PickupRetargeted(names: seq<string>, line: string, cur: nat, active: Option<nat>, n: nat)
    requires ToolNumber(PickupPattern, line) == Some(n) && n != cur
    requires !(Matches(ParkPattern, line) && active == Some(cur))
    requires ToolNumber(M104Pattern, line).None?
    requires NoneOr(ToolNumber(ToolPattern, line), cur) && NoneOr(SimpleToolNumber(line), cur)
    ensures LineStep(names, line, cur, active) == Go(SubAll(ToolToken, line, "T" + NatToString(cur)), Some(cur))
  {
  }

  /** A pickup line is also a tool command with parameters; when that one names
      another tool too, its rewrite is the one that stays, since the last write
      to the line wins. */
  lemma PickupOverwritten(names: seq<string>, line: string, cur: nat, active: Option<nat>, n: nat, m: nat)
    requires ToolNumber(PickupPattern, line) == Some(n) && n != cur
    requires ToolNumber(ToolPattern, line) == Some(m) && m != cur
    requires !(Matches(ParkPattern, line) && active == Some(cur))
    requires ToolNumber(M104Pattern, line).None? && NoneOr(SimpleToolNumber(line), cur)
    ensures LineStep(names, line, cur, active) == Go(SubAll(WordToolToken, line, "T" + NatToString(cur)), Some(cur))
  {
  }

  /** The text appended to a rebuilt temperature switch: the line's own
      comment, or a note that names the old and the new tool. */
  function SwitchTail(names: seq<string>, line: string, was: nat, cur: nat): (t: string)
    requires Comment(line).Some? || (was < |names| && cur < |names|)
    ensures t != [] && t[0] == ' '
  {
    match Comment(line)
    case Some(c) => " " + c
    case None => SwitchNote(names, was, cur)
  }

  /** A temperature switch for another tool while another tool is mounted is
      rebuilt for the scheduled tool, which is then mounted. */
  lemma M104Rebuilt(names: seq<string>, line: string, cur: nat, active: Option<nat>, was: nat)
    requires ToolNumber(M104Pattern, line) == Some(was) && was != cur && active != Some(cur)
    requires ToolNumber(PickupPattern, line).None?
    requires NoneOr(ToolNumber(ToolPattern, line), cur) && NoneOr(SimpleToolNumber(line), cur)
    requires Comment(line).Some? || (was < |names| && cur < |names|)
    ensures LineStep(names, line, cur, active) == Go(M104Command(line, cur, SwitchTail(names, line, was, cur)), Some(cur))
  {
    var out := M104Command(line, cur, SwitchTail(names, line, was, cur));
    assert ParkStage(names, line, cur, active) == Go(line, active);
    assert PickupStage(names, line, cur, line, active) == Go(line, active);
    M104StageRebuilds(names, line, cur, active, was);
    assert ToolStage(line, cur, out, Some(cur)) == Go(out, Some(cur));
  }

  /** The temperature-switch stage on its own, in the same situation. */
  lemma M104StageRebuilds(names: seq<string>, line: string, cur: nat, active: Option<nat>, was: nat)
    requires ToolNumber(M104Pattern, line) == Some(was) && was != cur && active != Some(cur)
    requires Comment(line).Some? || (was < |names| && cur < |names|)
    ensures M104Stage(names, line, cur, line, active) == Go(M104Command(line, cur, SwitchTail(names, line, was, cur)), Some(cur))
  {
  }

  /** A temperature switch for another tool while the scheduled one is
      mounted becomes a comment and ends the line. */
  lemma M104Skipped(names: seq<string>, line: string, cur: nat, was: nat)
    requires ToolNumber(M104Pattern, line) == Some(was) && was != cur && cur < |names|
    requires !Matches(ParkPattern, line) && ToolNumber(PickupPattern, line).None?
    ensures LineStep(names, line, cur, Some(cur)) == Stop(SkipNote(line, "", cur, names[cur]), Some(cur))
  {
    assert ParkStage(names, line, cur, Some(cur)) == Go(line, Some(cur));
  }

  lemma LetterNotInDigits(c: char, d: string)
    requires !IsDigit(c) && AllDigits(d)
    ensures c !in d
  {
  }

  /** A written parameter is found when searched for by its own letter. */
  lemma ParamFound(letter: char, v: string, rest: string)
    requires letter != ' ' && |v| >= 1 && AllDigits(v) && (rest == [] || rest[0] == ' ')
    ensures Find(ParamPattern(letter), Param(letter, v, rest)) == Some(v)
  {
    FindParamSkip(letter, " ", [letter] + (v + rest));
    FindParamHere(letter, v, rest);
  }

  /** A written parameter is passed over when another letter is searched for. */
  lemma ParamPassed(letter: char, other: char, v: string, rest: string)
    requires letter != other && letter != ' ' && !IsDigit(letter) && AllDigits(v)
    ensures Find(ParamPattern(letter), Param(other, v, rest)) == Find(ParamPattern(letter), rest)
  {
    LetterNotInDigits(letter, v);
    FindParamSkip(letter, " ", [other] + (v + rest));
    FindParamSkip(letter, [other], v + rest);
    FindParamSkip(letter, v, rest);
  }

  /** The `M104.1 T{n}` head is passed over when a parameter is searched for. */
  lemma HeadPassed(letter: char, n: string, rest: string)
    requires letter in "PQS" && AllDigits(n)
    ensures Find(ParamPattern(letter), "M104.1 T" + (n + rest)) == Find(ParamPattern(letter), rest)
  {
    FindParamSkip(letter, "M104.1 T", n + rest);
    LetterNotInDigits(letter, n);
    FindParamSkip(letter, n, rest);
  }

  /** A temperature switch written as `M104.1 T{n} P{p} Q{q} S{s}` before a
      tail that is empty or starts with a space: its tool and its parameters
      are the ones written. */
  lemma SwitchParams(n: string, p: string, q: string, s: string, tail: string)
    requires |n| >= 1 && AllDigits(n) && |p| >= 1 && AllDigits(p)
    requires |q| >= 1 && AllDigits(q) && |s| >= 1 && AllDigits(s)
    requires tail == [] || tail[0] == ' '
    ensures var r := "M104.1 T" + (n + Param('P', p, Param('Q', q, Param('S', s, tail))));
      Find(M104Pattern, r) == Some(n)
      && Find(ParamPattern('P'), r) == Some(p)
      && Find(ParamPattern('Q'), r) == Some(q)
      && Find(ParamPattern('S'), r) == Some(s)
  {
    var rs := Param('S', s, tail);
    var rq := Param('Q', q, rs);
    var rp := Param('P', p, rq);
    M104Lead(n, rp);
    HeadPassed('P', n, rp);
    HeadPassed('Q', n, rp);
    HeadPassed('S', n, rp);
    ParamFound('P', p, rq);
    ParamPassed('Q', 'P', p, rq);
    ParamFound('Q', q, rs);
    ParamPassed('S', 'P', p, rq);
    ParamPassed('S', 'Q', q, rs);
    ParamFound('S', s, tail);
  }

  /** The rebuilt temperature switch, whatever follows it, is read back as a
      switch for the scheduled tool with the parameters taken from the original
      line: an existing `Q` is kept, a missing one is `p + cur + 1`. */
  lemma M104CommandReparses(line: string, cur: nat, tail: string)
    requires tail == [] || tail[0] == ' '
    ensures var r := M104Command(line, cur, tail);
      ToolNumber(M104Pattern, r) == Some(cur)
      && Find(ParamPattern('P'), r) == Some(M104P(line))
      && Find(ParamPattern('Q'), r) == Some(M104Q(line, cur))
      && Find(ParamPattern('S'), r) == Some(M104S(line))
  {
    SwitchParams(NatToString(cur), M104P(line), M104Q(line, cur), M104S(line), tail);
  }
}

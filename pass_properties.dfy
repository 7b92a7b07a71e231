/** What the command rewriter promises over a whole pass: which lines can
    change, which tool each layer is moved to, what the mounted tool can be,
    and exactly when the pass fails. */
module PassProperties {
  import opened Wrappers
  import opened Text
  import opened Patterns
  import opened CommandRewriter
  import opened RewriterProperties

  // ----- Prefixes of a pass -----

  /** One more line of a pass that has not failed: the earlier lines did not
      fail either, and the new output line is what the recognisers make of the
      input line under the tool scheduled for it. */
  lemma RunStep(names: seq<string>, lines: seq<string>, positions: seq<int>, tools: seq<nat>, n: nat)
    requires 0 < n <= |lines| && RunUpTo(names, lines, positions, tools, n).Ok?
    ensures RunUpTo(names, lines, positions, tools, n - 1).Ok?
    ensures var before := RunUpTo(names, lines, positions, tools, n - 1).value;
      var after := RunUpTo(names, lines, positions, tools, n).value;
      var s := ProcessLine(names, lines[n - 1], ScheduledAt(positions, tools, n - 1), before.state.active);
      !s.Fail? && after.out == before.out + [s.out] && after.state.active == s.active
  {
  }

  /** A pass that gets through `n` lines got through every shorter prefix,
      with the output so far a prefix of the later one. */
  lemma {:induction false} RunPrefix(names: seq<string>, lines: seq<string>, positions: seq<int>, tools: seq<nat>, m: nat, n: nat)
    requires m <= n <= |lines| && RunUpTo(names, lines, positions, tools, n).Ok?
    ensures RunUpTo(names, lines, positions, tools, m).Ok?
    ensures RunUpTo(names, lines, positions, tools, m).value.out == RunUpTo(names, lines, positions, tools, n).value.out[..m]
    decreases n - m
  {
    var out := RunUpTo(names, lines, positions, tools, n).value.out;
    if m < n {
      RunStep(names, lines, positions, tools, n);
      RunPrefix(names, lines, positions, tools, m, n - 1);
      var shorter := RunUpTo(names, lines, positions, tools, n - 1).value.out;
      assert out[..n - 1] == shorter;
      assert out[..m] == shorter[..m];
    } else {
      assert out[..m] == out;
    }
  }

  /** Output line `j` of a successful pass is what the recognisers make of
      input line `j`, under the tool scheduled for it and the tool mounted by
      the lines before it. */
  lemma OutputLine(names: seq<string>, lines: seq<string>, positions: seq<int>, tools: seq<nat>, j: nat)
    requires j < |lines| && Rewrite(names, lines, positions, tools).Ok?
    ensures RunUpTo(names, lines, positions, tools, j).Ok?
    ensures var s := ProcessLine(names, lines[j], ScheduledAt(positions, tools, j),
                                 RunUpTo(names, lines, positions, tools, j).value.state.active);
      !s.Fail? && Rewrite(names, lines, positions, tools).value[j] == s.out
  {
    RunPrefix(names, lines, positions, tools, j + 1, |lines|);
    RunStep(names, lines, positions, tools, j + 1);
  }

  // ----- Which lines can change -----

  /** A line with no layer scheduled (before the first layer marker, or with
      an empty tool sequence) is copied unchanged. */
  lemma UnscheduledLineKept(names: seq<string>, lines: seq<string>, positions: seq<int>, tools: seq<nat>, j: nat)
    requires j < |lines| && Rewrite(names, lines, positions, tools).Ok?
    requires ScheduledAt(positions, tools, j).None?
    ensures Rewrite(names, lines, positions, tools).value[j] == lines[j]
  {
    OutputLine(names, lines, positions, tools, j);
  }

  /** A line that no recogniser fires on is copied unchanged. */
  lemma UnrecognisedLinesKept(names: seq<string>, lines: seq<string>, positions: seq<int>, tools: seq<nat>, j: nat)
    requires j < |lines| && Rewrite(names, lines, positions, tools).Ok?
    requires Unrecognised(lines[j])
    ensures Rewrite(names, lines, positions, tools).value[j] == lines[j]
  {
    OutputLine(names, lines, positions, tools, j);
    var active := RunUpTo(names, lines, positions, tools, j).value.state.active;
    match ScheduledAt(positions, tools, j)
    case None =>
    case Some(cur) => UnrecognisedLineKept(names, lines[j], cur, active);
  }

  /** A line whose tool numbers all name the tool scheduled for it is copied
      unchanged or turned into a skip comment; it is never rewritten. */
  lemma OnScheduleLines(names: seq<string>, lines: seq<string>, positions: seq<int>, tools: seq<nat>, j: nat)
    requires j < |lines| && Rewrite(names, lines, positions, tools).Ok?
    requires ScheduledAt(positions, tools, j).Some? ==> OnSchedule(lines[j], ScheduledAt(positions, tools, j).value)
    ensures var o := Rewrite(names, lines, positions, tools).value[j];
      o == lines[j] || IsSkipOf(o, lines[j])
  {
    OutputLine(names, lines, positions, tools, j);
    var active := RunUpTo(names, lines, positions, tools, j).value.state.active;
    match ScheduledAt(positions, tools, j)
    case None =>
    case Some(cur) => OnScheduleOnlySkips(names, lines[j], cur, active);
  }

  /** While nothing is scheduled the pass copies its input and mounts no tool. */
  lemma {:induction false} UnscheduledRunKept(names: seq<string>, lines: seq<string>, positions: seq<int>, tools: seq<nat>, n: nat)
    requires n <= |lines|
    requires forall j :: 0 <= j < n ==> ScheduledAt(positions, tools, j).None?
    ensures RunUpTo(names, lines, positions, tools, n) == Ok(Progress(lines[..n], State(CursorAt(positions, tools, n), None)))
  {
    if n > 0 {
      UnscheduledRunKept(names, lines, positions, tools, n - 1);
      var before := Progress(lines[..n - 1], State(CursorAt(positions, tools, n - 1), None));
      var cursor := CursorAt(positions, tools, n);
      assert cursor.current == ScheduledAt(positions, tools, n - 1);
      RunUpToNext(names, lines, positions, tools, n - 1, before, cursor, Go(lines[n - 1], None));
      assert lines[..n] == lines[..n - 1] + [lines[n - 1]];
    }
  }

  /** A file in which nothing is scheduled comes back unchanged. */
  lemma NothingScheduledKeepsAll(names: seq<string>, lines: seq<string>, positions: seq<int>, tools: seq<nat>)
    requires forall j :: 0 <= j < |lines| ==> ScheduledAt(positions, tools, j).None?
    ensures Rewrite(names, lines, positions, tools) == Ok(lines)
  {
    UnscheduledRunKept(names, lines, positions, tools, |lines|);
    assert lines[..|lines|] == lines;
  }

  // ----- Which tool each layer is moved to -----

  /** The number of layer markers among the first `n` lines. */
  function Boundaries(positions: seq<int>, n: nat): (b: nat)
    ensures b <= n
  {
    if n == 0 then 0 else Boundaries(positions, n - 1) + (if n - 1 in positions then 1 else 0)
  }

  /** The tool of the layer numbered `b - 1` counting from 0, the last tool of
      the sequence once it has run out, and none before the first marker. */
  function ToolForLayers(tools: seq<nat>, b: nat): (t: Option<nat>)
    ensures t.Some? <==> b > 0 && tools != []
    ensures t.Some? ==> t.value in tools
    ensures t.Some? && b <= |tools| ==> t.value == tools[b - 1]
    ensures t.Some? && b > |tools| ==> t.value == tools[|tools| - 1]
  {
    if b == 0 || tools == [] then None
    else if b <= |tools| then Some(tools[b - 1])
    else Some(tools[|tools| - 1])
  }

  /** After `n` lines the layer counter is the number of markers seen less
      one, and the scheduled tool is that layer's entry of the tool sequence,
      the last entry once the sequence has run out, or none before the first
      marker or with an empty sequence. */
  lemma {:induction false} CursorCounts(positions: seq<int>, tools: seq<nat>, n: nat)
    ensures CursorAt(positions, tools, n).layer == Boundaries(positions, n) - 1
    ensures CursorAt(positions, tools, n).current == ToolForLayers(tools, Boundaries(positions, n))
  {
    if n > 0 {
      CursorCounts(positions, tools, n - 1);
    }
  }

  /** The tool scheduled for line `j` is decided by the markers up to and
      including line `j`. */
  lemma ScheduledTool(positions: seq<int>, tools: seq<nat>, j: nat)
    ensures ScheduledAt(positions, tools, j) == ToolForLayers(tools, Boundaries(positions, j + 1))
  {
    CursorCounts(positions, tools, j + 1);
  }

  /** No marker among the first `n` lines means no layer has started. */
  lemma {:induction false} NoBoundaries(positions: seq<int>, n: nat)
    ensures Boundaries(positions, n) == 0 <==> forall k :: 0 <= k < n ==> k !in positions
  {
    if n > 0 {
      NoBoundaries(positions, n - 1);
    }
  }

  /** The lines before the first layer marker are copied unchanged. */
  lemma LinesBeforeFirstMarkerKept(names: seq<string>, lines: seq<string>, positions: seq<int>, tools: seq<nat>, j: nat)
    requires j < |lines| && Rewrite(names, lines, positions, tools).Ok?
    requires forall k :: 0 <= k <= j ==> k !in positions
    ensures Rewrite(names, lines, positions, tools).value[j] == lines[j]
  {
    NoBoundaries(positions, j + 1);
    ScheduledTool(positions, tools, j);
    UnscheduledLineKept(names, lines, positions, tools, j);
  }

  /** A file without layer markers comes back unchanged. */
  lemma NoMarkersKeepsAll(names: seq<string>, lines: seq<string>, positions: seq<int>, tools: seq<nat>)
    requires forall k :: 0 <= k < |lines| ==> k !in positions
    ensures Rewrite(names, lines, positions, tools) == Ok(lines)
  {
    forall j | 0 <= j < |lines|
      ensures ScheduledAt(positions, tools, j).None?
    {
      NoBoundaries(positions, j + 1);
      ScheduledTool(positions, tools, j);
    }
    NothingScheduledKeepsAll(names, lines, positions, tools);
  }

  /** With an empty tool sequence the file comes back unchanged. */
  lemma NoToolsKeepsAll(names: seq<string>, lines: seq<string>, positions: seq<int>)
    ensures Rewrite(names, lines, positions, []) == Ok(lines)
  {
    forall j | 0 <= j < |lines|
      ensures ScheduledAt(positions, [], j).None?
    {
      ScheduledTool(positions, [], j);
    }
    NothingScheduledKeepsAll(names, lines, positions, []);
  }

  // ----- What the mounted tool can be -----

  /** `t` is none or the tool of a layer that has started. */
  predicate ScheduledBy(tools: seq<nat>, layer: int, t: Option<nat>)
  {
    t.None? || exists k :: 0 <= k <= layer && k < |tools| && t == Some(tools[k])
  }

  /** The tool the pass believes mounted is only ever one the schedule has
      already asked for. */
  lemma {:induction false} ActiveToolScheduled(names: seq<string>, lines: seq<string>, positions: seq<int>, tools: seq<nat>, n: nat)
    requires n <= |lines| && RunUpTo(names, lines, positions, tools, n).Ok?
    ensures ScheduledBy(tools, CursorAt(positions, tools, n).layer, RunUpTo(names, lines, positions, tools, n).value.state.active)
  {
    if n > 0 {
      RunStep(names, lines, positions, tools, n);
      ActiveToolScheduled(names, lines, positions, tools, n - 1);
      CursorCounts(positions, tools, n);
      var layer := CursorAt(positions, tools, n).layer;
      var before := RunUpTo(names, lines, positions, tools, n - 1).value.state.active;
      var after := RunUpTo(names, lines, positions, tools, n).value.state.active;
      var cur := ScheduledAt(positions, tools, n - 1);
      assert cur == CursorAt(positions, tools, n).current;
      assert after == before || after == cur;
      if after != before && after.Some? {
        var b := Boundaries(positions, n);
        var k := if b <= |tools| then b - 1 else |tools| - 1;
        assert 0 <= k <= layer && k < |tools| && after == Some(tools[k]);
      }
    }
  }

  // ----- When the pass fails -----

  /** A pass fails only on a tool-name lookup past the end of the names, at a
      line that has a tool scheduled, for that tool or for the tool the line's
      temperature switch names. */
  lemma {:induction false} RunFailure(names: seq<string>, lines: seq<string>, positions: seq<int>, tools: seq<nat>, n: nat)
    requires n <= |lines| && RunUpTo(names, lines, positions, tools, n).Err?
    ensures var e := RunUpTo(names, lines, positions, tools, n).error;
      e.line < n && e.tool >= |names| && ScheduledAt(positions, tools, e.line).Some?
      && (Some(e.tool) == ScheduledAt(positions, tools, e.line) || Some(e.tool) == ToolNumber(M104Pattern, lines[e.line]))
  {
    if RunUpTo(names, lines, positions, tools, n - 1).Err? {
      RunFailure(names, lines, positions, tools, n - 1);
    }
  }

  /** The same, for the whole file. */
  lemma RewriteFailure(names: seq<string>, lines: seq<string>, positions: seq<int>, tools: seq<nat>)
    requires Rewrite(names, lines, positions, tools).Err?
    ensures var e := Rewrite(names, lines, positions, tools).error;
      e.line < |lines| && e.tool >= |names| && ScheduledAt(positions, tools, e.line).Some?
      && (Some(e.tool) == ScheduledAt(positions, tools, e.line) || Some(e.tool) == ToolNumber(M104Pattern, lines[e.line]))
  {
    RunFailure(names, lines, positions, tools, |lines|);
  }

  /** Every tool the sequence schedules, and every tool a temperature switch
      names, has a name. */
  predicate NamesCover(names: seq<string>, lines: seq<string>, tools: seq<nat>)
  {
    (forall k :: 0 <= k < |tools| ==> tools[k] < |names|)
    && (forall j :: 0 <= j < |lines| ==> NamedOrAbsent(names, ToolNumber(M104Pattern, lines[j])))
  }

  predicate NamedOrAbsent(names: seq<string>, t: Option<nat>)
  {
    t.None? || t.value < |names|
  }

  /** One more line does not fail when its scheduled tool and the tool its
      temperature switch names both have names. */
  lemma StepSucceeds(names: seq<string>, lines: seq<string>, positions: seq<int>, tools: seq<nat>, i: nat)
    requires i < |lines| && RunUpTo(names, lines, positions, tools, i).Ok?
    requires NamedOrAbsent(names, ScheduledAt(positions, tools, i))
    requires NamedOrAbsent(names, ToolNumber(M104Pattern, lines[i]))
    ensures RunUpTo(names, lines, positions, tools, i + 1).Ok?
  {
    var before := RunUpTo(names, lines, positions, tools, i).value;
    var cursor := Advance(positions, tools, i, before.state.cursor);
    var active := before.state.active;
    if cursor.current.Some? {
      var step := LineStep(names, lines[i], cursor.current.value, active);
      RunUpToNext(names, lines, positions, tools, i, before, cursor, step);
    } else {
      RunUpToNext(names, lines, positions, tools, i, before, cursor, Go(lines[i], active));
    }
  }

  /** When every tool involved has a name the pass succeeds. */
  lemma {:induction false} RunSucceeds(names: seq<string>, lines: seq<string>, positions: seq<int>, tools: seq<nat>, n: nat)
    requires n <= |lines| && NamesCover(names, lines, tools)
    ensures RunUpTo(names, lines, positions, tools, n).Ok?
  {
    if n > 0 {
      RunSucceeds(names, lines, positions, tools, n - 1);
      assert NamedOrAbsent(names, ScheduledAt(positions, tools, n - 1)) by {
        ScheduledTool(positions, tools, n - 1);
      }
      assert NamedOrAbsent(names, ToolNumber(M104Pattern, lines[n - 1]));
      StepSucceeds(names, lines, positions, tools, n - 1);
    }
  }

  /** The same, for the whole file. */
  lemma RewriteSucceeds(names: seq<string>, lines: seq<string>, positions: seq<int>, tools: seq<nat>)
    requires NamesCover(names, lines, tools)
    ensures Rewrite(names, lines, positions, tools).Ok?
  {
    RunSucceeds(names, lines, positions, tools, |lines|);
  }
}

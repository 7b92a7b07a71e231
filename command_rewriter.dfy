/** The command rewriter: one forward pass over the lines of a G-code file
    that follows the layer boundaries, keeps track of the tool scheduled for
    the current layer and of the tool believed to be mounted, and rewrites the
    tool commands so that each layer uses its scheduled tool. */
module CommandRewriter {
  import opened Wrappers
  import opened Text
  import opened Patterns

  /** `tool_names[t]` with `t` past the end of the list raises IndexError;
      the pass then stops and no output is produced. */
  datatype RewriteError = ToolNameIndex(line: nat, tool: nat)

  /** How far the pass has come through the layers: the layer reached (-1
      before the first boundary) and the tool scheduled for it (`None` before
      the first boundary). */
  datatype Cursor = Cursor(layer: int, current: Option<nat>)

  /** The state between two lines: the cursor and the tool believed mounted
      (`active_tool`). */
  datatype State = State(cursor: Cursor, active: Option<nat>)

  /** What one recogniser leaves behind on a line: the value of the output
      line so far and the mounted tool, and whether the remaining recognisers
      still run (`Go`) or the line is done (`Stop`, the `continue` of the
      loop); or the IndexError of a tool-name lookup. */
  datatype Stage =
    | Go(out: string, active: Option<nat>)
    | Stop(out: string, active: Option<nat>)
    | Fail(tool: nat)

  /** The tool number group 1 of the leftmost match of `toks` gives. */
  function ToolNumber(toks: seq<Token>, line: string): (r: Option<nat>)
    ensures r.Some? <==> Matches(toks, line)
    ensures r.Some? ==> r.value == DigitsValue(Find(toks, line).value)
  {
    match Find(toks, line)
    case None => None
    case Some(g) => Some(DigitsValue(g))
  }

  /** The tool number of a bare tool select `T<n>;` at the start of a line. */
  function SimpleToolNumber(line: string): (r: Option<nat>)
    ensures r.Some? == SimpleAt(line).Some?
    ensures r.Some? ==> 1 <= |line| && line[0] == 'T' && r.value == DigitsValue(line[1..1 + DigitSpan(line, 1)])
  {
    SimpleMatchHere(line);
    match MatchAt(SimpleToolPattern, line, 0)
    case None => None
    case Some(m) => Some(DigitsValue(m.group))
  }

  /** `out` comments `line` out as a skipped command. */
  predicate IsSkipOf(out: string, line: string)
  {
    var head := "; " + line + " - skipped ";
    |head| <= |out| && out[..|head|] == head
  }

  /** The comment that replaces a redundant command; `what` is `"parking "`,
      `"pickup "` or empty. */
  function SkipNote(line: string, what: string, cur: nat, name: string): (r: string)
    ensures IsSkipOf(r, line)
  {
    var head := "; " + line + " - skipped ";
    var r := head + (what + "as T" + NatToString(cur) + " (" + name + ") is already active");
    assert r[..|head|] == head;
    r
  }

  /** Park: `P0 S1 L2 D0` while the scheduled tool is already mounted is
      commented out and ends the line. */
  function ParkStage(names: seq<string>, line: string, cur: nat, active: Option<nat>): (r: Stage)
    ensures r.Fail? ==> r.tool >= |names| && r.tool == cur
    ensures !r.Fail? ==> r.active == active
    ensures r.Go? ==> r.out == line
    ensures r.Stop? ==> IsSkipOf(r.out, line)
  {
    if Matches(ParkPattern, line) && active == Some(cur) then
      if cur < |names| then Stop(SkipNote(line, "parking ", cur, names[cur]), active) else Fail(cur)
    else Go(line, active)
  }

  /** Pickup: a pickup of another tool picks up the scheduled one instead; a
      pickup of the scheduled tool while it is mounted is commented out and
      ends the line; a pickup of the scheduled tool mounts it. */
  function PickupStage(names: seq<string>, line: string, cur: nat, out: string, active: Option<nat>): (r: Stage)
    ensures r.Fail? ==> r.tool >= |names| && r.tool == cur
    ensures !r.Fail? ==> r.active == active || r.active == Some(cur)
    ensures r.Stop? ==> IsSkipOf(r.out, line)
  {
    match ToolNumber(PickupPattern, line)
    case None => Go(out, active)
    case Some(n) =>
      if n != cur then Go(SubAll(ToolToken, line, "T" + NatToString(cur)), Some(cur))
      else if active == Some(cur) then
        if cur < |names| then Stop(SkipNote(line, "pickup ", cur, names[cur]), active) else Fail(cur)
      else Go(out, Some(cur))
  }

  /** The digits after the first `letter` of the line that is followed by
      digits, or `default` when there is none. */
  function ParamOr(letter: char, line: string, default: string): (r: string)
    requires |default| >= 1 && AllDigits(default)
    ensures |r| >= 1 && AllDigits(r)
    ensures Find(ParamPattern(letter), line).Some? ==> r == Find(ParamPattern(letter), line).value
    ensures Find(ParamPattern(letter), line).None? ==> r == default
  {
    match Find(ParamPattern(letter), line)
    case Some(g) => ParamGroupNonEmpty(letter, line); g
    case None => default
  }

  /** The temperature parameters of the rebuilt command: `P` defaults to 120,
      `Q` to `p + cur + 1` and `S` to 210. */
  function M104P(line: string): (p: string)
    ensures |p| >= 1 && AllDigits(p)
    ensures Find(ParamPattern('P'), line).Some? ==> p == Find(ParamPattern('P'), line).value
    ensures Find(ParamPattern('P'), line).None? ==> p == "120"
  {
    ParamOr('P', line, "120")
  }

  function M104Q(line: string, cur: nat): (q: string)
    ensures |q| >= 1 && AllDigits(q)
    ensures Find(ParamPattern('Q'), line).Some? ==> q == Find(ParamPattern('Q'), line).value
    ensures Find(ParamPattern('Q'), line).None? ==> DigitsValue(q) == DigitsValue(M104P(line)) + cur + 1
  {
    ParamOr('Q', line, NatToString(DigitsValue(M104P(line)) + cur + 1))
  }

  function M104S(line: string): (s: string)
    ensures |s| >= 1 && AllDigits(s)
    ensures Find(ParamPattern('S'), line).Some? ==> s == Find(ParamPattern('S'), line).value
    ensures Find(ParamPattern('S'), line).None? ==> s == "210"
  {
    ParamOr('S', line, "210")
  }

  /** ` {letter}{value}` followed by `rest`. */
  function Param(letter: char, value: string, rest: string): string
  {
    " " + ([letter] + (value + rest))
  }

  /** `M104.1 T{cur} P{p} Q{q} S{s}` followed by `tail`. */
  function M104Command(line: string, cur: nat, tail: string): (r: string)
    ensures |r| > 8 && r[..8] == "M104.1 T"
  {
    "M104.1 T" + (NatToString(cur) + Param('P', M104P(line), Param('Q', M104Q(line, cur), Param('S', M104S(line), tail))))
  }

  /** The note appended to a rebuilt switch on a line without a comment. */
  function SwitchNote(names: seq<string>, was: nat, cur: nat): (r: string)
    requires was < |names| && cur < |names|
    ensures |r| > 3 && r[..3] == " ; "
  {
    " ; switched from T" + NatToString(was) + " (" + names[was] + ") to T" + NatToString(cur) + " (" + names[cur] + ")"
  }

  /** Temperature switch: `M104.1 T<old>` with another tool than the scheduled
      one is rebuilt for the scheduled tool unless that tool is already
      mounted, in which case it is commented out and ends the line. */
  function M104Stage(names: seq<string>, line: string, cur: nat, out: string, active: Option<nat>): (r: Stage)
    ensures r.Fail? ==> r.tool >= |names| && (r.tool == cur || ToolNumber(M104Pattern, line) == Some(r.tool))
    ensures !r.Fail? ==> r.active == active || r.active == Some(cur)
    ensures r.Stop? ==> IsSkipOf(r.out, line)
  {
    match ToolNumber(M104Pattern, line)
    case None => Go(out, active)
    case Some(was) =>
      if was == cur then Go(out, active)
      else if active != Some(cur) then
        match Comment(line)
        case Some(c) => Go(M104Command(line, cur, " " + c), Some(cur))
        case None =>
          if was >= |names| then Fail(was)
          else if cur >= |names| then Fail(cur)
          else Go(M104Command(line, cur, SwitchNote(names, was, cur)), Some(cur))
      else if cur < |names| then Stop(SkipNote(line, "", cur, names[cur]), active)
      else Fail(cur)
  }

  /** Parametrised tool command `T<n> S.. L.. D..` with another tool: every tool
      token that is a word of its own names the scheduled tool. */
  function ToolStage(line: string, cur: nat, out: string, active: Option<nat>): (r: Stage)
    ensures r.Go? && (r.active == active || r.active == Some(cur))
  {
    match ToolNumber(ToolPattern, line)
    case Some(was) =>
      if was != cur then Go(SubAll(WordToolToken, line, "T" + NatToString(cur)), Some(cur))
      else Go(out, active)
    case None => Go(out, active)
  }

  /** Bare tool select `T<n>;` with another tool: the leading tool token names
      the scheduled tool. */
  function SimpleStage(line: string, cur: nat, out: string, active: Option<nat>): (r: Stage)
    ensures r.Go? && (r.active == active || r.active == Some(cur))
  {
    match SimpleToolNumber(line)
    case Some(was) =>
      if was != cur then Go(SubAtStart(ToolToken, line, "T" + NatToString(cur)), Some(cur))
      else Go(out, active)
    case None => Go(out, active)
  }

  /** One line after the first layer boundary: the five recognisers in their
      fixed order, each looking at the original line. The output is the last
      value written; the mounted tool is only ever kept or set to the
      scheduled one; a stopped line is a skip comment; a failure is a name
      lookup past the end of the list, for the scheduled tool or for the tool
      a temperature switch names. */
  function LineStep(names: seq<string>, line: string, cur: nat, active: Option<nat>): (r: Stage)
    ensures r.Fail? ==> r.tool >= |names| && (r.tool == cur || ToolNumber(M104Pattern, line) == Some(r.tool))
    ensures !r.Fail? ==> r.active == active || r.active == Some(cur)
    ensures r.Stop? ==> IsSkipOf(r.out, line)
  {
    var s1 := ParkStage(names, line, cur, active);
    if !s1.Go? then s1
    else
      var s2 := PickupStage(names, line, cur, s1.out, s1.active);
      if !s2.Go? then s2
      else
        var s3 := M104Stage(names, line, cur, s2.out, s2.active);
        if !s3.Go? then s3
        else
          var s4 := ToolStage(line, cur, s3.out, s3.active);
          SimpleStage(line, cur, s4.out, s4.active)
  }

  /** A line before the first boundary is passed through. */
  function ProcessLine(names: seq<string>, line: string, scheduled: Option<nat>, active: Option<nat>): Stage
  {
    match scheduled
    case None => Go(line, active)
    case Some(cur) => LineStep(names, line, cur, active)
  }

  /** Entering line `i`: a boundary line moves to the next layer, whose tool
      is scheduled when the tool sequence is long enough. */
  function Advance(positions: seq<int>, tools: seq<nat>, i: nat, c: Cursor): (r: Cursor)
    requires c.layer >= -1
    ensures r.layer >= c.layer >= -1
  {
    if i in positions then
      var layer := c.layer + 1;
      Cursor(layer, if layer < |tools| then Some(tools[layer]) else c.current)
    else c
  }

  /** The cursor after the first `n` lines. */
  function CursorAt(positions: seq<int>, tools: seq<nat>, n: nat): (c: Cursor)
    ensures c.layer >= -1
  {
    if n == 0 then Cursor(-1, None) else Advance(positions, tools, n - 1, CursorAt(positions, tools, n - 1))
  }

  /** The tool scheduled while line `j` is processed. */
  function ScheduledAt(positions: seq<int>, tools: seq<nat>, j: nat): Option<nat>
  {
    Advance(positions, tools, j, CursorAt(positions, tools, j)).current
  }

  datatype Progress = Progress(out: seq<string>, state: State)

  const Start: State := State(Cursor(-1, None), None)

  /** The pass over the first `n` lines: one output line per input line, and
      a cursor that depends on the layer positions and the tool sequence
      only. */
  function RunUpTo(names: seq<string>, lines: seq<string>, positions: seq<int>, tools: seq<nat>, n: nat)
    : (r: Result<Progress, RewriteError>)
    requires n <= |lines|
    ensures r.Ok? ==> |r.value.out| == n && r.value.state.cursor == CursorAt(positions, tools, n)
  {
    if n == 0 then Ok(Progress([], Start))
    else
      match RunUpTo(names, lines, positions, tools, n - 1)
      case Err(e) => Err(e)
      case Ok(p) =>
        var c := Advance(positions, tools, n - 1, p.state.cursor);
        match ProcessLine(names, lines[n - 1], c.current, p.state.active)
        case Fail(t) => Err(ToolNameIndex(n - 1, t))
        case Go(o, a) => Ok(Progress(p.out + [o], State(c, a)))
        case Stop(o, a) => Ok(Progress(p.out + [o], State(c, a)))
  }

  /** The rewritten lines, or the IndexError that stops the pass. */
  function Rewrite(names: seq<string>, lines: seq<string>, positions: seq<int>, tools: seq<nat>)
    : (r: Result<seq<string>, RewriteError>)
    ensures r.Ok? ==> |r.value| == |lines|
  {
    match RunUpTo(names, lines, positions, tools, |lines|)
    case Err(e) => Err(e)
    case Ok(p) => Ok(p.out)
  }

  /** One more line of the pass: the cursor advances and the line is
      processed with the scheduled tool and the mounted tool. */
  lemma RunUpToNext(names: seq<string>, lines: seq<string>, positions: seq<int>, tools: seq<nat>, i: nat,
                    before: Progress, cursor: Cursor, step: Stage)
    requires i < |lines| && RunUpTo(names, lines, positions, tools, i) == Ok(before)
    requires cursor == Advance(positions, tools, i, before.state.cursor)
    requires cursor.current.None? ==> step == Go(lines[i], before.state.active)
    requires cursor.current.Some? ==> step == LineStep(names, lines[i], cursor.current.value, before.state.active)
    ensures step.Fail? ==> RunUpTo(names, lines, positions, tools, i + 1) == Err(ToolNameIndex(i, step.tool))
    ensures !step.Fail? ==>
      RunUpTo(names, lines, positions, tools, i + 1) == Ok(Progress(before.out + [step.out], State(cursor, step.active)))
  {
  }

  /** A pass that fails on some line fails as a whole with that error. */
  lemma RewriteFails(names: seq<string>, lines: seq<string>, positions: seq<int>, tools: seq<nat>, m: nat)
    requires m <= |lines| && RunUpTo(names, lines, positions, tools, m).Err?
    ensures Rewrite(names, lines, positions, tools) == Err(RunUpTo(names, lines, positions, tools, m).error)
  {
    ErrorPersists(names, lines, positions, tools, m, |lines|);
  }

  /** Once the pass has failed it stays failed with the same error. */
  lemma {:induction false} ErrorPersists(names: seq<string>, lines: seq<string>, positions: seq<int>, tools: seq<nat>, m: nat, n: nat)
    requires m <= n <= |lines|
    requires RunUpTo(names, lines, positions, tools, m).Err?
    ensures RunUpTo(names, lines, positions, tools, n) == RunUpTo(names, lines, positions, tools, m)
    decreases n - m
  {
    if m < n {
      ErrorPersists(names, lines, positions, tools, m, n - 1);
    }
  }

  /** What a recogniser of the loop body leaves in entry `i` of the copied
      lines: the output it wrote, unless its name lookup failed; no other entry
      changes. */
  twostate predicate WroteStage(modified: array<string>, i: nat, s: Stage)
    reads modified
    requires i < modified.Length
  {
    (!s.Fail? ==> modified[i] == s.out)
    && forall k :: 0 <= k < modified.Length && k != i ==> modified[k] == old(modified[k])
  }

  /** The park recogniser of the loop body of `modify_gcode`. */
  method ParkStep(names: seq<string>, modified: array<string>, i: nat, line: string, cur: nat, active: Option<nat>)
    returns (s: Stage)
    requires i < modified.Length && modified[i] == line
    modifies modified
    ensures s == ParkStage(names, line, cur, active) && WroteStage(modified, i, s)
  {
    if Matches(ParkPattern, line) && active == Some(cur) {
      if cur >= |names| {
        return Fail(cur);
      }
      modified[i] := SkipNote(line, "parking ", cur, names[cur]);
      return Stop(modified[i], active);
    }
    s := Go(line, active);
  }

  /** The pickup recogniser of the loop body of `modify_gcode`. */
  method PickupStep(names: seq<string>, modified: array<string>, i: nat, line: string, cur: nat, active: Option<nat>)
    returns (s: Stage)
    requires i < modified.Length
    modifies modified
    ensures s == PickupStage(names, line, cur, old(modified[i]), active) && WroteStage(modified, i, s)
  {
    var activeTool := active;
    var pickup := ToolNumber(PickupPattern, line);
    if pickup.Some? {
      if pickup.value != cur {
        modified[i] := SubAll(ToolToken, line, "T" + NatToString(cur));
        activeTool := Some(cur);
      } else if activeTool == Some(cur) {
        if cur >= |names| {
          return Fail(cur);
        }
        modified[i] := SkipNote(line, "pickup ", cur, names[cur]);
        return Stop(modified[i], activeTool);
      } else {
        activeTool := Some(cur);
      }
    }
    s := Go(modified[i], activeTool);
  }

  /** The `M104.1` recogniser of the loop body of `modify_gcode`. */
  method M104Step(names: seq<string>, modified: array<string>, i: nat, line: string, cur: nat, active: Option<nat>)
    returns (s: Stage)
    requires i < modified.Length
    modifies modified
    ensures s == M104Stage(names, line, cur, old(modified[i]), active) && WroteStage(modified, i, s)
  {
    var m104 := ToolNumber(M104Pattern, line);
    if m104.Some? && m104.value != cur {
      var oldTool := m104.value;
      if active != Some(cur) {
        var tail: string;
        var comment := Comment(line);
        if comment.Some? {
          tail := " " + comment.value;
        } else {
          if oldTool >= |names| {
            return Fail(oldTool);
          }
          if cur >= |names| {
            return Fail(cur);
          }
          tail := SwitchNote(names, oldTool, cur);
        }
        modified[i] := M104Command(line, cur, tail);
        return Go(modified[i], Some(cur));
      }
      if cur >= |names| {
        return Fail(cur);
      }
      modified[i] := SkipNote(line, "", cur, names[cur]);
      return Stop(modified[i], active);
    }
    s := Go(modified[i], active);
  }

  /** The `T<n> S.. L.. D..` recogniser of the loop body of `modify_gcode`. */
  method ToolStep(modified: array<string>, i: nat, line: string, cur: nat, active: Option<nat>)
    returns (s: Stage)
    requires i < modified.Length
    modifies modified
    ensures s == ToolStage(line, cur, old(modified[i]), active) && WroteStage(modified, i, s)
  {
    var tool := ToolNumber(ToolPattern, line);
    if tool.Some? && tool.value != cur {
      modified[i] := SubAll(WordToolToken, line, "T" + NatToString(cur));
      return Go(modified[i], Some(cur));
    }
    s := Go(modified[i], active);
  }

  /** The `T<n>;` recogniser of the loop body of `modify_gcode`. */
  method SimpleStep(modified: array<string>, i: nat, line: string, cur: nat, active: Option<nat>)
    returns (s: Stage)
    requires i < modified.Length
    modifies modified
    ensures s == SimpleStage(line, cur, old(modified[i]), active) && WroteStage(modified, i, s)
  {
    var simple := SimpleToolNumber(line);
    if simple.Some? && simple.value != cur {
      modified[i] := SubAtStart(ToolToken, line, "T" + NatToString(cur));
      return Go(modified[i], Some(cur));
    }
    s := Go(modified[i], active);
  }

  /** The body of the loop of `modify_gcode` for a line after the first
      boundary: the recognisers in their order, each reading the original
      line, until one ends the line (the loop's `continue`) or a name lookup
      raises. Only entry `i` of the copied lines changes. */
  method RewriteLine(names: seq<string>, modified: array<string>, i: nat, line: string, cur: nat, active: Option<nat>)
    returns (s: Stage)
    requires i < modified.Length && modified[i] == line
    modifies modified
    ensures s == LineStep(names, line, cur, active) && WroteStage(modified, i, s)
    ensures !s.Fail? ==> modified[..i + 1] == old(modified[..i]) + [s.out]
  {
    ghost var done := modified[..i];
    s := RewriteStages(names, modified, i, line, cur, active);
    if !s.Fail? {
      assert modified[..i + 1] == done + [s.out] by {
        assert forall k :: 0 <= k < i ==> modified[k] == done[k];
      }
    }
  }

  /** The recognisers of the loop body in their order. */
  method RewriteStages(names: seq<string>, modified: array<string>, i: nat, line: string, cur: nat, active: Option<nat>)
    returns (s: Stage)
    requires i < modified.Length && modified[i] == line
    modifies modified
    ensures s == LineStep(names, line, cur, active) && WroteStage(modified, i, s)
  {
    s := ParkStep(names, modified, i, line, cur, active);
    if !s.Go? {
      return;
    }
    s := PickupStep(names, modified, i, line, cur, s.active);
    if !s.Go? {
      return;
    }
    s := M104Step(names, modified, i, line, cur, s.active);
    if !s.Go? {
      return;
    }
    s := ToolStep(modified, i, line, cur, s.active);
    s := SimpleStep(modified, i, line, cur, s.active);
  }

  /** The start of the loop body of `modify_gcode`: a boundary line moves to
      the next layer and, while the tool sequence lasts, schedules its tool. */
  method EnterLine(layerPositions: seq<int>, toolSequence: seq<nat>, i: nat, currentLayer: int, currentTool: Option<nat>)
    returns (layer: int, tool: Option<nat>)
    requires currentLayer >= -1
    ensures Cursor(layer, tool) == Advance(layerPositions, toolSequence, i, Cursor(currentLayer, currentTool))
  {
    layer, tool := currentLayer, currentTool;
    if i in layerPositions {
      layer := layer + 1;
      if layer < |toolSequence| {
        tool := Some(toolSequence[layer]);
      }
    }
  }

  /** One turn of the loop of `modify_gcode`: enter line `i` and, when a tool
      is scheduled, run the recognisers on it. `failed` is the tool whose name
      lookup raised; otherwise the pass has got through line `i` and the lines
      after it are still the copies of the input. */
  method VisitLine(names: seq<string>, gcodeLines: seq<string>, layerPositions: seq<int>, toolSequence: seq<nat>,
                   modified: array<string>, i: nat, currentLayer: int, currentTool: Option<nat>, activeTool: Option<nat>)
    returns (layer: int, tool: Option<nat>, active: Option<nat>, failed: Option<nat>)
    requires i < modified.Length == |gcodeLines|
    requires forall k :: i <= k < modified.Length ==> modified[k] == gcodeLines[k]
    requires RunUpTo(names, gcodeLines, layerPositions, toolSequence, i)
      == Ok(Progress(modified[..i], State(Cursor(currentLayer, currentTool), activeTool)))
    modifies modified
    ensures failed.Some? ==>
      RunUpTo(names, gcodeLines, layerPositions, toolSequence, i + 1) == Err(ToolNameIndex(i, failed.value))
    ensures failed.None? ==>
      (forall k :: i + 1 <= k < modified.Length ==> modified[k] == gcodeLines[k])
      && RunUpTo(names, gcodeLines, layerPositions, toolSequence, i + 1)
         == Ok(Progress(modified[..i + 1], State(Cursor(layer, tool), active)))
  {
    var line := modified[i];
    assert line == gcodeLines[i];
    ghost var before := Progress(modified[..i], State(Cursor(currentLayer, currentTool), activeTool));
    ghost var cursor := Advance(layerPositions, toolSequence, i, Cursor(currentLayer, currentTool));
    layer, tool := EnterLine(layerPositions, toolSequence, i, currentLayer, currentTool);
    var s: Stage := Go(line, activeTool);
    active, failed := activeTool, None;
    if tool.Some? {
      s := RewriteLine(names, modified, i, line, tool.value, activeTool);
      if s.Fail? {
        failed := Some(s.tool);
        RunUpToNext(names, gcodeLines, layerPositions, toolSequence, i, before, cursor, s);
        return;
      }
      active := s.active;
    } else {
      assert modified[..i + 1] == before.out + [s.out];
    }
    ghost var after := Progress(modified[..i + 1], State(Cursor(layer, tool), active));
    assert after == Progress(before.out + [s.out], State(cursor, s.active));
    RunUpToNext(names, gcodeLines, layerPositions, toolSequence, i, before, cursor, s);
  }

  /** `modify_gcode`: the line list is copied and the loop overwrites entry `i`
      only, after reading the original line, while it keeps the current layer,
      the scheduled tool and the mounted tool up to date. */
  method ModifyGCode(names: seq<string>, gcodeLines: seq<string>, layerPositions: seq<int>, toolSequence: seq<nat>)
    returns (r: Result<seq<string>, RewriteError>)
    ensures r == Rewrite(names, gcodeLines, layerPositions, toolSequence)
  {
    var modified := new string[|gcodeLines|](k requires 0 <= k < |gcodeLines| => gcodeLines[k]);
    var currentLayer := -1;
    var currentTool: Option<nat> := None;
    var activeTool: Option<nat> := None;
    for i := 0 to modified.Length
      invariant modified.Length == |gcodeLines|
      invariant forall k :: i <= k < modified.Length ==> modified[k] == gcodeLines[k]
      invariant RunUpTo(names, gcodeLines, layerPositions, toolSequence, i)
        == Ok(Progress(modified[..i], State(Cursor(currentLayer, currentTool), activeTool)))
    {
      var failed;
      currentLayer, currentTool, activeTool, failed :=
        VisitLine(names, gcodeLines, layerPositions, toolSequence, modified, i, currentLayer, currentTool, activeTool);
      if failed.Some? {
        r := Err(ToolNameIndex(i, failed.value));
        RewriteFails(names, gcodeLines, layerPositions, toolSequence, i + 1);
        return;
      }
    }
    assert modified[..] == modified[..modified.Length];
    r := Ok(modified[..]);
  }
}

/** The middle of `process_file`: locate the layers of a G-code text, schedule
    a tool for each, rewrite the lines and join them again. Reading and
    writing the files is left to the caller. */
module Pipeline {
  import opened Wrappers
  import opened Text
  import opened Patterns
  import opened LayerLocator
  import opened ToolScheduler
  import opened CommandRewriter
  import opened PassProperties

  /** What one run produces: the new text, the number of layers found and
      the tool chosen for each of them. */
  datatype Outcome = Outcome(output: string, totalLayers: nat, toolSequence: seq<nat>)

  /** The scheduler only finishes when no layer needs a tool or some ratio
      entry asks for at least one layer. */
  predicate Schedulable(content: string, ratio: seq<real>)
  {
    MarkerLines(SplitLines(content)) == [] || Block(ratio) != []
  }

  /** The run, as a function of the text, the tool names and the ratio. */
  function Process(names: seq<string>, content: string, ratio: seq<real>): (r: Result<Outcome, RewriteError>)
    requires Schedulable(content, ratio)
    ensures r.Ok? ==> r.value.totalLayers == |MarkerLines(SplitLines(content))| && |r.value.toolSequence| == r.value.totalLayers
  {
    var lines := SplitLines(content);
    var layers := MarkerLines(lines);
    var tools := Schedule(|layers|, ratio);
    match Rewrite(names, lines, layers, tools)
    case Err(e) => Err(e)
    case Ok(out) => Ok(Outcome(JoinLines(out), |layers|, tools))
  }

  /** `process_file` between reading the input and writing the output. */
  method ProcessFile(names: seq<string>, content: string, ratioPattern: seq<real>)
    returns (r: Result<Outcome, RewriteError>)
    requires Schedulable(content, ratioPattern)
    ensures r == Process(names, content, ratioPattern)
  {
    var layerPositions, gcodeLines := ParseLayers(content);
    var totalLayers := |layerPositions|;
    var toolSequence := CalculateToolDistribution(totalLayers, ratioPattern);
    var modified := ModifyGCode(names, gcodeLines, layerPositions, toolSequence);
    match modified
    case Err(e) => r := Err(e);
    case Ok(m) => r := Ok(Outcome(JoinLines(m), totalLayers, toolSequence));
  }

  // ----- Layers found and layers counted -----

  /** Counting marker lines as the rewriter does agrees with the positions the
      locator records. */
  lemma {:induction false} BoundariesAreMarkers(lines: seq<string>, n: nat)
    requires n <= |lines|
    ensures Boundaries(MarkerLines(lines), n) == |MarkerLinesUpTo(lines, n)|
  {
    if n > 0 {
      BoundariesAreMarkers(lines, n - 1);
      assert (n - 1 in MarkerLines(lines)) <==> Contains(lines[n - 1], LayerMarker);
    }
  }

  /** The markers among the first `n` lines are no more than all of them. */
  lemma {:induction false} MarkersGrow(lines: seq<string>, n: nat, m: nat)
    requires n <= m <= |lines|
    ensures |MarkerLinesUpTo(lines, n)| <= |MarkerLinesUpTo(lines, m)|
    decreases m - n
  {
    if n < m {
      MarkersGrow(lines, n, m - 1);
    }
  }

  /** Every line of a text is rewritten for the tool the schedule gives the
      layer it lies in: none before the first marker, and otherwise the entry
      numbered by the markers up to and including that line. */
  lemma LayerTool(content: string, ratio: seq<real>, j: nat)
    requires Schedulable(content, ratio) && j < |SplitLines(content)|
    ensures var lines := SplitLines(content);
      var layers := MarkerLines(lines);
      var tools := Schedule(|layers|, ratio);
      var b := Boundaries(layers, j + 1);
      b <= |tools|
      && ScheduledAt(layers, tools, j) == (if b == 0 then None else Some(tools[b - 1]))
  {
    var lines := SplitLines(content);
    var layers := MarkerLines(lines);
    var tools := Schedule(|layers|, ratio);
    assert |tools| == |layers| by {
      ScheduleShape(|layers|, ratio);
    }
    assert Boundaries(layers, j + 1) <= |layers| by {
      BoundariesAreMarkers(lines, j + 1);
      MarkersGrow(lines, j + 1, |lines|);
    }
    ScheduledTool(layers, tools, j);
  }

  // ----- Whole runs -----

  /** A text without layer markers is written back exactly as read, with no
      layers and no tools. */
  lemma ProcessWithoutMarkers(names: seq<string>, content: string, ratio: seq<real>)
    requires !Contains(content, LayerMarker)
    ensures Schedulable(content, ratio)
    ensures Process(names, content, ratio) == Ok(Outcome(content, 0, []))
  {
    NoMarkerNoLayers(content);
    ScheduleEmpty(ratio);
    NoToolsKeepsAll(names, SplitLines(content), []);
    JoinSplit(content);
  }

  /** When there is a name for every ratio entry and for every tool a
      temperature switch names, the run succeeds, reports one tool per layer
      and writes one line per line read. */
  lemma ProcessSucceeds(names: seq<string>, content: string, ratio: seq<real>)
    requires Schedulable(content, ratio) && |ratio| <= |names|
    requires forall j :: 0 <= j < |SplitLines(content)| ==> NamedOrAbsent(names, ToolNumber(M104Pattern, SplitLines(content)[j]))
    ensures Process(names, content, ratio).Ok?
    ensures var o := Process(names, content, ratio).value;
      var lines := SplitLines(content);
      o.totalLayers == |MarkerLines(lines)| && |o.toolSequence| == o.totalLayers
      && exists out :: |out| == |lines| && o.output == JoinLines(out)
  {
    var lines := SplitLines(content);
    var layers := MarkerLines(lines);
    var tools := Schedule(|layers|, ratio);
    ScheduleShape(|layers|, ratio);
    assert NamesCover(names, lines, tools);
    RewriteSucceeds(names, lines, layers, tools);
    var out := Rewrite(names, lines, layers, tools).value;
    assert |out| == |lines|;
  }

  /** A run fails only on a tool without a name. */
  lemma ProcessFailure(names: seq<string>, content: string, ratio: seq<real>)
    requires Schedulable(content, ratio) && Process(names, content, ratio).Err?
    ensures Process(names, content, ratio).error.tool >= |names|
    ensures Process(names, content, ratio).error.line < |SplitLines(content)|
  {
    var lines := SplitLines(content);
    var layers := MarkerLines(lines);
    RewriteFailure(names, lines, layers, Schedule(|layers|, ratio));
  }
}

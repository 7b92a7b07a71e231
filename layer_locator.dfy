/** The layer locator: splits a G-code text into lines and records the index
    of every line that starts a new layer. */
module LayerLocator {
  import opened Text

  /** The boundary marker the slicer writes at each layer change. */
  const LayerMarker: string := ";LAYER_CHANGE"

  /** The indices among the first `n` lines whose text contains the marker,
      in order. */
  function MarkerLinesUpTo(lines: seq<string>, n: nat): (r: seq<nat>)
    requires n <= |lines|
    ensures forall j :: 0 <= j < |r| ==> r[j] < n
    ensures forall j, k :: 0 <= j < k < |r| ==> r[j] < r[k]
    ensures forall i :: 0 <= i < n ==> (i in r <==> Contains(lines[i], LayerMarker))
  {
    if n == 0 then []
    else
      var r := MarkerLinesUpTo(lines, n - 1);
      if Contains(lines[n - 1], LayerMarker) then r + [n - 1] else r
  }

  /** The layer positions of a list of lines. */
  function MarkerLines(lines: seq<string>): seq<nat>
  {
    MarkerLinesUpTo(lines, |lines|)
  }

  /** `parse_layers`: the lines of the text and the positions of its layers. */
  method ParseLayers(content: string) returns (layers: seq<nat>, lines: seq<string>)
    ensures lines == SplitLines(content)
    ensures layers == MarkerLines(lines)
    ensures forall j :: 0 <= j < |layers| ==> layers[j] < |lines|
    ensures forall j, k :: 0 <= j < k < |layers| ==> layers[j] < layers[k]
    ensures forall i :: 0 <= i < |lines| ==> (i in layers <==> Contains(lines[i], LayerMarker))
  {
    layers := [];
    lines := SplitLines(content);
    for i := 0 to |lines|
      invariant layers == MarkerLinesUpTo(lines, i)
    {
      if Contains(lines[i], LayerMarker) {
        layers := layers + [i];
      }
    }
  }

  /** Lines none of which holds the marker give no layer positions. */
  lemma {:induction false} NoMarkerLinesUpTo(lines: seq<string>, n: nat)
    requires n <= |lines|
    requires forall i :: 0 <= i < n ==> !Contains(lines[i], LayerMarker)
    ensures MarkerLinesUpTo(lines, n) == []
  {
    if n > 0 {
      NoMarkerLinesUpTo(lines, n - 1);
    }
  }

  /** A text in which the marker never appears has no layers. */
  lemma NoMarkerNoLayers(content: string)
    requires !Contains(content, LayerMarker)
    ensures MarkerLines(SplitLines(content)) == []
  {
    var lines := SplitLines(content);
    forall i | 0 <= i < |lines| ensures !Contains(lines[i], LayerMarker) {
      if Contains(lines[i], LayerMarker) {
        ContainsInSplitLine(content, i, LayerMarker);
      }
    }
    NoMarkerLinesUpTo(lines, |lines|);
  }
}

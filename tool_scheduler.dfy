/** The tool scheduler: which tool prints each layer. The ratio pattern gives,
    per tool, how many consecutive layers that tool prints; the block of one
    round ("tool 0 that many times, then tool 1, ...") repeats until every
    layer has a tool. */
module ToolScheduler {

  /** Python's `int(count)` on a float: truncation toward zero. */
  function Trunc(c: real): int
  {
    if c >= 0.0 then c.Floor else -((-c).Floor)
  }

  /** `count % 1 > 0`. With divisor 1, Python's `%` on floats is `c - floor(c)`,
      which is never negative. */
  predicate HasFraction(c: real)
  {
    c - c.Floor as real > 0.0
  }

  /** How many layers the tool whose count is `c` gets in one round:
      `range(int(c))` and one more when `c` has a fractional part. */
  function Appends(c: real): nat
  {
    (if Trunc(c) > 0 then Trunc(c) else 0) + (if HasFraction(c) then 1 else 0)
  }

  /** The least integer not below `c`. */
  function Ceiling(c: real): int
  {
    -((-c).Floor)
  }

  /** For a count that is not negative, one round gives its tool `ceil(c)`
      layers; tools with count 0 get none. */
  lemma AppendsIsCeiling(c: real)
    requires c >= 0.0
    ensures Appends(c) == Ceiling(c)
    ensures Appends(c) == 0 <==> c == 0.0
  {
    var f := c.Floor;
    assert f as real <= c < f as real + 1.0;
    if HasFraction(c) {
      assert (-c).Floor == -f - 1;
    } else {
      assert c == f as real;
      assert (-c).Floor == -f;
    }
  }

  function Repeat(x: nat, n: nat): (r: seq<nat>)
    ensures |r| == n
    ensures forall j :: 0 <= j < n ==> r[j] == x
  {
    seq(n, _ => x)
  }

  /** The part of one round that the first `m` tools give. */
  function BlockUpTo(ratio: seq<real>, m: nat): seq<nat>
    requires m <= |ratio|
  {
    if m == 0 then [] else BlockUpTo(ratio, m - 1) + Repeat(m - 1, Appends(ratio[m - 1]))
  }

  /** One round of the pattern. */
  function Block(ratio: seq<real>): seq<nat>
  {
    BlockUpTo(ratio, |ratio|)
  }

  /** `k` rounds, one after the other. */
  function Rounds(b: seq<nat>, k: nat): (r: seq<nat>)
    ensures |r| == k * |b|
  {
    if k == 0 then [] else b + Rounds(b, k - 1)
  }

  /** The first `n` entries of the endless repetition of `b`. */
  function CyclicPrefix(b: seq<nat>, n: nat): (r: seq<nat>)
    requires b != [] || n == 0
    ensures |r| == n
    decreases n
  {
    if n <= |b| then b[..n] else b + CyclicPrefix(b, n - |b|)
  }

  /** The tool sequence for `total` layers. */
  function Schedule(total: nat, ratio: seq<real>): seq<nat>
    requires total == 0 || Block(ratio) != []
  {
    CyclicPrefix(Block(ratio), total)
  }

  /** `calculate_tool_distribution`. The while loop runs forever when layers
      remain and no tool gets a layer in a round, which the precondition rules
      out. */
  method CalculateToolDistribution(totalLayers: nat, ratioPattern: seq<real>) returns (toolSequence: seq<nat>)
    requires totalLayers == 0 || Block(ratioPattern) != []
    ensures toolSequence == Schedule(totalLayers, ratioPattern)
  {
    ghost var block := Block(ratioPattern);
    ghost var rounds: nat := 0;
    toolSequence := [];
    while |toolSequence| < totalLayers
      invariant |toolSequence| <= totalLayers
      invariant |toolSequence| < totalLayers ==> toolSequence == Rounds(block, rounds)
      invariant |toolSequence| == totalLayers ==> toolSequence == CyclicPrefix(block, totalLayers)
      decreases totalLayers - |toolSequence|
    {
      ghost var before := |toolSequence|;
      for toolIdx: nat := 0 to |ratioPattern|
        invariant |toolSequence| <= totalLayers
        invariant |toolSequence| < totalLayers ==>
          toolSequence == Rounds(block, rounds) + BlockUpTo(ratioPattern, toolIdx)
        invariant |toolSequence| == totalLayers ==> toolSequence == CyclicPrefix(block, totalLayers)
      {
        var count := ratioPattern[toolIdx];
        var r: nat := 0;
        while r < Trunc(count)
          invariant 0 <= r <= (if Trunc(count) > 0 then Trunc(count) else 0)
          invariant |toolSequence| <= totalLayers
          invariant |toolSequence| < totalLayers ==>
            toolSequence == Rounds(block, rounds) + BlockUpTo(ratioPattern, toolIdx) + Repeat(toolIdx, r)
          invariant |toolSequence| == totalLayers ==> toolSequence == CyclicPrefix(block, totalLayers)
        {
          if |toolSequence| < totalLayers {
            Appended(ratioPattern, rounds, toolIdx, r, totalLayers);
            toolSequence := toolSequence + [toolIdx];
          } else {
            break;
          }
          r := r + 1;
        }
        if HasFraction(count) && |toolSequence| < totalLayers {
          Appended(ratioPattern, rounds, toolIdx, r, totalLayers);
          toolSequence := toolSequence + [toolIdx];
        }
        if |toolSequence| >= totalLayers {
          break;
        }
        assert toolSequence == Rounds(block, rounds) + BlockUpTo(ratioPattern, toolIdx) + Repeat(toolIdx, Appends(count));
        RoundStep(ratioPattern, block, rounds, toolIdx);
      }
      if |toolSequence| < totalLayers {
        RoundsSnoc(block, rounds);
        rounds := rounds + 1;
      }
    }
  }

  /** One more append inside a round keeps the sequence a prefix of the
      endless repetition. */
  lemma Appended(ratio: seq<real>, rounds: nat, idx: nat, r: nat, total: nat)
    requires idx < |ratio| && r < Appends(ratio[idx])
    ensures Block(ratio) != []
    ensures var s := Rounds(Block(ratio), rounds) + BlockUpTo(ratio, idx) + Repeat(idx, r) + [idx];
      && s == Rounds(Block(ratio), rounds) + BlockUpTo(ratio, idx) + Repeat(idx, r + 1)
      && (|s| == total ==> s == CyclicPrefix(Block(ratio), total))
  {
    var b := Block(ratio);
    var before := Rounds(b, rounds);
    var part := BlockUpTo(ratio, idx) + Repeat(idx, r + 1);
    AppendedPart(ratio, idx, r);
    assert Repeat(idx, r) + [idx] == Repeat(idx, r + 1);
    var s := before + BlockUpTo(ratio, idx) + Repeat(idx, r) + [idx];
    assert s == before + part;
    if |s| == total {
      RoundsThenPart(b, rounds, part);
    }
  }

  /** The round written so far, with one more layer for tool `idx`, is the
      start of the block. */
  lemma AppendedPart(ratio: seq<real>, idx: nat, r: nat)
    requires idx < |ratio| && r < Appends(ratio[idx])
    ensures var part := BlockUpTo(ratio, idx) + Repeat(idx, r + 1);
      Block(ratio) != [] && |part| <= |Block(ratio)| && part == Block(ratio)[..|part|]
  {
    PartialShare(ratio, idx, r + 1);
    BlockUpToPrefix(ratio, idx + 1, |ratio|);
  }

  /** The first `r` layers of a tool's share, after the tools before it, are
      the start of the round up to and including that tool. */
  lemma PartialShare(ratio: seq<real>, idx: nat, r: nat)
    requires idx < |ratio| && r <= Appends(ratio[idx])
    ensures var part := BlockUpTo(ratio, idx) + Repeat(idx, r);
      |part| <= |BlockUpTo(ratio, idx + 1)| && part == BlockUpTo(ratio, idx + 1)[..|part|]
  {
    var share := Repeat(idx, Appends(ratio[idx]));
    assert BlockUpTo(ratio, idx + 1) == BlockUpTo(ratio, idx) + share;
    assert Repeat(idx, r) == share[..r];
  }

  /** Whole rounds followed by a prefix of the block are a prefix of the
      endless repetition. */
  lemma RoundsThenPart(b: seq<nat>, rounds: nat, part: seq<nat>)
    requires |part| <= |b| && part == b[..|part|] && (b != [] || part == [])
    ensures Rounds(b, rounds) + part == CyclicPrefix(b, rounds * |b| + |part|)
  {
    CyclicPrefixRounds(b, rounds, |part|);
  }

  /** A tool's full share extends the part of the round before it. */
  lemma RoundStep(ratio: seq<real>, b: seq<nat>, rounds: nat, idx: nat)
    requires idx < |ratio|
    ensures Rounds(b, rounds) + BlockUpTo(ratio, idx) + Repeat(idx, Appends(ratio[idx]))
      == Rounds(b, rounds) + BlockUpTo(ratio, idx + 1)
  {
    assert BlockUpTo(ratio, idx + 1) == BlockUpTo(ratio, idx) + Repeat(idx, Appends(ratio[idx]));
  }

  /** A round grows by appending the block. */
  lemma {:induction false} RoundsSnoc(b: seq<nat>, k: nat)
    ensures Rounds(b, k + 1) == Rounds(b, k) + b
  {
    if k > 0 {
      RoundsSnoc(b, k - 1);
    }
  }

  /** The first tools' part of a round is a prefix of the longer part. */
  lemma {:induction false} BlockUpToPrefix(ratio: seq<real>, m: nat, m': nat)
    requires m <= m' <= |ratio|
    ensures |BlockUpTo(ratio, m)| <= |BlockUpTo(ratio, m')|
    ensures BlockUpTo(ratio, m) == BlockUpTo(ratio, m')[..|BlockUpTo(ratio, m)|]
    decreases m' - m
  {
    if m < m' {
      BlockUpToPrefix(ratio, m, m' - 1);
    }
  }

  /** Whole rounds followed by a prefix of the block are a prefix of the
      endless repetition. */
  lemma {:induction false} CyclicPrefixRounds(b: seq<nat>, k: nat, x: nat)
    requires x <= |b|
    requires b != [] || k * |b| + x == 0
    ensures CyclicPrefix(b, k * |b| + x) == Rounds(b, k) + b[..x]
  {
    if k > 0 {
      var rest := (k - 1) * |b| + x;
      assert k * |b| + x == rest + |b|;
      assert b != [] || rest == 0;
      CyclicPrefixRounds(b, k - 1, x);
      assert CyclicPrefix(b, rest + |b|) == b + CyclicPrefix(b, rest) by {
        if rest == 0 {
          assert b[..|b|] == b;
        }
      }
    }
  }

  // ----- Properties of the schedule -----

  /** In round `k` of the schedule, offset `x` has entry `x` of the block. */
  lemma {:induction false} CyclicPrefixRoundAt(b: seq<nat>, n: nat, k: nat, x: nat)
    requires x < |b| && k * |b| + x < n
    ensures CyclicPrefix(b, n)[k * |b| + x] == b[x]
    decreases n
  {
    if n > |b| && k > 0 {
      assert k * |b| + x - |b| == (k - 1) * |b| + x;
      CyclicPrefixRoundAt(b, n - |b|, k - 1, x);
    }
  }

  /** Layer `j` is printed with entry `j mod |block|` of the round. */
  lemma CyclicPrefixAt(b: seq<nat>, n: nat, j: nat)
    requires b != [] && j < n
    ensures CyclicPrefix(b, n)[j] == b[j % |b|]
  {
    assert j == (j / |b|) * |b| + j % |b|;
    CyclicPrefixRoundAt(b, n, j / |b|, j % |b|);
  }

  /** The tools of a round are the tools that get layers in it, each a valid
      index of the pattern. */
  lemma {:induction false} BlockUpToMembers(ratio: seq<real>, m: nat, x: nat)
    requires m <= |ratio|
    ensures x in BlockUpTo(ratio, m) <==> x < m && Appends(ratio[x]) > 0
  {
    if m > 0 {
      BlockUpToMembers(ratio, m - 1, x);
      var c := Appends(ratio[m - 1]);
      RepeatMembers(x, m - 1, c);
      assert BlockUpTo(ratio, m) == BlockUpTo(ratio, m - 1) + Repeat(m - 1, c);
    }
  }

  /** A run of copies of `v` holds `v` alone, and only when it is not empty. */
  lemma RepeatMembers(x: nat, v: nat, c: nat)
    ensures x in Repeat(v, c) <==> c > 0 && x == v
  {
    if c > 0 {
      assert Repeat(v, c)[0] == v;
    }
  }

  /** The schedule has one tool per layer, every tool is an index of the
      pattern, and a tool whose round gives it no layer, such as one with count
      0, never appears. */
  lemma ScheduleShape(total: nat, ratio: seq<real>)
    requires total == 0 || Block(ratio) != []
    ensures |Schedule(total, ratio)| == total
    ensures forall j :: 0 <= j < total ==> Schedule(total, ratio)[j] < |ratio|
    ensures forall j :: 0 <= j < total ==> Appends(ratio[Schedule(total, ratio)[j]]) > 0
  {
    var b := Block(ratio);
    forall j | 0 <= j < total
      ensures Schedule(total, ratio)[j] < |ratio| && Appends(ratio[Schedule(total, ratio)[j]]) > 0
    {
      CyclicPrefixAt(b, total, j);
      BlockUpToMembers(ratio, |ratio|, b[j % |b|]);
    }
  }

  /** With no layers the schedule is empty, whatever the pattern. */
  lemma ScheduleEmpty(ratio: seq<real>)
    ensures Schedule(0, ratio) == []
  {
  }

  /** Every tool that gets layers in a round is used once there are at least
      as many layers as the round is long. */
  lemma ScheduleUsesEveryTool(total: nat, ratio: seq<real>, x: nat)
    requires Block(ratio) != [] && |Block(ratio)| <= total
    requires x < |ratio| && Appends(ratio[x]) > 0
    ensures x in Schedule(total, ratio)
  {
    var b := Block(ratio);
    BlockUpToMembers(ratio, |ratio|, x);
    var j :| 0 <= j < |b| && b[j] == x;
    CyclicPrefixAt(b, total, j);
    assert Schedule(total, ratio)[j] == x;
  }

  function Sum(ratio: seq<real>): real
  {
    if ratio == [] then 0.0 else Sum(ratio[..|ratio| - 1]) + ratio[|ratio| - 1]
  }

  /** The form refuses a pattern whose sum is not positive; a pattern that
      passes gives some tool a layer in every round, so the scheduler stops. */
  lemma {:induction false} PositiveSumGivesLayers(ratio: seq<real>)
    requires Sum(ratio) > 0.0
    ensures Block(ratio) != []
  {
    var m := |ratio|;
    assert ratio != [];
    if ratio[m - 1] > 0.0 {
      var c := ratio[m - 1];
      assert Appends(c) > 0 by {
        if !HasFraction(c) { assert c == c.Floor as real; }
      }
      assert Block(ratio) == BlockUpTo(ratio, m - 1) + Repeat(m - 1, Appends(c));
    } else {
      var front := ratio[..m - 1];
      PositiveSumGivesLayers(front);
      BlockUpToFront(ratio, m - 1);
      assert |BlockUpTo(ratio, m - 1)| > 0;
    }
  }

  /** The first `m` tools' part of a round depends only on their counts. */
  lemma {:induction false} BlockUpToFront(ratio: seq<real>, m: nat)
    requires m <= |ratio|
    ensures BlockUpTo(ratio, m) == Block(ratio[..m])
  {
    BlockUpToSame(ratio, ratio[..m], m);
  }

  lemma {:induction false} BlockUpToSame(r1: seq<real>, r2: seq<real>, m: nat)
    requires m <= |r1| && m <= |r2|
    requires r1[..m] == r2[..m]
    ensures BlockUpTo(r1, m) == BlockUpTo(r2, m)
  {
    if m > 0 {
      assert r1[..m - 1] == r1[..m][..m - 1];
      assert r2[..m - 1] == r2[..m][..m - 1];
      assert r1[m - 1] == r1[..m][m - 1];
      BlockUpToSame(r1, r2, m - 1);
    }
  }

  /** The example of the form's help text: a pattern (2:1) prints two layers
      with the first tool, then one with the second, and repeats. */
  lemma HelpTextExample()
    ensures Schedule(6, [2.0, 1.0]) == [0, 0, 1, 0, 0, 1]
  {
    var ratio := [2.0, 1.0];
    assert Appends(2.0) == 2 && Appends(1.0) == 1;
    assert BlockUpTo(ratio, 1) == [0, 0];
    assert Block(ratio) == [0, 0, 1];
    assert CyclicPrefix([0, 0, 1], 3) == [0, 0, 1];
  }
}

/** What the micro filters do to a 0/1 series, stated run by run.  A maximal
    run of value v is "closed" when it is entered by an edge (it does not touch
    the first sample) and left by an edge (it does not reach the last one).
    Both filters overwrite exactly the closed runs of their value whose
    duration, end-edge timestamp minus start-edge timestamp, is below the
    filter size: the up filter clears closed 1-runs, the down filter fills
    closed 0-runs.  Runs touching either end of the series are never touched,
    although the two filters reach that by different trimming rules. */
module FilterRuns {
  import opened Wrappers
  import opened Series
  import opened MicroFilter

  /** Position p lies in a closed v-run shorter than sizeTicks. */
  predicate ShortRun(x: seq<int>, ts: seq<int>, v: int, sizeTicks: int, p: nat)
    requires |ts| == |x| && p < |x|
  {
    && x[p] == v
    && RunStart(x, p) > 0
    && RunEnd(x, p) < |x|
    && ts[RunEnd(x, p)] - ts[RunStart(x, p)] < sizeTicks
  }

  /** Reference definition: every short closed v-run flipped to 1 - v. */
  function RunFiltered(x: seq<int>, ts: seq<int>, v: int, sizeTicks: int): (y: seq<int>)
    requires |ts| == |x|
  {
    seq(|x|, p requires 0 <= p < |x| => if ShortRun(x, ts, v, sizeTicks, p) then 1 - v else x[p])
  }

  /** 1 when the first sample holds v: the number of exits from v that come
      before the first entry into v. */
  function Lead(x: seq<int>, v: int): int
  {
    if |x| > 0 && x[0] == v then 1 else 0
  }

  // -----------------------------------------------------------------------
  // Edge pairs versus closed runs

  /** The k-th entry into v and the (k + Lead)-th exit from v bound a closed
      v-run. */
  lemma PairIsRun(x: seq<int>, v: int, k: nat)
    requires IsBinary(x) && (v == 0 || v == 1)
    requires k < |Edges(x, Into(v), |x|)| && k + Lead(x, v) < |Edges(x, OutOf(v), |x|)|
    ensures var s, e := Edges(x, Into(v), |x|)[k], Edges(x, OutOf(v), |x|)[k + Lead(x, v)];
      && 0 < s < e < |x| && x[e] != v
      && forall p :: s <= p < e ==> x[p] == v && RunStart(x, p) == s && RunEnd(x, p) == e
  {
    var s, e := Edges(x, Into(v), |x|)[k], Edges(x, OutOf(v), |x|)[k + Lead(x, v)];
    IndexOfEdge(x, Into(v), k);
    IndexOfEdge(x, OutOf(v), k + Lead(x, v));
    EntryCounts(x, v, s);
    PairOrdered(x, v, s, e);
    forall p | s <= p < e
      ensures x[p] == v
    {
      InsidePair(x, v, s, e, p);
    }
    forall p | s <= p < e
      ensures RunStart(x, p) == s && RunEnd(x, p) == e
    {
      RunStartIs(x, p, s);
      RunEndIs(x, p, e);
    }
  }

  /** An exit that has as many exits before it as there are exits up to the
      entry s comes after s. */
  lemma PairOrdered(x: seq<int>, v: int, s: nat, e: nat)
    requires IsBinary(x) && (v == 0 || v == 1) && IsEdge(x, Into(v), s) && IsEdge(x, OutOf(v), e)
    requires |Edges(x, OutOf(v), e)| == |Edges(x, OutOf(v), s + 1)|
    ensures s < e
  {
    if e <= s {
      EdgesPrefix(x, OutOf(v), e + 1, s + 1);
      EdgesStep(x, OutOf(v), e);
    }
  }

  /** Between an entry s and the exit e that the counts pair with it, the
      series stays at v. */
  lemma InsidePair(x: seq<int>, v: int, s: nat, e: nat, p: nat)
    requires IsBinary(x) && (v == 0 || v == 1) && s <= p < e <= |x|
    requires IsEdge(x, Into(v), s)
    requires |Edges(x, OutOf(v), e)| == |Edges(x, Into(v), s)| + Ind(x[0] == v)
    ensures x[p] == v
  {
    EdgesStep(x, Into(v), s);
    EdgesPrefix(x, OutOf(v), p + 1, e);
    EdgesPrefix(x, Into(v), s + 1, p + 1);
    Balance(x, v, p);
  }

  /** A closed v-run is bounded by the k-th entry and the (k + Lead)-th exit,
      where k counts the entries before it. */
  lemma RunIsPair(x: seq<int>, v: int, p: nat) returns (k: nat)
    requires IsBinary(x) && (v == 0 || v == 1) && p < |x|
    requires x[p] == v && RunStart(x, p) > 0 && RunEnd(x, p) < |x|
    ensures k < |Edges(x, Into(v), |x|)| && k + Lead(x, v) < |Edges(x, OutOf(v), |x|)|
    ensures Edges(x, Into(v), |x|)[k] == RunStart(x, p)
    ensures Edges(x, OutOf(v), |x|)[k + Lead(x, v)] == RunEnd(x, p)
  {
    var s, e := RunStart(x, p), RunEnd(x, p);
    ClosedRunEdges(x, v, p);
    k := |Edges(x, Into(v), s)|;
    EdgeIndex(x, Into(v), s);
    EntryCounts(x, v, s);
    EdgesNoneBetween(x, OutOf(v), s + 1, e);
    EdgeIndex(x, OutOf(v), e);
  }

  /** A closed v-run is entered by an entry edge, left by an exit edge, and
      has no exit edge inside. */
  lemma ClosedRunEdges(x: seq<int>, v: int, p: nat)
    requires IsBinary(x) && (v == 0 || v == 1) && p < |x|
    requires x[p] == v && RunStart(x, p) > 0 && RunEnd(x, p) < |x|
    ensures IsEdge(x, Into(v), RunStart(x, p)) && IsEdge(x, OutOf(v), RunEnd(x, p))
    ensures forall i :: RunStart(x, p) < i < RunEnd(x, p) ==> !IsEdge(x, OutOf(v), i)
  {
    RunIsConstant(x, p);
  }

  /** Filtering a strictly increasing list of positions by "later than t"
      keeps exactly the suffix past the last position not later than t. */
  lemma {:induction false} KeepAfterSuffix(ts: seq<int>, s: seq<nat>, t: nat, j: nat)
    requires t < |ts| && j <= |s|
    requires forall i :: 0 <= i < |s| ==> s[i] < |ts|
    requires forall i :: 0 <= i < j ==> ts[s[i]] <= ts[t]
    requires forall i :: j <= i < |s| ==> ts[s[i]] > ts[t]
    ensures KeepAfter(ts, s, t) == s[j..]
    decreases |s|
  {
    if s != [] {
      if j == 0 {
        KeepAfterSuffix(ts, s[1..], t, 0);
        assert ts[s[0]] > ts[t];
        assert s[j..] == [s[0]] + s[1..];
      } else {
        KeepAfterSuffix(ts, s[1..], t, j - 1);
        assert ts[s[0]] <= ts[t];
        assert s[j..] == s[1..][j - 1..];
      }
    }
  }

  /** The "drop exits no later than the first entry" trimming drops exactly
      the Lead exits that precede the first entry. */
  lemma TrimmedExits(x: seq<int>, ts: seq<int>, v: int)
    requires IsBinary(x) && (v == 0 || v == 1) && |ts| == |x| && StrictlyIncreasing(ts)
    requires |Edges(x, Into(v), |x|)| > 0
    ensures Lead(x, v) <= |Edges(x, OutOf(v), |x|)|
    ensures KeepAfter(ts, Edges(x, OutOf(v), |x|), Edges(x, Into(v), |x|)[0])
            == Edges(x, OutOf(v), |x|)[Lead(x, v)..]
  {
    var B := Edges(x, OutOf(v), |x|);
    var s := Edges(x, Into(v), |x|)[0];
    IndexOfEdge(x, Into(v), 0);
    EntryCounts(x, v, s);
    EdgesPrefix(x, OutOf(v), s + 1, |x|);
    forall i | 0 <= i < Lead(x, v)
      ensures ts[B[i]] <= ts[s]
    {
      ExitBeforeEntry(x, v, s, i);
    }
    forall i | Lead(x, v) <= i < |B|
      ensures ts[B[i]] > ts[s]
    {
      ExitAfterEntry(x, v, s, i);
    }
    KeepAfterSuffix(ts, B, s, Lead(x, v));
  }

  /** The exits counted up to the entry s come before it. */
  lemma ExitBeforeEntry(x: seq<int>, v: int, s: nat, i: nat)
    requires IsBinary(x) && (v == 0 || v == 1) && IsEdge(x, Into(v), s)
    requires i < |Edges(x, OutOf(v), s + 1)|
    ensures i < |Edges(x, OutOf(v), |x|)| && Edges(x, OutOf(v), |x|)[i] < s
  {
    EdgesPrefix(x, OutOf(v), s + 1, |x|);
    assert Edges(x, OutOf(v), |x|)[i] == Edges(x, OutOf(v), s + 1)[i];
  }

  /** The exits not counted up to the entry s come after it. */
  lemma ExitAfterEntry(x: seq<int>, v: int, s: nat, i: nat)
    requires s < |x| && |Edges(x, OutOf(v), s + 1)| <= i < |Edges(x, OutOf(v), |x|)|
    ensures Edges(x, OutOf(v), |x|)[i] > s
  {
    var e := Edges(x, OutOf(v), |x|)[i];
    IndexOfEdge(x, OutOf(v), i);
    if e <= s {
      EdgesStep(x, OutOf(v), e);
      EdgesPrefix(x, OutOf(v), e + 1, s + 1);
    }
  }

  /** The zipped pairs are the entry/exit pairs (k, k + Lead), and every such
      pair that exists is among them. */
  predicate PairsAre(x: seq<int>, v: int, starts: seq<nat>, ends: seq<nat>)
  {
    var A, B := Edges(x, Into(v), |x|), Edges(x, OutOf(v), |x|);
    var m := Min(|starts|, |ends|);
    && (forall k :: 0 <= k < m ==>
          k < |A| && starts[k] == A[k] && k + Lead(x, v) < |B| && ends[k] == B[k + Lead(x, v)])
    && (|A| <= m || |B| <= m + Lead(x, v))
  }

  /** Entries cut to as many as the exits left after dropping the first
      Lead exits, zipped with those exits, are the pairs of the v-runs. */
  lemma TrimmedPairsAre(x: seq<int>, v: int, starts: seq<nat>, ends: seq<nat>)
    requires Lead(x, v) <= |Edges(x, OutOf(v), |x|)|
    requires ends == Edges(x, OutOf(v), |x|)[Lead(x, v)..]
    requires starts == if |Edges(x, Into(v), |x|)| > |ends| then Edges(x, Into(v), |x|)[..|ends|] else Edges(x, Into(v), |x|)
    ensures PairsAre(x, v, starts, ends)
  {
    var A, B := Edges(x, Into(v), |x|), Edges(x, OutOf(v), |x|);
    assert Min(|starts|, |ends|) == |starts|;
    forall k | 0 <= k < |starts|
      ensures k < |A| && starts[k] == A[k] && k + Lead(x, v) < |B| && ends[k] == B[k + Lead(x, v)]
    {
    }
  }

  lemma UpPairsAre(x: seq<int>, ts: seq<int>)
    requires IsBinary(x) && |ts| == |x| && StrictlyIncreasing(ts)
    requires UpPairs(x, ts).Ok?
    ensures PairsAre(x, 1, UpPairs(x, ts).value.0, UpPairs(x, ts).value.1)
  {
    assert Into(1) == 1 && OutOf(1) == -1;
    if |Edges(x, 1, |x|)| > 0 {
      TrimmedExits(x, ts, 1);
      TrimmedPairsAre(x, 1, UpPairs(x, ts).value.0, UpPairs(x, ts).value.1);
    }
  }

  lemma DownPairsAre(x: seq<int>, ts: seq<int>)
    requires IsBinary(x) && |ts| == |x| && StrictlyIncreasing(ts)
    ensures PairsAre(x, 0, DownPairs(x, ts).0, DownPairs(x, ts).1)
  {
    assert Into(0) == -1 && OutOf(0) == 1;
    if |Edges(x, -1, |x|)| > 0 {
      TrimmedExits(x, ts, 0);
      TrimmedPairsAre(x, 0, DownPairs(x, ts).0, DownPairs(x, ts).1);
    }
  }

  /** Overwriting the short entry/exit pairs is flipping the short closed runs. */
  lemma OverwriteIsRunFiltered(x: seq<int>, ts: seq<int>, v: int, sizeTicks: int, starts: seq<nat>, ends: seq<nat>)
    requires IsBinary(x) && (v == 0 || v == 1) && |ts| == |x|
    requires InRange(starts, |ts|) && InRange(ends, |ts|)
    requires PairsAre(x, v, starts, ends)
    ensures Overwrite(x, ts, starts, ends, sizeTicks, 1 - v) == RunFiltered(x, ts, v, sizeTicks)
  {
    forall p | 0 <= p < |x|
      ensures Overwrite(x, ts, starts, ends, sizeTicks, 1 - v)[p] == RunFiltered(x, ts, v, sizeTicks)[p]
    {
      CoverIsShortRun(x, ts, v, sizeTicks, starts, ends, p);
    }
  }

  /** A position a short pair covers is the pair's exit sample or lies in a
      short closed run. */
  lemma CoveredIsShortRun(x: seq<int>, ts: seq<int>, v: int, sizeTicks: int, starts: seq<nat>, ends: seq<nat>, p: nat)
    requires IsBinary(x) && (v == 0 || v == 1) && |ts| == |x| && p < |x|
    requires InRange(starts, |ts|) && InRange(ends, |ts|)
    requires PairsAre(x, v, starts, ends)
    requires PairsCover(ts, starts, ends, sizeTicks, Min(|starts|, |ends|), p)
    ensures x[p] == 1 - v || ShortRun(x, ts, v, sizeTicks, p)
  {
    var m := Min(|starts|, |ends|);
    var k :| 0 <= k < m && k < |starts| && k < |ends|
      && starts[k] <= p <= ends[k] && ts[ends[k]] - ts[starts[k]] < sizeTicks;
    PairCovers(x, ts, v, sizeTicks, k, p);
  }

  /** The same for the k-th entry edge and its matching exit edge. */
  lemma PairCovers(x: seq<int>, ts: seq<int>, v: int, sizeTicks: int, k: nat, p: nat)
    requires IsBinary(x) && (v == 0 || v == 1) && |ts| == |x| && p < |x|
    requires k < |Edges(x, Into(v), |x|)| && k + Lead(x, v) < |Edges(x, OutOf(v), |x|)|
    requires var s, e := Edges(x, Into(v), |x|)[k], Edges(x, OutOf(v), |x|)[k + Lead(x, v)];
      s <= p <= e && e < |ts| && ts[e] - ts[s] < sizeTicks
    ensures x[p] == 1 - v || ShortRun(x, ts, v, sizeTicks, p)
  {
    var s, e := Edges(x, Into(v), |x|)[k], Edges(x, OutOf(v), |x|)[k + Lead(x, v)];
    PairIsRun(x, v, k);
    if p < e {
      assert x[p] == v && RunStart(x, p) == s && RunEnd(x, p) == e;
    } else {
      assert x[p] != v;
    }
  }

  /** Every short closed run is covered by its own pair. */
  lemma ShortRunIsCovered(x: seq<int>, ts: seq<int>, v: int, sizeTicks: int, starts: seq<nat>, ends: seq<nat>, p: nat)
    requires IsBinary(x) && (v == 0 || v == 1) && |ts| == |x| && p < |x|
    requires InRange(starts, |ts|) && InRange(ends, |ts|)
    requires PairsAre(x, v, starts, ends)
    requires ShortRun(x, ts, v, sizeTicks, p)
    ensures PairsCover(ts, starts, ends, sizeTicks, Min(|starts|, |ends|), p)
  {
    var k := RunIsPair(x, v, p);
    assert k < Min(|starts|, |ends|);
    assert starts[k] == RunStart(x, p) && ends[k] == RunEnd(x, p);
  }

  lemma CoverIsShortRun(x: seq<int>, ts: seq<int>, v: int, sizeTicks: int, starts: seq<nat>, ends: seq<nat>, p: nat)
    requires IsBinary(x) && (v == 0 || v == 1) && |ts| == |x| && p < |x|
    requires InRange(starts, |ts|) && InRange(ends, |ts|)
    requires PairsAre(x, v, starts, ends)
    ensures (if PairsCover(ts, starts, ends, sizeTicks, Min(|starts|, |ends|), p) then 1 - v else x[p])
         == (if ShortRun(x, ts, v, sizeTicks, p) then 1 - v else x[p])
  {
    if PairsCover(ts, starts, ends, sizeTicks, Min(|starts|, |ends|), p) {
      CoveredIsShortRun(x, ts, v, sizeTicks, starts, ends, p);
    }
    if ShortRun(x, ts, v, sizeTicks, p) {
      ShortRunIsCovered(x, ts, v, sizeTicks, starts, ends, p);
    }
  }

  // -----------------------------------------------------------------------
  // The filters, run by run

  /** With strictly increasing timestamps no run has a non-positive duration,
      so a zero size flips nothing. */
  lemma RunFilteredZero(x: seq<int>, ts: seq<int>, v: int)
    requires |ts| == |x| && StrictlyIncreasing(ts)
    ensures RunFiltered(x, ts, v, 0) == x
  {
    forall p | 0 <= p < |x|
      ensures !ShortRun(x, ts, v, 0, p)
    {
    }
  }

  /** `up_filter` clears a 1-run exactly when it is entered by a 0->1 edge,
      left by a 1->0 edge, and the two edges are less than the size apart. */
  lemma UpFilteredRuns(x: seq<int>, ts: seq<int>, sizeSeconds: nat)
    requires IsBinary(x) && |ts| == |x| && StrictlyIncreasing(ts)
    requires UpFiltered(x, ts, sizeSeconds).Ok?
    ensures UpFiltered(x, ts, sizeSeconds).value == RunFiltered(x, ts, 1, sizeSeconds * TicksPerSecond)
  {
    if sizeSeconds == 0 {
      RunFilteredZero(x, ts, 1);
    } else {
      var pairs := UpPairs(x, ts).value;
      UpPairsAre(x, ts);
      OverwriteIsRunFiltered(x, ts, 1, sizeSeconds * TicksPerSecond, pairs.0, pairs.1);
    }
  }

  /** `down_filter` fills a 0-run exactly when it is entered by a 1->0 edge,
      left by a 0->1 edge, and the two edges are less than the size apart. */
  lemma DownFilteredRuns(x: seq<int>, ts: seq<int>, sizeSeconds: nat)
    requires IsBinary(x) && |ts| == |x| && StrictlyIncreasing(ts)
    ensures DownFiltered(x, ts, sizeSeconds) == RunFiltered(x, ts, 0, sizeSeconds * TicksPerSecond)
  {
    if sizeSeconds == 0 {
      RunFilteredZero(x, ts, 0);
    } else {
      var pairs := DownPairs(x, ts);
      DownPairsAre(x, ts);
      OverwriteIsRunFiltered(x, ts, 0, sizeSeconds * TicksPerSecond, pairs.0, pairs.1);
    }
  }

  // -----------------------------------------------------------------------
  // When the up filter fails, pair order, composition

  /** A 0/1 series that starts at 0 has at least as many rising edges as
      falling ones, so the up filter's `up_starts[0]` lookup cannot fail. */
  lemma UpFilteredOkWhenStartingLow(x: seq<int>, ts: seq<int>, sizeSeconds: nat)
    requires IsBinary(x) && |ts| == |x| && (|x| > 0 ==> x[0] == 0)
    ensures UpFiltered(x, ts, sizeSeconds).Ok?
  {
    if |x| > 0 {
      Balance(x, 1, |x| - 1);
    }
  }

  /** A closed run never touches position 0, so both filters keep sample 0. */
  lemma RunFilteredKeepsFirst(x: seq<int>, ts: seq<int>, v: int, sizeTicks: int)
    requires |ts| == |x| && |x| > 0
    ensures RunFiltered(x, ts, v, sizeTicks)[0] == x[0]
  {
  }

  lemma RunFilteredBinary(x: seq<int>, ts: seq<int>, v: int, sizeTicks: int)
    requires IsBinary(x) && |ts| == |x| && (v == 0 || v == 1)
    ensures IsBinary(RunFiltered(x, ts, v, sizeTicks))
  {
  }

  /** The up filter fails exactly on a series that is a block of 1s
      followed by a block of 0s (and only when the size is not zero). */
  lemma UpFilteredFailsExactly(x: seq<int>, ts: seq<int>, sizeSeconds: nat)
    requires IsBinary(x) && |ts| == |x|
    ensures UpFiltered(x, ts, sizeSeconds).Err? <==>
      && sizeSeconds > 0 && |x| > 1
      && x[0] == 1 && x[|x| - 1] == 0
      && forall i :: 0 < i < |x| ==> x[i] <= x[i - 1]
  {
    if |x| > 0 {
      Balance(x, 1, |x| - 1);
    }
    var rises := Edges(x, 1, |x|);
    if |rises| == 0 {
      forall i | 0 < i < |x|
        ensures x[i] <= x[i - 1]
      {
        if x[i] > x[i - 1] {
          EdgeIndex(x, 1, i);
        }
      }
    }
  }

  // -----------------------------------------------------------------------
  // Applying a filter twice

  /** Positions of one maximal run share its boundaries. */
  lemma SameRun(x: seq<int>, p: nat, q: nat)
    requires p < |x| && RunStart(x, p) <= q < RunEnd(x, p)
    ensures RunStart(x, q) == RunStart(x, p) && RunEnd(x, q) == RunEnd(x, p)
  {
    RunIsConstant(x, p);
    RunStartIs(x, q, RunStart(x, p));
    RunEndIs(x, q, RunEnd(x, p));
  }

  /** The filter treats a whole run alike. */
  lemma RunFilteredSameInRun(x: seq<int>, ts: seq<int>, v: int, sizeTicks: int, p: nat, q: nat)
    requires |ts| == |x| && p < |x| && RunStart(x, p) <= q < RunEnd(x, p)
    ensures RunFiltered(x, ts, v, sizeTicks)[q] == RunFiltered(x, ts, v, sizeTicks)[p]
  {
    SameRun(x, p, q);
    RunIsConstant(x, p);
  }

  /** A series y that agrees with x on a run and on the sample before it
      starts that run at the same place. */
  lemma SameRunStart(x: seq<int>, y: seq<int>, p: nat)
    requires p < |x| == |y| && y[p] == x[p]
    requires forall q :: RunStart(x, p) <= q <= p ==> y[q] == y[p]
    requires RunStart(x, p) > 0 ==> y[RunStart(x, p) - 1] == x[RunStart(x, p) - 1]
    ensures RunStart(y, p) == RunStart(x, p)
  {
    RunIsConstant(x, p);
    RunStartIs(y, p, RunStart(x, p));
  }

  /** ... and ends it at the same place when it agrees on the sample after. */
  lemma SameRunEnd(x: seq<int>, y: seq<int>, p: nat)
    requires p < |x| == |y| && y[p] == x[p]
    requires forall q :: p <= q < RunEnd(x, p) ==> y[q] == y[p]
    requires RunEnd(x, p) < |x| ==> y[RunEnd(x, p)] == x[RunEnd(x, p)]
    ensures RunEnd(y, p) == RunEnd(x, p)
  {
    RunIsConstant(x, p);
    RunEndIs(y, p, RunEnd(x, p));
  }

  /** The filter never changes a sample that does not hold v. */
  lemma RunFilteredKeepsOther(x: seq<int>, ts: seq<int>, v: int, sizeTicks: int, i: nat)
    requires |ts| == |x| && i < |x| && x[i] != v
    ensures RunFiltered(x, ts, v, sizeTicks)[i] == x[i]
  {
  }

  /** ... nor a sample that is not in a short closed run. */
  lemma RunFilteredKeepsLong(x: seq<int>, ts: seq<int>, v: int, sizeTicks: int, i: nat)
    requires |ts| == |x| && i < |x| && !ShortRun(x, ts, v, sizeTicks, i)
    ensures RunFiltered(x, ts, v, sizeTicks)[i] == x[i]
  {
  }

  /** In particular it keeps the sample just before a v-run. */
  lemma RunFilteredKeepsEntry(x: seq<int>, ts: seq<int>, v: int, sizeTicks: int, p: nat)
    requires |ts| == |x| && p < |x| && x[p] == v
    ensures RunStart(x, p) > 0 ==>
      RunFiltered(x, ts, v, sizeTicks)[RunStart(x, p) - 1] == x[RunStart(x, p) - 1]
  {
    RunIsConstant(x, p);
    if RunStart(x, p) > 0 {
      RunFilteredKeepsOther(x, ts, v, sizeTicks, RunStart(x, p) - 1);
    }
  }

  /** The filter treats the part of a run up to p alike ... */
  lemma RunFilteredSameBefore(x: seq<int>, ts: seq<int>, v: int, sizeTicks: int, p: nat)
    requires |ts| == |x| && p < |x|
    ensures forall q :: RunStart(x, p) <= q <= p ==>
      RunFiltered(x, ts, v, sizeTicks)[q] == RunFiltered(x, ts, v, sizeTicks)[p]
  {
    forall q | RunStart(x, p) <= q <= p
      ensures RunFiltered(x, ts, v, sizeTicks)[q] == RunFiltered(x, ts, v, sizeTicks)[p]
    {
      RunFilteredSameInRun(x, ts, v, sizeTicks, p, q);
    }
  }

  /** ... and the part from p on. */
  lemma RunFilteredSameAfter(x: seq<int>, ts: seq<int>, v: int, sizeTicks: int, p: nat)
    requires |ts| == |x| && p < |x|
    ensures forall q :: p <= q < RunEnd(x, p) ==>
      RunFiltered(x, ts, v, sizeTicks)[q] == RunFiltered(x, ts, v, sizeTicks)[p]
  {
    forall q | p <= q < RunEnd(x, p)
      ensures RunFiltered(x, ts, v, sizeTicks)[q] == RunFiltered(x, ts, v, sizeTicks)[p]
    {
      RunFilteredSameInRun(x, ts, v, sizeTicks, p, q);
    }
  }

  /** A v-run that survives the filter keeps its start: the sample before it
      holds 1 - v, which the filter never changes. */
  lemma SurvivingRunStart(x: seq<int>, ts: seq<int>, v: int, sizeTicks: int, p: nat)
    requires IsBinary(x) && (v == 0 || v == 1) && |ts| == |x| && p < |x|
    requires x[p] == v && !ShortRun(x, ts, v, sizeTicks, p)
    ensures RunStart(RunFiltered(x, ts, v, sizeTicks), p) == RunStart(x, p)
  {
    RunFilteredKeepsEntry(x, ts, v, sizeTicks, p);
    RunFilteredSameBefore(x, ts, v, sizeTicks, p);
    RunFilteredKeepsLong(x, ts, v, sizeTicks, p);
    SameRunStart(x, RunFiltered(x, ts, v, sizeTicks), p);
  }

  /** ... and its end, by the same argument on the sample after it. */
  lemma SurvivingRunEnd(x: seq<int>, ts: seq<int>, v: int, sizeTicks: int, p: nat)
    requires IsBinary(x) && (v == 0 || v == 1) && |ts| == |x| && p < |x|
    requires x[p] == v && !ShortRun(x, ts, v, sizeTicks, p)
    ensures RunEnd(RunFiltered(x, ts, v, sizeTicks), p) == RunEnd(x, p)
  {
    var e := RunEnd(x, p);
    RunIsConstant(x, p);
    if e < |x| {
      RunFilteredKeepsOther(x, ts, v, sizeTicks, e);
    }
    RunFilteredSameAfter(x, ts, v, sizeTicks, p);
    RunFilteredKeepsLong(x, ts, v, sizeTicks, p);
    SameRunEnd(x, RunFiltered(x, ts, v, sizeTicks), p);
  }

  /** Filtering the runs of one value twice changes nothing the second
      time: every v-run left over is one the first pass found too long or
      open, and it still has the same boundaries. */
  lemma RunFilteredIdempotent(x: seq<int>, ts: seq<int>, v: int, sizeTicks: int)
    requires IsBinary(x) && (v == 0 || v == 1) && |ts| == |x|
    ensures RunFiltered(RunFiltered(x, ts, v, sizeTicks), ts, v, sizeTicks) == RunFiltered(x, ts, v, sizeTicks)
  {
    var y := RunFiltered(x, ts, v, sizeTicks);
    forall p | 0 <= p < |y| && y[p] == v
      ensures !ShortRun(y, ts, v, sizeTicks, p)
    {
      SurvivingRunStart(x, ts, v, sizeTicks, p);
      SurvivingRunEnd(x, ts, v, sizeTicks, p);
    }
  }

  /** `down_filter` is idempotent. */
  lemma DownFilteredIdempotent(x: seq<int>, ts: seq<int>, sizeSeconds: nat)
    requires IsBinary(x) && |ts| == |x| && StrictlyIncreasing(ts)
    ensures DownFiltered(DownFiltered(x, ts, sizeSeconds), ts, sizeSeconds) == DownFiltered(x, ts, sizeSeconds)
  {
    var sizeTicks := sizeSeconds * TicksPerSecond;
    DownFilteredRuns(x, ts, sizeSeconds);
    RunFilteredBinary(x, ts, 0, sizeTicks);
    DownFilteredRuns(DownFiltered(x, ts, sizeSeconds), ts, sizeSeconds);
    RunFilteredIdempotent(x, ts, 0, sizeTicks);
  }

  /** A second `up_filter` pass either changes nothing or fails: the
      surviving 1-runs are kept, but clearing runs can leave a series with
      falling edges and no rising edge. */
  lemma UpFilteredTwice(x: seq<int>, ts: seq<int>, sizeSeconds: nat)
    requires IsBinary(x) && |ts| == |x| && StrictlyIncreasing(ts)
    requires UpFiltered(x, ts, sizeSeconds).Ok?
    ensures var once := UpFiltered(x, ts, sizeSeconds).value;
            UpFiltered(once, ts, sizeSeconds).Err? || UpFiltered(once, ts, sizeSeconds) == Ok(once)
  {
    var sizeTicks := sizeSeconds * TicksPerSecond;
    UpFilteredRuns(x, ts, sizeSeconds);
    var once := UpFiltered(x, ts, sizeSeconds).value;
    RunFilteredBinary(x, ts, 1, sizeTicks);
    if UpFiltered(once, ts, sizeSeconds).Ok? {
      UpFilteredRuns(once, ts, sizeSeconds);
      RunFilteredIdempotent(x, ts, 1, sizeTicks);
    }
  }

  /** The concrete case: 1,0,1,0 one second apart with a 2 s up filter. The
      first pass clears the closed 1-run at the third sample, leaving
      1,0,0,0, on which the second pass finds a falling edge and no rising
      edge and fails. */
  lemma UpFilterSecondPassFails()
    ensures var ts := [0, 1_000_000, 2_000_000, 3_000_000];
            && UpFiltered([1, 0, 1, 0], ts, 2) == Ok([1, 0, 0, 0])
            && UpFiltered([1, 0, 0, 0], ts, 2).Err?
  {
    var x, ts := [1, 0, 1, 0], [0, 1_000_000, 2_000_000, 3_000_000];
    var y := [1, 0, 0, 0];
    ExampleRuns();
    assert IsEdge(x, 1, 2);
    EdgeIndex(x, 1, 2);
    UpFilteredRuns(x, ts, 2);
    ExampleSecondPass();
  }

  /** Runs of 1,0,1,0: only the 1-run at the third sample is closed, and it
      lasts 1 s. */
  lemma ExampleRuns()
    ensures RunFiltered([1, 0, 1, 0], [0, 1_000_000, 2_000_000, 3_000_000], 1, 2 * TicksPerSecond) == [1, 0, 0, 0]
  {
    var x := [1, 0, 1, 0];
    RunStartIs(x, 2, 2);
    RunEndIs(x, 2, 3);
    RunStartIs(x, 1, 1);
    RunEndIs(x, 1, 2);
    RunStartIs(x, 0, 0);
    RunStartIs(x, 3, 3);
    RunEndIs(x, 3, 4);
  }

  lemma ExampleSecondPass()
    ensures UpFiltered([1, 0, 0, 0], [0, 1_000_000, 2_000_000, 3_000_000], 2).Err?
  {
    UpFilteredFailsExactly([1, 0, 0, 0], [0, 1_000_000, 2_000_000, 3_000_000], 2);
  }

  // -----------------------------------------------------------------------
  // filtering, in either order

  /** In 'down' order the filtered column is the down filter's runs followed
      by the up filter's; it fails exactly when the up filter fails on the
      filled series. */
  lemma FilteringDownOrder(df: Frame, flag: string, upSeconds: nat, downSeconds: nat)
    requires WellFormed(df) && flag in df.columns && IsBinary(df.columns[flag])
    ensures var filled := RunFiltered(df.columns[flag], df.index, 0, downSeconds * TicksPerSecond);
            var r := FilteringFrame(df, flag, upSeconds, downSeconds, "down");
            && (r.Err? <==> UpFiltered(filled, df.index, upSeconds).Err?)
            && (r.Ok? ==> (flag + FilteredSuffix in r.value.columns
                           && r.value.columns[flag + FilteredSuffix] == RunFiltered(filled, df.index, 1, upSeconds * TicksPerSecond)))
  {
    var x := df.columns[flag];
    DownFilteredRuns(x, df.index, downSeconds);
    var filled := DownFiltered(x, df.index, downSeconds);
    RunFilteredBinary(x, df.index, 0, downSeconds * TicksPerSecond);
    var d := DownFilterFrame(df, flag, downSeconds).value;
    assert d.columns[flag + DownSuffix] == filled;
    if UpFiltered(filled, df.index, upSeconds).Ok? {
      UpFilteredRuns(filled, df.index, upSeconds);
    }
  }

  /** In 'up' order the up filter runs on the raw column, so it fails
      exactly when that column is a block of 1s followed by 0s; otherwise
      the filtered column is the up filter's runs followed by the down
      filter's. */
  lemma FilteringUpOrder(df: Frame, flag: string, upSeconds: nat, downSeconds: nat)
    requires WellFormed(df) && flag in df.columns && IsBinary(df.columns[flag])
    ensures var cleared := RunFiltered(df.columns[flag], df.index, 1, upSeconds * TicksPerSecond);
            var r := FilteringFrame(df, flag, upSeconds, downSeconds, "up");
            && (r.Err? <==> UpFiltered(df.columns[flag], df.index, upSeconds).Err?)
            && (r.Ok? ==> (flag + FilteredSuffix in r.value.columns
                           && r.value.columns[flag + FilteredSuffix] == RunFiltered(cleared, df.index, 0, downSeconds * TicksPerSecond)))
  {
    var x := df.columns[flag];
    if UpFiltered(x, df.index, upSeconds).Ok? {
      UpFilteredRuns(x, df.index, upSeconds);
      RunFilteredBinary(x, df.index, 1, upSeconds * TicksPerSecond);
      var cleared := UpFiltered(x, df.index, upSeconds).value;
      DownFilteredRuns(cleared, df.index, downSeconds);
      var u := UpFilterFrame(df, flag, upSeconds).value;
      UpFilterFrameWellFormed(df, flag, upSeconds);
      assert u.columns[flag + UpSuffix] == cleared;
    }
  }
}

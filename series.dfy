/** Time-indexed 0/1 series, the data every stage of the detector works on.
    A pandas DataFrame is modelled by its index (timestamps as integer ticks,
    strictly increasing) and its integer columns keyed by name. */
module Series {

  /** Timestamps are integer microseconds; durations given in seconds are
      scaled by this factor before they are compared with timestamp gaps. */
  const TicksPerSecond: nat := 1_000_000

  predicate StrictlyIncreasing(ts: seq<int>)
  {
    forall i, j :: 0 <= i < j < |ts| ==> ts[i] < ts[j]
  }

  predicate IsBinary(x: seq<int>)
  {
    forall i :: 0 <= i < |x| ==> x[i] == 0 || x[i] == 1
  }

  datatype Frame = Frame(index: seq<int>, columns: map<string, seq<int>>)

  /** Every column has one value per index label and the index is sorted. */
  predicate WellFormed(df: Frame)
  {
    && StrictlyIncreasing(df.index)
    && forall c :: c in df.columns ==> |df.columns[c]| == |df.index|
  }

  /** Position i holds a first difference equal to d (`x.diff() == d`);
      position 0 never does, its difference being NaN. */
  predicate IsEdge(x: seq<int>, d: int, i: int)
  {
    0 < i < |x| && x[i] - x[i - 1] == d
  }

  /** The positions in [1, n) whose first difference is d, in order:
      `df.loc[df[col].diff() == d].index` for n == |x|. */
  function Edges(x: seq<int>, d: int, n: nat): (e: seq<nat>)
    requires n <= |x|
    ensures forall k :: 0 <= k < |e| ==> e[k] < n && IsEdge(x, d, e[k])
    ensures forall i :: 0 <= i < n && IsEdge(x, d, i) ==> i in e
    decreases n
  {
    if n <= 1 then []
    else Edges(x, d, n - 1) + (if x[n - 1] - x[n - 2] == d then [n - 1] else [])
  }

  /** The elements of s whose timestamp is later than that of position t:
      `[e for e in s if e > t]` on timestamp labels. */
  function KeepAfter(ts: seq<int>, s: seq<nat>, t: nat): (r: seq<nat>)
    requires t < |ts|
    requires forall k :: 0 <= k < |s| ==> s[k] < |ts|
    ensures |r| <= |s|
    ensures forall e :: e in r <==> e in s && ts[e] > ts[t]
    ensures forall k :: 0 <= k < |r| ==> r[k] < |ts|
  {
    if s == [] then []
    else (if ts[s[0]] > ts[t] then [s[0]] else []) + KeepAfter(ts, s[1..], t)
  }

  /** Start of the maximal constant run holding position p. */
  function RunStart(x: seq<int>, p: nat): (s: nat)
    requires p < |x|
    ensures s <= p
  {
    if p == 0 || x[p - 1] != x[p] then p else RunStart(x, p - 1)
  }

  /** One past the end of the maximal constant run holding position p. */
  function RunEnd(x: seq<int>, p: nat): (e: nat)
    requires p < |x|
    ensures p < e <= |x|
    decreases |x| - p
  {
    if p + 1 == |x| || x[p + 1] != x[p] then p + 1 else RunEnd(x, p + 1)
  }

  // ---------------------------------------------------------------------
  // Run boundaries

  lemma {:induction false} RunStartIs(x: seq<int>, p: nat, s: nat)
    requires s <= p < |x|
    requires forall q :: s <= q <= p ==> x[q] == x[p]
    requires s == 0 || x[s - 1] != x[p]
    ensures RunStart(x, p) == s
    decreases p
  {
    if p > s {
      RunStartIs(x, p - 1, s);
    }
  }

  lemma {:induction false} RunEndIs(x: seq<int>, p: nat, e: nat)
    requires p < e <= |x|
    requires forall q :: p <= q < e ==> x[q] == x[p]
    requires e == |x| || x[e] != x[p]
    ensures RunEnd(x, p) == e
    decreases e - p
  {
    if p + 1 < e {
      RunEndIs(x, p + 1, e);
    }
  }

  lemma {:induction false} RunIsConstant(x: seq<int>, p: nat)
    requires p < |x|
    ensures forall q :: RunStart(x, p) <= q < RunEnd(x, p) ==> x[q] == x[p]
    ensures RunStart(x, p) == 0 || x[RunStart(x, p) - 1] != x[p]
    ensures RunEnd(x, p) == |x| || x[RunEnd(x, p)] != x[p]
  {
    RunStartConstant(x, p);
    RunEndConstant(x, p);
  }

  lemma {:induction false} RunStartConstant(x: seq<int>, p: nat)
    requires p < |x|
    ensures forall q :: RunStart(x, p) <= q <= p ==> x[q] == x[p]
    ensures RunStart(x, p) == 0 || x[RunStart(x, p) - 1] != x[p]
    decreases p
  {
    if !(p == 0 || x[p - 1] != x[p]) {
      RunStartConstant(x, p - 1);
    }
  }

  lemma {:induction false} RunEndConstant(x: seq<int>, p: nat)
    requires p < |x|
    ensures forall q :: p <= q < RunEnd(x, p) ==> x[q] == x[p]
    ensures RunEnd(x, p) == |x| || x[RunEnd(x, p)] != x[p]
    decreases |x| - p
  {
    if !(p + 1 == |x| || x[p + 1] != x[p]) {
      RunEndConstant(x, p + 1);
    }
  }

  // ---------------------------------------------------------------------
  // Edge lists: prefixes, positions and counts

  lemma {:induction false} EdgesPrefix(x: seq<int>, d: int, m: nat, n: nat)
    requires m <= n <= |x|
    ensures |Edges(x, d, m)| <= |Edges(x, d, n)|
    ensures Edges(x, d, m) == Edges(x, d, n)[..|Edges(x, d, m)|]
    decreases n - m
  {
    if m < n {
      EdgesPrefix(x, d, m, n - 1);
    }
  }

  /** An edge at position i is the |Edges(x, d, i)|-th element of the list. */
  lemma EdgeIndex(x: seq<int>, d: int, i: nat)
    requires IsEdge(x, d, i)
    ensures |Edges(x, d, i)| < |Edges(x, d, |x|)|
    ensures Edges(x, d, |x|)[|Edges(x, d, i)|] == i
  {
    EdgesAppend(x, d, i);
    EdgesPrefix(x, d, i + 1, |x|);
  }

  /** An edge at position i extends the list of the edges before it. */
  lemma EdgesAppend(x: seq<int>, d: int, i: nat)
    requires IsEdge(x, d, i)
    ensures Edges(x, d, i + 1) == Edges(x, d, i) + [i]
  {
  }

  lemma {:induction false} EdgesSorted(x: seq<int>, d: int, n: nat)
    requires n <= |x|
    ensures forall k, l :: 0 <= k < l < |Edges(x, d, n)| ==> Edges(x, d, n)[k] < Edges(x, d, n)[l]
    decreases n
  {
    if n > 1 {
      EdgesSorted(x, d, n - 1);
    }
  }

  /** Conversely, the k-th element of the list has k edges before it. */
  lemma IndexOfEdge(x: seq<int>, d: int, k: nat)
    requires k < |Edges(x, d, |x|)|
    ensures |Edges(x, d, Edges(x, d, |x|)[k])| == k
  {
    EdgeIndex(x, d, Edges(x, d, |x|)[k]);
    EdgesSorted(x, d, |x|);
  }

  /** Counting edges in [1, n) position by position. */
  lemma EdgesStep(x: seq<int>, d: int, n: nat)
    requires 0 < n < |x|
    ensures |Edges(x, d, n + 1)| == |Edges(x, d, n)| + (if IsEdge(x, d, n) then 1 else 0)
  {
  }

  /** No edge in [m, n) leaves the count unchanged. */
  lemma {:induction false} EdgesNoneBetween(x: seq<int>, d: int, m: nat, n: nat)
    requires m <= n <= |x|
    requires forall i :: m <= i < n ==> !IsEdge(x, d, i)
    ensures |Edges(x, d, n)| == |Edges(x, d, m)|
    decreases n - m
  {
    if m < n {
      EdgesNoneBetween(x, d, m, n - 1);
      assert !IsEdge(x, d, n - 1);
    }
  }

  /** On a 0/1 series the number of entries into value v up to p, minus the
      number of exits from v, is whether p holds v minus whether 0 does.
      Entries into 1 are rising edges (diff +1); into 0, falling edges. */
  lemma {:induction false} Balance(x: seq<int>, v: int, p: nat)
    requires IsBinary(x) && (v == 0 || v == 1) && p < |x|
    ensures |Edges(x, Into(v), p + 1)| - |Edges(x, OutOf(v), p + 1)|
            == Ind(x[p] == v) - Ind(x[0] == v)
    decreases p
  {
    if p > 0 {
      Balance(x, v, p - 1);
      EdgesStep(x, Into(v), p);
      EdgesStep(x, OutOf(v), p);
    }
  }

  /** Entering v at s: s holds v, and the exits from v up to s number the
      entries before s plus whether the series starts in v. */
  lemma EntryCounts(x: seq<int>, v: int, s: nat)
    requires IsBinary(x) && (v == 0 || v == 1) && IsEdge(x, Into(v), s)
    ensures x[s] == v
    ensures |Edges(x, OutOf(v), s + 1)| == |Edges(x, Into(v), s)| + Ind(x[0] == v)
  {
    EdgesStep(x, Into(v), s);
    Balance(x, v, s);
  }

  /** The first difference on entering value v. */
  function Into(v: int): int
  {
    if v == 1 then 1 else -1
  }

  /** The first difference on leaving value v. */
  function OutOf(v: int): int
  {
    if v == 1 then -1 else 1
  }

  function Ind(b: bool): int
  {
    if b then 1 else 0
  }
}

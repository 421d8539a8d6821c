/** Post-processing of decoded state labels and trimming of the start-up
    transient (`MHPDT_cross_validation/utils.py`).  Feature values are reals;
    labels are integers. */
module Relabel {
  import opened Wrappers
  import opened Series

  // -----------------------------------------------------------------------
  // Dropping the start-up transient

  datatype TrimError = EmptyIndex

  /** The first position whose timestamp is at or after `bound`
      (|ts| when there is none). */
  function FirstAtOrAfter(ts: seq<int>, bound: int): (k: nat)
    requires StrictlyIncreasing(ts)
    ensures k <= |ts|
    ensures forall p :: 0 <= p < |ts| ==> (k <= p <==> ts[p] >= bound)
  {
    if ts == [] then 0
    else if ts[0] >= bound then 0
    else 1 + FirstAtOrAfter(ts[1..], bound)
  }

  /** `drop_transient_mhp_window_sized_data`: `df.loc[df.index[0] + window:]`.
      Reading `index[0]` of an empty frame fails.  The result is a suffix of
      the input holding exactly the rows whose timestamp is at least the
      first timestamp plus the window. */
  function DropTransient(df: Frame, windowTicks: int): (r: Result<Frame, TrimError>)
    requires WellFormed(df)
    ensures r.Err? <==> |df.index| == 0
    ensures r.Ok? ==> |r.value.index| <= |df.index|
    ensures r.Ok? ==>
      var k := |df.index| - |r.value.index|;
      && WellFormed(r.value)
      && r.value.index == df.index[k..]
      && r.value.columns.Keys == df.columns.Keys
      && (forall c :: c in r.value.columns ==> r.value.columns[c] == df.columns[c][k..])
      && (forall p :: 0 <= p < |df.index| ==> (k <= p <==> df.index[p] >= df.index[0] + windowTicks))
  {
    if |df.index| == 0 then Err(EmptyIndex)
    else
      var k := FirstAtOrAfter(df.index, df.index[0] + windowTicks);
      Ok(Frame(df.index[k..], map c | c in df.columns :: df.columns[c][k..]))
  }

  // -----------------------------------------------------------------------
  // Groups of feature values by label

  /** The feature values at the positions labelled v, in order
      (`feature_series[state_series.values == v]`). */
  function Group(feature: seq<real>, states: seq<int>, v: int): (g: seq<real>)
    requires |feature| == |states|
    ensures |g| <= |states|
    ensures v in states ==> |g| > 0
  {
    if states == [] then []
    else
      var n := |states| - 1;
      Group(feature[..n], states[..n], v) + (if states[n] == v then [feature[n]] else [])
  }

  function Sum(xs: seq<real>): real
  {
    if xs == [] then 0.0 else Sum(xs[..|xs| - 1]) + xs[|xs| - 1]
  }

  /** `Series.mean()` of a non-empty group. */
  function Mean(xs: seq<real>): real
    requires |xs| > 0
  {
    Sum(xs) / |xs| as real
  }

  function SumSquares(xs: seq<real>, centre: real): real
  {
    if xs == [] then 0.0
    else SumSquares(xs[..|xs| - 1], centre) + (xs[|xs| - 1] - centre) * (xs[|xs| - 1] - centre)
  }

  /** The sample variance (`ddof=1`, the pandas default); fewer than two
      values give NaN, modelled as None. */
  function SampleVariance(xs: seq<real>): (var_: Option<real>)
    ensures var_.Some? <==> |xs| >= 2
  {
    if |xs| < 2 then None
    else Some(SumSquares(xs, Mean(xs)) / (|xs| - 1) as real)
  }

  // -----------------------------------------------------------------------
  // std_based_state_flipping

  /** Whether label 0 is swapped with label 1: the spread of the 0-group is
      at least that of the 1-group.  The standard deviations are compared
      through their squares, the variances; a NaN on either side makes the
      comparison false. */
  predicate SwapLabels(feature: seq<real>, states: seq<int>)
    requires |feature| == |states|
  {
    var a := SampleVariance(Group(feature, states, 0));
    var b := SampleVariance(Group(feature, states, 1));
    a.Some? && b.Some? && a.value >= b.value
  }

  /** The relabelled series: on a swap 0 becomes 1 and 1 becomes 0,
      otherwise both stay; any other label becomes 0 (the initial zeros). */
  function Flipped(feature: seq<real>, states: seq<int>): (y: seq<int>)
    requires |feature| == |states|
  {
    var swap := SwapLabels(feature, states);
    seq(|states|, p requires 0 <= p < |states| =>
      if states[p] == 0 then (if swap then 1 else 0)
      else if states[p] == 1 then (if swap then 0 else 1)
      else 0)
  }

  /** `std_based_state_flipping`: fill a zero array through the two masks. */
  method StdBasedStateFlipping(feature: seq<real>, states: seq<int>) returns (flipped: seq<int>)
    requires |feature| == |states|
    ensures flipped == Flipped(feature, states)
  {
    var out := new int[|states|](p => 0);
    var stdA := SampleVariance(Group(feature, states, 0));
    var stdB := SampleVariance(Group(feature, states, 1));
    if stdA.Some? && stdB.Some? && stdA.value >= stdB.value {
      forall p | 0 <= p < |states| && states[p] == 0 {
        out[p] := 1;
      }
      forall p | 0 <= p < |states| && states[p] == 1 {
        out[p] := 0;
      }
    } else {
      forall p | 0 <= p < |states| && states[p] == 0 {
        out[p] := 0;
      }
      forall p | 0 <= p < |states| && states[p] == 1 {
        out[p] := 1;
      }
    }
    flipped := out[..];
  }

  /** The output is a 0/1 series of the same length; a label other than 0
      or 1 comes out as 0; a 0/1 input is either kept or complemented, and
      it is complemented exactly when the 0-group spreads at least as much
      as the 1-group. */
  lemma FlippedShape(feature: seq<real>, states: seq<int>)
    requires |feature| == |states|
    ensures |Flipped(feature, states)| == |states| && IsBinary(Flipped(feature, states))
    ensures forall p :: 0 <= p < |states| && states[p] != 0 && states[p] != 1 ==> Flipped(feature, states)[p] == 0
    ensures IsBinary(states) ==>
      Flipped(feature, states) == if SwapLabels(feature, states) then Complement(states) else states
  {
  }

  function Complement(x: seq<int>): (y: seq<int>)
  {
    seq(|x|, p requires 0 <= p < |x| => 1 - x[p])
  }

  /** Complementing a 0/1 series exchanges its two groups. */
  lemma {:induction false} ComplementGroups(feature: seq<real>, states: seq<int>)
    requires |feature| == |states| && IsBinary(states)
    ensures Group(feature, Complement(states), 0) == Group(feature, states, 1)
    ensures Group(feature, Complement(states), 1) == Group(feature, states, 0)
  {
    if states != [] {
      var n := |states| - 1;
      assert Complement(states)[..n] == Complement(states[..n]);
      ComplementGroups(feature[..n], states[..n]);
    }
  }

  /** After relabelling a 0/1 series whose groups both have a spread, the
      group labelled 1 spreads at least as much as the group labelled 0:
      label 1 is the high-variance (active) state. */
  lemma FlippedOrdersSpread(feature: seq<real>, states: seq<int>)
    requires |feature| == |states| && IsBinary(states)
    requires SampleVariance(Group(feature, states, 0)).Some? && SampleVariance(Group(feature, states, 1)).Some?
    ensures var low := SampleVariance(Group(feature, Flipped(feature, states), 0));
            var high := SampleVariance(Group(feature, Flipped(feature, states), 1));
            low.Some? && high.Some? && low.value <= high.value
  {
    FlippedShape(feature, states);
    if SwapLabels(feature, states) {
      ComplementGroups(feature, states);
    }
  }

  // -----------------------------------------------------------------------
  // mean_based_state_ranking

  /** `pd.unique`: the distinct labels in order of first appearance. */
  function Unique(s: seq<int>): (u: seq<int>)
    ensures forall v :: v in u <==> v in s
    ensures forall i, j :: 0 <= i < j < |u| ==> u[i] != u[j]
  {
    if s == [] then []
    else
      var u := Unique(s[..|s| - 1]);
      if s[|s| - 1] in u then u else u + [s[|s| - 1]]
  }

  /** The position of v in a list of distinct labels. */
  function IndexOf(u: seq<int>, v: int): (k: nat)
    requires v in u
    ensures k < |u| && u[k] == v
    ensures forall j :: 0 <= j < k ==> u[j] != v
  {
    if u[0] == v then 0 else 1 + IndexOf(u[1..], v)
  }

  /** The mean of each distinct label's group, in `pd.unique` order. */
  function GroupMeans(feature: seq<real>, states: seq<int>): (m: seq<real>)
    requires |feature| == |states|
    ensures |m| == |Unique(states)|
  {
    var u := Unique(states);
    seq(|u|, k requires 0 <= k < |u| => Mean(Group(feature, states, u[k])))
  }

  /** Index j comes before index i in the argsort of m: a smaller mean, or
      an equal mean at an earlier index. */
  predicate Precedes(m: seq<real>, j: nat, i: nat)
    requires j < |m| && i < |m|
  {
    m[j] < m[i] || (m[j] == m[i] && j < i)
  }

  /** The number of indices below n that precede i. */
  function CountPreceding(m: seq<real>, i: nat, n: nat): (c: nat)
    requires i < |m| && n <= |m|
    ensures c <= n
  {
    if n == 0 then 0 else CountPreceding(m, i, n - 1) + (if Precedes(m, n - 1, i) then 1 else 0)
  }

  /** `np.where(np.argsort(m) == i)[0]`: the place of index i in the
      ascending order of m. */
  function Rank(m: seq<real>, i: nat): nat
    requires i < |m|
  {
    CountPreceding(m, i, |m|)
  }

  /** The relabelled series: each position gets the rank of its label's
      group mean among the distinct labels. */
  function Ranked(feature: seq<real>, states: seq<int>): (y: seq<int>)
    requires |feature| == |states|
  {
    var m := GroupMeans(feature, states);
    seq(|states|, p requires 0 <= p < |states| => Rank(m, Slot(states, p)))
  }

  /** The position of sample p's label in `pd.unique` order. */
  function Slot(states: seq<int>, p: nat): (k: nat)
    requires p < |states|
    ensures k < |Unique(states)| && Unique(states)[k] == states[p]
  {
    IndexOf(Unique(states), states[p])
  }

  /** Sample p's label is the k-th distinct label exactly when its slot is k. */
  lemma SlotOfLabel(states: seq<int>, p: nat, k: nat)
    requires p < |states| && k < |Unique(states)|
    ensures Slot(states, p) == k <==> states[p] == Unique(states)[k]
  {
  }

  /** The first loop of `mean_based_state_ranking`: the mean feature value
      of each distinct label, in `pd.unique` order. */
  method StateMeans(feature: seq<real>, states: seq<int>) returns (means: seq<real>)
    requires |feature| == |states|
    ensures means == GroupMeans(feature, states)
  {
    var distinct := Unique(states);
    means := [];
    var k := 0;
    while k < |distinct|
      invariant k <= |distinct| && |means| == k
      invariant forall j :: 0 <= j < k ==> means[j] == Mean(Group(feature, states, distinct[j]))
    {
      means := means + [Mean(Group(feature, states, distinct[k]))];
      k := k + 1;
    }
  }

  /** `mean_based_state_ranking`: collect the group means, rank them, then
      fill a zero array label by label through masks. */
  method MeanBasedStateRanking(feature: seq<real>, states: seq<int>) returns (ranked: seq<int>)
    requires |feature| == |states|
    ensures ranked == Ranked(feature, states)
  {
    var out := new int[|states|](p => 0);
    var distinct := Unique(states);
    var means := StateMeans(feature, states);
    var k := 0;
    while k < |distinct|
      invariant k <= |distinct|
      invariant forall p :: 0 <= p < |states| ==>
        out[p] == if Slot(states, p) < k then Rank(means, Slot(states, p)) else 0
    {
      forall p | 0 <= p < |states|
        ensures Slot(states, p) == k <==> states[p] == distinct[k]
      {
        SlotOfLabel(states, p, k);
      }
      forall p | 0 <= p < |states| && states[p] == distinct[k] {
        out[p] := Rank(means, k);
      }
      k := k + 1;
    }
    ranked := out[..];
  }

  // Ranks are a permutation of 0 .. k-1

  lemma {:induction false} CountPrecedingBound(m: seq<real>, i: nat, n: nat)
    requires i < |m| && n <= |m|
    ensures CountPreceding(m, i, n) + (if i < n then 1 else 0) <= n
  {
    if n > 0 {
      CountPrecedingBound(m, i, n - 1);
    }
  }

  /** If a precedes b, everything that precedes a precedes b, and a itself
      precedes b but not a. */
  lemma {:induction false} CountPrecedingMonotone(m: seq<real>, a: nat, b: nat, n: nat)
    requires a < |m| && b < |m| && n <= |m| && Precedes(m, a, b)
    ensures CountPreceding(m, a, n) + (if a < n then 1 else 0) <= CountPreceding(m, b, n)
  {
    if n > 0 {
      CountPrecedingMonotone(m, a, b, n - 1);
    }
  }

  /** Ranks are distinct, ordered like the means, and below the count. */
  lemma RankOrder(m: seq<real>, a: nat, b: nat)
    requires a < |m| && b < |m|
    ensures Rank(m, a) < |m|
    ensures m[a] < m[b] ==> Rank(m, a) < Rank(m, b)
    ensures a != b ==> Rank(m, a) != Rank(m, b)
  {
    CountPrecedingBound(m, a, |m|);
    if Precedes(m, a, b) {
      CountPrecedingMonotone(m, a, b, |m|);
    } else if a != b {
      CountPrecedingMonotone(m, b, a, |m|);
    }
  }

  /** The naturals below k. */
  function Below(k: nat): (r: set<int>)
    ensures forall x :: x in r <==> 0 <= x < k
    ensures |r| == k
  {
    if k == 0 then {} else Below(k - 1) + {k - 1}
  }

  /** The ranks of the first n indices. */
  function RankImage(m: seq<real>, n: nat): (r: set<int>)
    requires n <= |m|
    ensures forall i :: 0 <= i < n ==> Rank(m, i) in r
  {
    if n == 0 then {} else RankImage(m, n - 1) + {Rank(m, n - 1)}
  }

  lemma {:induction false} RankImageSize(m: seq<real>, n: nat)
    requires n <= |m|
    ensures |RankImage(m, n)| == n
  {
    if n > 0 {
      RankImageSize(m, n - 1);
      forall i | 0 <= i < n - 1
        ensures Rank(m, i) != Rank(m, n - 1)
      {
        RankOrder(m, i, n - 1);
      }
      OutsideImage(m, n - 1, Rank(m, n - 1));
    }
  }

  /** A value no index below n ranks at is not in the image. */
  lemma {:induction false} OutsideImage(m: seq<real>, n: nat, x: int)
    requires n <= |m|
    requires forall i :: 0 <= i < n ==> Rank(m, i) != x
    ensures x !in RankImage(m, n)
  {
    if n > 0 {
      OutsideImage(m, n - 1, x);
    }
  }

  lemma SubsetSize(s: set<int>, t: set<int>)
    requires s <= t
    ensures |s| <= |t|
    ensures |s| == |t| ==> s == t
  {
    assert t == (t - s) + s;
    assert |t| == |t - s| + |s|;
    if |s| == |t| {
      assert t - s == {};
    }
  }

  lemma {:induction false} ImageBelow(m: seq<real>, n: nat)
    requires n <= |m|
    ensures RankImage(m, n) <= Below(|m|)
  {
    if n > 0 {
      ImageBelow(m, n - 1);
      RankOrder(m, n - 1, n - 1);
    }
  }

  /** The ranks of the k group means are exactly 0 .. k-1. */
  lemma RanksArePermutation(m: seq<real>)
    ensures RankImage(m, |m|) == Below(|m|)
  {
    ImageBelow(m, |m|);
    RankImageSize(m, |m|);
    SubsetSize(RankImage(m, |m|), Below(|m|));
  }

  /** The labels a series uses. */
  function Labels(y: seq<int>): (r: set<int>)
    ensures forall x :: x in r <==> x in y
  {
    set p | 0 <= p < |y| :: y[p]
  }

  /** Two positions get the same new label exactly when they had the same
      label, and a group with a strictly larger mean gets a strictly larger
      label. */
  lemma RankedOrder(feature: seq<real>, states: seq<int>, p: nat, q: nat)
    requires |feature| == |states| && p < |states| && q < |states|
    ensures |Ranked(feature, states)| == |states|
    ensures Ranked(feature, states)[p] == Ranked(feature, states)[q] <==> states[p] == states[q]
    ensures Mean(Group(feature, states, states[p])) < Mean(Group(feature, states, states[q])) ==>
            Ranked(feature, states)[p] < Ranked(feature, states)[q]
  {
    RankOrder(GroupMeans(feature, states), Slot(states, p), Slot(states, q));
  }

  /** Each rank below the number of distinct labels is used. */
  lemma RankUsed(feature: seq<real>, states: seq<int>, r: int)
    requires |feature| == |states| && 0 <= r < |Unique(states)|
    ensures r in Ranked(feature, states)
  {
    var u := Unique(states);
    var m := GroupMeans(feature, states);
    RanksArePermutation(m);
    assert r in RankImage(m, |m|);
    if !exists i :: 0 <= i < |m| && r == Rank(m, i) {
      OutsideImage(m, |m|, r);
    }
    var i :| 0 <= i < |m| && r == Rank(m, i);
    assert u[i] in states;
    var p :| 0 <= p < |states| && states[p] == u[i];
    assert Ranked(feature, states)[p] == r;
  }

  /** The relabelled series uses exactly the labels 0 .. k-1, k being the
      number of distinct input labels. */
  lemma RankedLabels(feature: seq<real>, states: seq<int>)
    requires |feature| == |states|
    ensures Labels(Ranked(feature, states)) == Below(|Unique(states)|)
  {
    var u := Unique(states);
    var y := Ranked(feature, states);
    forall r | r in Below(|u|)
      ensures r in y
    {
      RankUsed(feature, states, r);
    }
    forall r | r in y
      ensures r in Below(|u|)
    {
      var p :| 0 <= p < |states| && y[p] == r;
      RankOrder(GroupMeans(feature, states), Slot(states, p), Slot(states, p));
    }
  }
}

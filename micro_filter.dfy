/** The two run-length "micro" filters of the detector and their composition
    (MHPDT_cross_validation/micro_filter.py).  Both find rising (+1) and
    falling (-1) edges with a first difference, trim the edge lists with two
    different rules, zip them into (start, end) pairs and overwrite every pair
    whose duration is below the filter size: `up_filter` writes 0 over short
    1-runs, `down_filter` writes 1 over short 0-runs. */
module MicroFilter {
  import opened Wrappers
  import opened Series

  datatype FilterError =
    | MissingColumn(name: string)   // KeyError: the flag column is absent
    | NoRisingEdge                  // IndexError: `up_starts[0]` on an empty index

  const UpSuffix: string := "_up_filtered"
  const DownSuffix: string := "_down_filtered"
  const FilteredSuffix: string := "_filtered"

  function Min(a: nat, b: nat): nat
  {
    if a < b then a else b
  }

  predicate InRange(s: seq<nat>, n: nat)
  {
    forall k :: 0 <= k < |s| ==> s[k] < n
  }

  /** Position p lies in one of the first m zipped pairs [starts[k], ends[k]]
      whose duration is below sizeTicks (`df.loc[us:ds]` includes both ends). */
  predicate PairsCover(ts: seq<int>, starts: seq<nat>, ends: seq<nat>, sizeTicks: int, m: nat, p: nat)
    requires InRange(starts, |ts|) && InRange(ends, |ts|)
  {
    exists k :: 0 <= k < m && k < |starts| && k < |ends|
      && starts[k] <= p <= ends[k] && ts[ends[k]] - ts[starts[k]] < sizeTicks
  }

  /** Covering by the first k + 1 pairs adds pair k to covering by the first k. */
  lemma CoverStep(ts: seq<int>, starts: seq<nat>, ends: seq<nat>, sizeTicks: int, k: nat, p: nat)
    requires InRange(starts, |ts|) && InRange(ends, |ts|) && k < |starts| && k < |ends|
    ensures PairsCover(ts, starts, ends, sizeTicks, k + 1, p) <==>
      PairsCover(ts, starts, ends, sizeTicks, k, p)
      || (starts[k] <= p <= ends[k] && ts[ends[k]] - ts[starts[k]] < sizeTicks)
  {
  }

  /** The column after every short zipped pair has been overwritten with w. */
  function Overwrite(x: seq<int>, ts: seq<int>, starts: seq<nat>, ends: seq<nat>, sizeTicks: int, w: int): (y: seq<int>)
    requires |ts| == |x| && InRange(starts, |ts|) && InRange(ends, |ts|)
    ensures |y| == |x|
    ensures forall p :: 0 <= p < |x| ==> y[p] == w || y[p] == x[p]
  {
    seq(|x|, p requires 0 <= p < |x| =>
      if PairsCover(ts, starts, ends, sizeTicks, Min(|starts|, |ends|), p) then w else x[p])
  }

  /** The up filter's zipped pairs (us, ds): falling edges not later than the
      first rising edge are dropped, then surplus rising edges are cut off.
      Fails when there are falling edges but no rising one. */
  function UpPairs(x: seq<int>, ts: seq<int>): (r: Result<(seq<nat>, seq<nat>), FilterError>)
    requires |ts| == |x|
    ensures r.Ok? ==> InRange(r.value.0, |x|) && InRange(r.value.1, |x|)
    ensures r.Err? <==> |Edges(x, -1, |x|)| > 0 && |Edges(x, 1, |x|)| == 0
  {
    var ups := Edges(x, 1, |x|);
    var downs := Edges(x, -1, |x|);
    if |downs| > 0 && |ups| == 0 then Err(NoRisingEdge)
    else
      var downs' := if |downs| > 0 then KeepAfter(ts, downs, ups[0]) else downs;
      var ups' := if |ups| > |downs'| then ups[..|downs'|] else ups;
      Ok((ups', downs'))
  }

  /** The down filter's zipped pairs (ds, us): rising edges not later than the
      first falling edge are dropped, then surplus falling edges are cut off. */
  function DownPairs(x: seq<int>, ts: seq<int>): (r: (seq<nat>, seq<nat>))
    requires |ts| == |x|
    ensures InRange(r.0, |x|) && InRange(r.1, |x|)
    ensures forall e :: e in r.1 <==>
      e in Edges(x, 1, |x|) && (|Edges(x, -1, |x|)| > 0 ==> ts[e] > ts[Edges(x, -1, |x|)[0]])
    ensures |r.0| == Min(|Edges(x, -1, |x|)|, |r.1|)
    ensures r.0 == Edges(x, -1, |x|)[..|r.0|]
  {
    var ups := Edges(x, 1, |x|);
    var downs := Edges(x, -1, |x|);
    var ups' := if |downs| > 0 then KeepAfter(ts, ups, downs[0]) else ups;
    var downs' := if |downs| > |ups'| then downs[..|ups'|] else downs;
    (downs', ups')
  }

  /** `up_filter` on one column: a size of 0 seconds copies the column. */
  function UpFiltered(x: seq<int>, ts: seq<int>, sizeSeconds: nat): (r: Result<seq<int>, FilterError>)
    requires |ts| == |x|
    ensures r.Ok? ==> |r.value| == |x|
    ensures r.Ok? ==> forall p :: 0 <= p < |x| ==> r.value[p] == 0 || r.value[p] == x[p]
    ensures r.Err? <==> sizeSeconds > 0 && |Edges(x, -1, |x|)| > 0 && |Edges(x, 1, |x|)| == 0
  {
    if sizeSeconds == 0 then Ok(x)
    else match UpPairs(x, ts)
      case Err(e) => Err(e)
      case Ok(pairs) => Ok(Overwrite(x, ts, pairs.0, pairs.1, sizeSeconds * TicksPerSecond, 0))
  }

  /** `down_filter` on one column; it never fails. */
  function DownFiltered(x: seq<int>, ts: seq<int>, sizeSeconds: nat): (y: seq<int>)
    requires |ts| == |x|
    ensures |y| == |x|
    ensures forall p :: 0 <= p < |x| ==> y[p] == 1 || y[p] == x[p]
  {
    if sizeSeconds == 0 then x
    else
      var pairs := DownPairs(x, ts);
      Overwrite(x, ts, pairs.0, pairs.1, sizeSeconds * TicksPerSecond, 1)
  }

  /** `up_filter` on a frame: the result is a copy of the frame with the
      filtered column added under `<flag>_up_filtered`. */
  function UpFilterFrame(df: Frame, flag: string, sizeSeconds: nat): (r: Result<Frame, FilterError>)
    requires WellFormed(df)
    ensures r.Ok? ==> flag in df.columns && r.value.index == df.index
    ensures r.Ok? ==> r.value.columns.Keys == df.columns.Keys + {flag + UpSuffix}
    ensures r.Ok? ==> forall c :: c in df.columns && c != flag + UpSuffix ==> r.value.columns[c] == df.columns[c]
    ensures r.Ok? ==> r.value.columns[flag] == df.columns[flag]
    ensures flag !in df.columns ==> r == Err(MissingColumn(flag))
  {
    if flag !in df.columns then Err(MissingColumn(flag))
    else match UpFiltered(df.columns[flag], df.index, sizeSeconds)
      case Err(e) => Err(e)
      case Ok(col) =>
        assert |flag + UpSuffix| != |flag|;
        Ok(df.(columns := df.columns[flag + UpSuffix := col]))
  }

  /** `down_filter` on a frame: adds `<flag>_down_filtered`. */
  function DownFilterFrame(df: Frame, flag: string, sizeSeconds: nat): (r: Result<Frame, FilterError>)
    requires WellFormed(df)
    ensures r.Ok? <==> flag in df.columns
    ensures r.Ok? ==> r.value.index == df.index
    ensures r.Ok? ==> r.value.columns.Keys == df.columns.Keys + {flag + DownSuffix}
    ensures r.Ok? ==> forall c :: c in df.columns && c != flag + DownSuffix ==> r.value.columns[c] == df.columns[c]
    ensures r.Ok? ==> r.value.columns[flag] == df.columns[flag]
  {
    if flag !in df.columns then Err(MissingColumn(flag))
    else
      assert |flag + DownSuffix| != |flag|;
      Ok(df.(columns := df.columns[flag + DownSuffix := DownFiltered(df.columns[flag], df.index, sizeSeconds)]))
  }

  lemma UpFilterFrameWellFormed(df: Frame, flag: string, sizeSeconds: nat)
    requires WellFormed(df)
    ensures UpFilterFrame(df, flag, sizeSeconds).Ok? ==> WellFormed(UpFilterFrame(df, flag, sizeSeconds).value)
  {
  }

  /** `filtering`: the two filters in the order `first_filter` names; the
      final column is copied to `<flag>_filtered`.  Any other order name
      returns the copy untouched. */
  function FilteringFrame(df: Frame, flag: string, upSeconds: nat, downSeconds: nat, firstFilter: string): (r: Result<Frame, FilterError>)
    requires WellFormed(df)
    ensures firstFilter != "down" && firstFilter != "up" ==> r == Ok(df)
    ensures (firstFilter == "down" || firstFilter == "up") && flag !in df.columns ==> r == Err(MissingColumn(flag))
    ensures r.Ok? ==> r.value.index == df.index
    ensures r.Ok? && (firstFilter == "down" || firstFilter == "up") ==>
      && flag in df.columns && flag in r.value.columns && r.value.columns[flag] == df.columns[flag]
      && flag + FilteredSuffix in r.value.columns
  {
    if firstFilter == "down" then
      match DownFilterFrame(df, flag, downSeconds)
      case Err(e) => Err(e)
      case Ok(d) =>
        match UpFilterFrame(d, flag + DownSuffix, upSeconds)
        case Err(e) => Err(e)
        case Ok(u) =>
          Ok(u.(columns := u.columns[flag + FilteredSuffix := u.columns[flag + DownSuffix + UpSuffix]]))
    else if firstFilter == "up" then
      match UpFilterFrame(df, flag, upSeconds)
      case Err(e) => Err(e)
      case Ok(u) =>
        UpFilterFrameWellFormed(df, flag, upSeconds);
        match DownFilterFrame(u, flag + UpSuffix, downSeconds)
        case Err(e) => Err(e)
        case Ok(d) =>
          Ok(d.(columns := d.columns[flag + FilteredSuffix := d.columns[flag + UpSuffix + DownSuffix]]))
    else Ok(df)
  }

  // -----------------------------------------------------------------------
  // The filters as the source runs them: build and trim the edge lists, then
  // overwrite the short pairs of a fresh copy of the column in place.

  /** The zip loop both filters run: on a fresh copy of the column, write w
      over every pair [starts[k], ends[k]] whose duration is below sizeTicks
      (`df.loc[us:ds, col] = w`). */
  method OverwriteShortPairs(x: seq<int>, ts: seq<int>, starts: seq<nat>, ends: seq<nat>, sizeTicks: int, w: int)
    returns (y: seq<int>)
    requires |ts| == |x| && InRange(starts, |ts|) && InRange(ends, |ts|)
    ensures y == Overwrite(x, ts, starts, ends, sizeTicks, w)
  {
    var out := new int[|x|](p requires 0 <= p < |x| => x[p]);
    var m := Min(|starts|, |ends|);
    var k := 0;
    while k < m
      invariant 0 <= k <= m
      invariant forall p :: 0 <= p < |x| ==> out[p] == if PairsCover(ts, starts, ends, sizeTicks, k, p) then w else x[p]
    {
      forall p | 0 <= p < |x| {
        CoverStep(ts, starts, ends, sizeTicks, k, p);
      }
      var lo, hi := starts[k], ends[k];
      if ts[hi] - ts[lo] < sizeTicks {
        forall p | lo <= p <= hi {
          out[p] := w;
        }
      }
      k := k + 1;
    }
    y := out[..];
  }

  method UpFilter(df: Frame, flag: string, sizeSeconds: nat) returns (res: Result<Frame, FilterError>)
    requires WellFormed(df)
    ensures res == UpFilterFrame(df, flag, sizeSeconds)
  {
    if flag !in df.columns {
      return Err(MissingColumn(flag));
    }
    var x := df.columns[flag];
    var ts := df.index;
    if sizeSeconds == 0 {
      return Ok(df.(columns := df.columns[flag + UpSuffix := x]));
    }
    var ups := Edges(x, 1, |x|);
    var downs := Edges(x, -1, |x|);
    if |downs| > 0 {
      if |ups| == 0 {
        return Err(NoRisingEdge);
      }
      downs := KeepAfter(ts, downs, ups[0]);
    }
    if |ups| > |downs| {
      ups := ups[..|downs|];
    }
    assert UpPairs(x, ts) == Ok((ups, downs));
    var sizeTicks := sizeSeconds * TicksPerSecond;
    var out := OverwriteShortPairs(x, ts, ups, downs, sizeTicks, 0);
    res := Ok(df.(columns := df.columns[flag + UpSuffix := out]));
  }

  method DownFilter(df: Frame, flag: string, sizeSeconds: nat) returns (res: Result<Frame, FilterError>)
    requires WellFormed(df)
    ensures res == DownFilterFrame(df, flag, sizeSeconds)
  {
    if flag !in df.columns {
      return Err(MissingColumn(flag));
    }
    var x := df.columns[flag];
    var ts := df.index;
    if sizeSeconds == 0 {
      return Ok(df.(columns := df.columns[flag + DownSuffix := x]));
    }
    var ups := Edges(x, 1, |x|);
    var downs := Edges(x, -1, |x|);
    if |downs| > 0 {
      ups := KeepAfter(ts, ups, downs[0]);
    }
    if |downs| > |ups| {
      downs := downs[..|ups|];
    }
    assert DownPairs(x, ts) == (downs, ups);
    var sizeTicks := sizeSeconds * TicksPerSecond;
    var out := OverwriteShortPairs(x, ts, downs, ups, sizeTicks, 1);
    res := Ok(df.(columns := df.columns[flag + DownSuffix := out]));
  }

  method Filtering(df: Frame, flag: string, upSeconds: nat, downSeconds: nat, firstFilter: string)
    returns (res: Result<Frame, FilterError>)
    requires WellFormed(df)
    ensures res == FilteringFrame(df, flag, upSeconds, downSeconds, firstFilter)
  {
    res := Ok(df);
    if firstFilter == "down" {
      var d := DownFilter(df, flag, downSeconds);
      if d.Err? {
        return Err(d.error);
      }
      var u := UpFilter(d.value, flag + DownSuffix, upSeconds);
      if u.Err? {
        return Err(u.error);
      }
      var f := u.value;
      res := Ok(f.(columns := f.columns[flag + FilteredSuffix := f.columns[flag + DownSuffix + UpSuffix]]));
    } else if firstFilter == "up" {
      var u := UpFilter(df, flag, upSeconds);
      if u.Err? {
        return Err(u.error);
      }
      UpFilterFrameWellFormed(df, flag, upSeconds);
      var d := DownFilter(u.value, flag + UpSuffix, downSeconds);
      var f := d.value;
      res := Ok(f.(columns := f.columns[flag + FilteredSuffix := f.columns[flag + UpSuffix + DownSuffix]]));
    }
  }
}

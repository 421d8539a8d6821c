/** The deterministic detector and its scores
    (MHPDT_cross_validation/mhpdt_cross_validation.py): threshold the `mhp`
    feature into `is_cycle`, bridge idle gaps into `state` ("andon" step),
    run the two micro filters in 'down' order into `state_filtered`, and
    compare the prediction with tagged labels. */
module CrossValidation {
  import opened Wrappers
  import opened Series
  import opened MicroFilter
  import opened FilterRuns

  /** The detector's parameter set, as the `model_params` dictionary carries
      it.  Durations are whole seconds. */
  datatype ModelParams = ModelParams(
    mhpThreshold: real,
    minCycleTime: int,
    andonUptimeThreshold: nat,
    upFilterSize: nat,
    downFilterSize: nat)

  datatype PredictionError =
    | EmptyIndex                  // IndexError: `df.index[0]` on an empty frame
    | Filter(error: FilterError)

  /** `fast_MHPDT`: adds `is_cycle`, 1 exactly where the feature reaches the
      threshold (inclusive).  `andon_uptime_threshold` is accepted and unused. */
  function FastMhpdt(df: Frame, mhp: seq<real>, threshold: real, andonUptimeThreshold: nat): (r: Frame)
    requires WellFormed(df) && |mhp| == |df.index|
    ensures WellFormed(r) && r.index == df.index
    ensures r.columns.Keys == df.columns.Keys + {"is_cycle"}
    ensures forall c :: c in df.columns && c != "is_cycle" ==> r.columns[c] == df.columns[c]
    ensures IsBinary(r.columns["is_cycle"])
    ensures forall i :: 0 <= i < |mhp| ==> (r.columns["is_cycle"][i] == 1 <==> mhp[i] >= threshold)
  {
    df.(columns := df.columns["is_cycle" := CycleFlags(mhp, threshold)])
  }

  function CycleFlags(mhp: seq<real>, threshold: real): (c: seq<int>)
  {
    seq(|mhp|, i requires 0 <= i < |mhp| => if mhp[i] >= threshold then 1 else 0)
  }

  /** Reference definition of the andon step at sample i: never for sample
      0; otherwise the sample is active, or it lies within the threshold
      (inclusive) of an earlier active sample other than sample 0. */
  predicate Bridged(c: seq<int>, ts: seq<int>, thresholdTicks: int, i: nat)
    requires |ts| == |c| && i < |c|
  {
    i > 0 && (c[i] != 0 || exists j :: 0 < j < i && c[j] != 0 && ts[i] <= ts[j] + thresholdTicks)
  }

  function AndonState(c: seq<int>, ts: seq<int>, thresholdTicks: int): (r: seq<int>)
    requires |ts| == |c|
    ensures |r| == |c| && IsBinary(r)
  {
    seq(|c|, i requires 0 <= i < |c| => if Bridged(c, ts, thresholdTicks, i) then 1 else 0)
  }

  /** `andon_state_from_mhpdt`: the forward walk that tracks the timestamp
      of the last active sample, seeded one threshold before the first
      timestamp.  No `is_cycle` column gives an empty list. */
  method AndonStateFromMhpdt(df: Frame, thresholdTicks: int) returns (r: Result<seq<int>, PredictionError>)
    requires WellFormed(df)
    ensures "is_cycle" !in df.columns ==> r == Ok([])
    ensures "is_cycle" in df.columns && |df.index| == 0 ==> r == Err(EmptyIndex)
    ensures "is_cycle" in df.columns && |df.index| > 0 ==>
      r == Ok(AndonState(df.columns["is_cycle"], df.index, thresholdTicks))
  {
    if "is_cycle" !in df.columns {
      return Ok([]);
    }
    var c := df.columns["is_cycle"];
    var ts := df.index;
    if |ts| == 0 {
      return Err(EmptyIndex);
    }
    var state := new int[|c|];
    forall i | 0 <= i < |c| {
      state[i] := 0;
    }
    var lastCsp := ts[0] - thresholdTicks;
    var i := 0;
    while i < |c|
      invariant 0 <= i <= |c|
      invariant forall j :: 0 <= j < i ==> state[j] == if Bridged(c, ts, thresholdTicks, j) then 1 else 0
      invariant forall j :: i <= j < |c| ==> state[j] == 0
      invariant lastCsp == ts[0] - thresholdTicks || exists j :: 0 < j < i && c[j] != 0 && lastCsp == ts[j]
      invariant forall j :: 0 < j < i && c[j] != 0 ==> ts[j] <= lastCsp
    {
      if i > 0 {
        if c[i] == 0 {
          if lastCsp + thresholdTicks < ts[i] {
            state[i] := 0;
          } else {
            assert ts[0] < ts[i];
            var j :| 0 < j < i && c[j] != 0 && lastCsp == ts[j];
            state[i] := 1;
          }
        } else {
          state[i] := 1;
          lastCsp := ts[i];
        }
      }
      i := i + 1;
    }
    assert state[..] == AndonState(c, ts, thresholdTicks);
    r := Ok(state[..]);
  }

  // -----------------------------------------------------------------------
  // Properties of the andon step

  /** The andon state never drops an active sample after the first one. */
  lemma AndonCoversCycles(c: seq<int>, ts: seq<int>, thresholdTicks: int, i: nat)
    requires |ts| == |c| && 0 < i < |c| && c[i] != 0
    ensures AndonState(c, ts, thresholdTicks)[i] == 1
  {
  }

  /** With a zero threshold and strictly increasing timestamps nothing is
      bridged: after the first sample the state is the cycle flag. */
  lemma AndonZeroThreshold(c: seq<int>, ts: seq<int>, i: nat)
    requires |ts| == |c| && StrictlyIncreasing(ts) && IsBinary(c) && 0 < i < |c|
    ensures AndonState(c, ts, 0)[i] == c[i]
  {
  }

  // -----------------------------------------------------------------------
  // The whole detector

  /** What the detector predicts, stated stage by stage: threshold, bridge
      idle gaps up to the andon threshold, fill closed idle runs shorter than
      the down size, then clear closed active runs shorter than the up size. */
  function Predicted(ts: seq<int>, mhp: seq<real>, params: ModelParams): (y: seq<int>)
    requires |ts| == |mhp|
  {
    var state := AndonState(CycleFlags(mhp, params.mhpThreshold), ts, params.andonUptimeThreshold * TicksPerSecond);
    var filled := RunFiltered(state, ts, 0, params.downFilterSize * TicksPerSecond);
    RunFiltered(filled, ts, 1, params.upFilterSize * TicksPerSecond)
  }

  /** On one 0/1 column that starts at 0, the down filter followed by the up
      filter never fails (the series the up filter receives still starts at
      0) and yields the two run-level filters in the same order. */
  lemma DownThenUpFiltered(x: seq<int>, ts: seq<int>, upSeconds: nat, downSeconds: nat)
    requires IsBinary(x) && |ts| == |x| && StrictlyIncreasing(ts) && |x| > 0 && x[0] == 0
    ensures UpFiltered(DownFiltered(x, ts, downSeconds), ts, upSeconds)
            == Ok(RunFiltered(RunFiltered(x, ts, 0, downSeconds * TicksPerSecond), ts, 1, upSeconds * TicksPerSecond))
  {
    var filled := DownFiltered(x, ts, downSeconds);
    DownFilteredRuns(x, ts, downSeconds);
    RunFilteredBinary(x, ts, 0, downSeconds * TicksPerSecond);
    RunFilteredKeepsFirst(x, ts, 0, downSeconds * TicksPerSecond);
    UpFilteredOkWhenStartingLow(filled, ts, upSeconds);
    UpFilteredRuns(filled, ts, upSeconds);
  }

  /** In 'down' order the up filter always receives a series that starts at
      0 (the andon state of sample 0 is 0 and the down filter keeps it), so
      its `up_starts[0]` lookup never fails; the filtered column is the
      stage-by-stage prediction. */
  lemma DownOrderFilteringOfState(df: Frame, mhp: seq<real>, params: ModelParams)
    requires WellFormed(df) && |mhp| == |df.index| && |df.index| > 0
    requires "state" in df.columns
    requires df.columns["state"] == AndonState(CycleFlags(mhp, params.mhpThreshold), df.index, params.andonUptimeThreshold * TicksPerSecond)
    ensures FilteringFrame(df, "state", params.upFilterSize, params.downFilterSize, "down").Ok?
    ensures "state_filtered" in FilteringFrame(df, "state", params.upFilterSize, params.downFilterSize, "down").value.columns
    ensures FilteringFrame(df, "state", params.upFilterSize, params.downFilterSize, "down").value.columns["state_filtered"]
            == Predicted(df.index, mhp, params)
    ensures FilteringFrame(df, "state", params.upFilterSize, params.downFilterSize, "down").value.index == df.index
    ensures "is_cycle" in df.columns ==>
      && "is_cycle" in FilteringFrame(df, "state", params.upFilterSize, params.downFilterSize, "down").value.columns
      && FilteringFrame(df, "state", params.upFilterSize, params.downFilterSize, "down").value.columns["is_cycle"]
         == df.columns["is_cycle"]
  {
    var state := df.columns["state"];
    DownThenUpFiltered(state, df.index, params.upFilterSize, params.downFilterSize);
    var d := DownFilterFrame(df, "state", params.downFilterSize).value;
    assert d.columns["state" + DownSuffix] == DownFiltered(state, df.index, params.downFilterSize);
    var u := UpFilterFrame(d, "state" + DownSuffix, params.upFilterSize);
    assert u == Ok(d.(columns := d.columns["state" + DownSuffix + UpSuffix := Predicted(df.index, mhp, params)]));
    StateColumnNames();
  }

  /** The column names the 'down' order produces for flag `state`. */
  lemma StateColumnNames()
    ensures "state" + FilteredSuffix == "state_filtered"
    ensures "state" + DownSuffix == "state_down_filtered"
  {
  }

  /** `andon_prediction_with_filtering`: threshold, andon step into `state`,
      then `filtering` in 'down' order with sizes in seconds.
      `min_cycle_time` is not used. */
  method AndonPredictionWithFiltering(df: Frame, mhp: seq<real>, params: ModelParams) returns (res: Result<Frame, PredictionError>)
    requires WellFormed(df) && |mhp| == |df.index|
    ensures res.Ok? <==> |df.index| > 0
    ensures !res.Ok? ==> res == Err(EmptyIndex)
    ensures res.Ok? ==> res.value.index == df.index
    ensures res.Ok? ==> "is_cycle" in res.value.columns && res.value.columns["is_cycle"] == CycleFlags(mhp, params.mhpThreshold)
    ensures res.Ok? ==> "state_filtered" in res.value.columns && res.value.columns["state_filtered"] == Predicted(df.index, mhp, params)
  {
    var prediction := FastMhpdt(df, mhp, params.mhpThreshold, params.andonUptimeThreshold);
    var andonThreshold := params.andonUptimeThreshold * TicksPerSecond;
    var state := AndonStateFromMhpdt(prediction, andonThreshold);
    if state.Err? {
      return Err(EmptyIndex);
    }
    assert prediction.columns["is_cycle"] == CycleFlags(mhp, params.mhpThreshold);
    prediction := prediction.(columns := prediction.columns["state" := state.value]);
    DownOrderFilteringOfState(prediction, mhp, params);
    var filtered := Filtering(prediction, "state", params.upFilterSize, params.downFilterSize, "down");
    res := Ok(filtered.value);
  }

  // -----------------------------------------------------------------------
  // Scores

  /** `np.sum(np.abs(a - b))`. */
  function SumAbsDiff(a: seq<int>, b: seq<int>): (r: int)
    requires |a| == |b|
    ensures r >= 0
    ensures r == 0 <==> a == b
  {
    if a == [] then 0
    else (if a[0] >= b[0] then a[0] - b[0] else b[0] - a[0]) + SumAbsDiff(a[1..], b[1..])
  }

  /** The number of positions where a and b differ. */
  function Mismatches(a: seq<int>, b: seq<int>): (r: nat)
    requires |a| == |b|
    ensures r <= |a|
  {
    if a == [] then 0 else (if a[0] != b[0] then 1 else 0) + Mismatches(a[1..], b[1..])
  }

  /** On 0/1 series the sum of absolute differences counts the mismatches. */
  lemma {:induction false} SumAbsDiffCountsMismatches(a: seq<int>, b: seq<int>)
    requires |a| == |b| && IsBinary(a) && IsBinary(b)
    ensures SumAbsDiff(a, b) == Mismatches(a, b)
  {
    if a != [] {
      SumAbsDiffCountsMismatches(a[1..], b[1..]);
    }
  }

  lemma {:induction false} MismatchesZero(a: seq<int>, b: seq<int>)
    requires |a| == |b|
    ensures Mismatches(a, b) == 0 <==> a == b
  {
    if a != [] {
      MismatchesZero(a[1..], b[1..]);
      if a[0] == b[0] && a[1..] == b[1..] {
        assert a == [a[0]] + a[1..] && b == [b[0]] + b[1..];
      }
    }
  }

  /** `sklearn.metrics.accuracy_score`: the fraction of agreeing positions
      (the final rounding to 3 decimals is not modelled). */
  function Accuracy(truth: seq<int>, predicted: seq<int>): (acc: real)
    requires |truth| == |predicted| > 0
    ensures 0.0 <= acc <= 1.0
    ensures acc == 1.0 <==> truth == predicted
  {
    MismatchesZero(truth, predicted);
    FractionBounds(|truth| as real, (|truth| - Mismatches(truth, predicted)) as real);
    (|truth| - Mismatches(truth, predicted)) as real / |truth| as real
  }

  lemma FractionBounds(n: real, k: real)
    requires 0.0 <= k <= n && n > 0.0
    ensures 0.0 <= k / n <= 1.0
    ensures k / n == 1.0 <==> k == n
  {
    assert k / n * n == k;
  }

  /** The two scores agree on 0/1 series: accuracy is one minus the
      mismatch score per sample. */
  lemma AccuracyFromMismatchScore(truth: seq<int>, predicted: seq<int>)
    requires |truth| == |predicted| > 0 && IsBinary(truth) && IsBinary(predicted)
    ensures Accuracy(truth, predicted) == 1.0 - SumAbsDiff(truth, predicted) as real / |truth| as real
  {
    SumAbsDiffCountsMismatches(truth, predicted);
    FractionOfRest(|truth| as real, Mismatches(truth, predicted) as real);
  }

  lemma FractionOfRest(n: real, m: real)
    requires n > 0.0
    ensures (n - m) / n == 1.0 - m / n
  {
    assert n / n == 1.0;
    assert (n - m) / n == n / n - m / n;
  }

  /** `hmm_tagged_mhpdt_score`: the detector with andon threshold 5 s and
      the given threshold and filter sizes, scored by the sum of absolute
      differences from the ground truth (the objective the optimiser
      minimises). */
  method HmmTaggedMhpdtScore(df: Frame, mhp: seq<real>, groundTruth: seq<int>, featureThreshold: real, upFilterSize: nat, downFilterSize: nat)
    returns (score: Result<int, PredictionError>)
    requires WellFormed(df) && |mhp| == |df.index| && |groundTruth| == |df.index|
    ensures |df.index| == 0 ==> score == Err(EmptyIndex)
    ensures |df.index| > 0 ==> score == Ok(SumAbsDiff(groundTruth, Predicted(df.index, mhp, ScoringParams(featureThreshold, upFilterSize, downFilterSize))))
  {
    var params := ScoringParams(featureThreshold, upFilterSize, downFilterSize);
    var prediction := AndonPredictionWithFiltering(df, mhp, params);
    if prediction.Err? {
      return Err(prediction.error);
    }
    score := Ok(SumAbsDiff(groundTruth, prediction.value.columns["state_filtered"]));
  }

  /** The parameters `hmm_tagged_mhpdt_score` builds: `min_cycle_time` 0 and
      `andon_uptime_threshold` 5 seconds. */
  function ScoringParams(featureThreshold: real, upFilterSize: nat, downFilterSize: nat): (p: ModelParams)
    ensures p.mhpThreshold == featureThreshold && p.minCycleTime == 0 && p.andonUptimeThreshold == 5
    ensures p.upFilterSize == upFilterSize && p.downFilterSize == downFilterSize
  {
    ModelParams(featureThreshold, 0, 5, upFilterSize, downFilterSize)
  }

  /** `optimization_score`: the accuracy of the detector run with `params`
      against the tagged labels. */
  method OptimizationScore(df: Frame, mhp: seq<real>, params: ModelParams, taggedLabels: seq<int>)
    returns (score: Result<real, PredictionError>)
    requires WellFormed(df) && |mhp| == |df.index| && |taggedLabels| == |df.index|
    ensures |df.index| == 0 ==> score == Err(EmptyIndex)
    ensures |df.index| > 0 ==> score == Ok(Accuracy(taggedLabels, Predicted(df.index, mhp, params)))
  {
    var prediction := AndonPredictionWithFiltering(df, mhp, params);
    if prediction.Err? {
      return Err(prediction.error);
    }
    score := Ok(Accuracy(taggedLabels, prediction.value.columns["state_filtered"]));
  }
}

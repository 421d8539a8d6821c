/** Helpers of the dashboard (`dash_utils.py`): the andon change-point list,
    timestamp string reshaping, and the date-range checks and updates driven
    by the chart.  Dates are integer ticks; a date argument is either absent
    (`None`), the empty string (which parses to NaT), or a parsed date. */
module Dash {
  import opened Wrappers
  import opened Series

  datatype DashError = IndexError | KeyError(key: string) | TypeError

  // -----------------------------------------------------------------------
  // andon_state_list_generator

  /** The (timestamp, state) pairs of the first n samples that start a new
      state: sample 0 (its `shift(1)` neighbour is NaN, which differs from
      everything) and every sample whose state differs from its
      predecessor's. */
  /** Sample i starts a new state: `states != states.shift(1)` at i. */
  predicate StartsState(states: seq<int>, i: nat)
    requires i < |states|
  {
    i == 0 || states[i] != states[i - 1]
  }

  function ChangePoints(ts: seq<int>, states: seq<int>, n: nat): (cps: seq<(int, int)>)
    requires |ts| == |states| && n <= |states|
    ensures |cps| <= n
    ensures n > 0 ==> |cps| > 0 && cps[0] == (ts[0], states[0])
    ensures forall k :: 0 <= k < |cps| - 1 ==> cps[k].1 != cps[k + 1].1
    ensures n > 0 ==> cps[|cps| - 1].1 == states[n - 1]
  {
    if n == 0 then []
    else
      var before := ChangePoints(ts, states, n - 1);
      if n == 1 || states[n - 1] != states[n - 2] then before + [(ts[n - 1], states[n - 1])]
      else before
  }

  /** Every change point is (ts[i], states[i]) for a sample i that starts a
      new state. */
  lemma {:induction false} ChangePointsSound(ts: seq<int>, states: seq<int>, n: nat)
    requires |ts| == |states| && n <= |states|
    ensures forall k :: 0 <= k < |ChangePoints(ts, states, n)| ==>
      exists i :: 0 <= i < n && StartsState(states, i) && ChangePoints(ts, states, n)[k] == (ts[i], states[i])
  {
    if n > 0 {
      ChangePointsSound(ts, states, n - 1);
      var before, cps := ChangePoints(ts, states, n - 1), ChangePoints(ts, states, n);
      assert StartsState(states, n - 1) ==> cps == before + [(ts[n - 1], states[n - 1])];
      assert !StartsState(states, n - 1) ==> cps == before;
      forall k | 0 <= k < |cps|
        ensures exists i :: 0 <= i < n && StartsState(states, i) && cps[k] == (ts[i], states[i])
      {
        if k < |before| {
          var i :| 0 <= i < n - 1 && StartsState(states, i) && before[k] == (ts[i], states[i]);
          assert cps[k] == before[k] == (ts[i], states[i]);
        } else {
          assert StartsState(states, n - 1) && cps[k] == (ts[n - 1], states[n - 1]);
        }
      }
    } else {
      assert ChangePoints(ts, states, n) == [];
    }
  }

  /** Every sample that starts a new state is a change point. */
  lemma {:induction false} ChangePointsComplete(ts: seq<int>, states: seq<int>, n: nat)
    requires |ts| == |states| && n <= |states|
    ensures forall i :: 0 <= i < n && StartsState(states, i) ==> (ts[i], states[i]) in ChangePoints(ts, states, n)
  {
    if n > 0 {
      ChangePointsComplete(ts, states, n - 1);
      var before, cps := ChangePoints(ts, states, n - 1), ChangePoints(ts, states, n);
      assert forall e :: e in before ==> e in cps;
    }
  }

  /** On a sorted index the change points come in timestamp order. */
  lemma {:induction false} ChangePointsOrdered(ts: seq<int>, states: seq<int>, n: nat)
    requires |ts| == |states| && n <= |states| && StrictlyIncreasing(ts)
    ensures forall k, l :: 0 <= k < l < |ChangePoints(ts, states, n)| ==>
      ChangePoints(ts, states, n)[k].0 < ChangePoints(ts, states, n)[l].0
  {
    if n > 0 {
      ChangePointsOrdered(ts, states, n - 1);
      ChangePointsSound(ts, states, n - 1);
      var before, cps := ChangePoints(ts, states, n - 1), ChangePoints(ts, states, n);
      forall k, l | 0 <= k < l < |cps|
        ensures cps[k].0 < cps[l].0
      {
        assert cps[k] == before[k];
        if l < |before| {
          assert cps[l] == before[l];
        } else {
          var i :| 0 <= i < n - 1 && StartsState(states, i) && before[k] == (ts[i], states[i]);
          assert cps[l] == (ts[n - 1], states[n - 1]);
        }
      }
    }
  }

  /** `andon_state_list_generator` (timestamps are kept as ticks rather than
      rendered as strings). */
  function AndonStateList(ts: seq<int>, states: seq<int>): (cps: seq<(int, int)>)
    requires |ts| == |states|
    ensures |cps| <= |states| && (cps == [] <==> states == [])
    ensures |states| > 0 ==> cps[0] == (ts[0], states[0]) && cps[|cps| - 1].1 == states[|states| - 1]
    ensures forall k :: 0 <= k < |cps| - 1 ==> cps[k].1 != cps[k + 1].1
    ensures forall k :: 0 <= k < |cps| ==>
      exists i :: 0 <= i < |states| && StartsState(states, i) && cps[k] == (ts[i], states[i])
    ensures forall i :: 0 <= i < |states| && StartsState(states, i) ==> (ts[i], states[i]) in cps
    ensures StrictlyIncreasing(ts) ==> forall k, l :: 0 <= k < l < |cps| ==> cps[k].0 < cps[l].0
  {
    ChangePointsSound(ts, states, |states|);
    ChangePointsComplete(ts, states, |states|);
    if StrictlyIncreasing(ts) then
      ChangePointsOrdered(ts, states, |states|);
      ChangePoints(ts, states, |states|)
    else
      ChangePoints(ts, states, |states|)
  }

  /** Reading a change-point list: the state of the last entry at or before
      time t, if any. */
  function StateAt(cps: seq<(int, int)>, t: int): Option<int>
  {
    if cps == [] then None
    else if cps[|cps| - 1].0 <= t then Some(cps[|cps| - 1].1)
    else StateAt(cps[..|cps| - 1], t)
  }

  lemma {:induction false} StateAtLast(ts: seq<int>, states: seq<int>, n: nat, t: int)
    requires |ts| == |states| && StrictlyIncreasing(ts) && 0 < n <= |states| && ts[n - 1] <= t
    ensures StateAt(ChangePoints(ts, states, n), t) == Some(states[n - 1])
  {
    if !(n == 1 || states[n - 1] != states[n - 2]) {
      StateAtLast(ts, states, n - 1, t);
    }
  }

  /** Entries appended after time t do not change the reading at t. */
  lemma {:induction false} StateAtIgnoresLater(ts: seq<int>, states: seq<int>, m: nat, n: nat, t: int)
    requires |ts| == |states| && StrictlyIncreasing(ts) && 0 < m <= n <= |states|
    requires m < |states| ==> t < ts[m]
    ensures StateAt(ChangePoints(ts, states, n), t) == StateAt(ChangePoints(ts, states, m), t)
    decreases n - m
  {
    if m < n {
      StateAtIgnoresLater(ts, states, m, n - 1, t);
      assert t < ts[n - 1];
    }
  }

  /** The change-point list loses nothing: reading it at any sample's time
      gives back that sample's state. */
  lemma ChangePointsRoundTrip(ts: seq<int>, states: seq<int>, p: nat)
    requires |ts| == |states| && StrictlyIncreasing(ts) && p < |states|
    ensures StateAt(AndonStateList(ts, states), ts[p]) == Some(states[p])
  {
    StateAtIgnoresLater(ts, states, p + 1, |states|, ts[p]);
    StateAtLast(ts, states, p + 1, ts[p]);
  }

  // -----------------------------------------------------------------------
  // str_date_converter

  /** The ASCII whitespace `str.split()` separates on. */
  predicate IsSpace(c: char)
  {
    || c == ' ' || c == '\t' || c == '\n' || c == '\r' || c == '\U{000B}' || c == '\U{000C}'
    || '\U{001C}' <= c <= '\U{001F}'
  }

  predicate NoSpace(s: string)
  {
    forall i :: 0 <= i < |s| ==> !IsSpace(s[i])
  }

  /** The longest prefix of s without whitespace. */
  function TakeWord(s: string): (w: string)
    ensures |w| <= |s| && w == s[..|w|] && NoSpace(w)
    ensures |w| == |s| || IsSpace(s[|w|])
  {
    if s == [] || IsSpace(s[0]) then [] else [s[0]] + TakeWord(s[1..])
  }

  /** `str.split()` with no separator: the maximal runs of non-whitespace. */
  function Words(s: string): (ws: seq<string>)
    ensures forall k :: 0 <= k < |ws| ==> |ws[k]| > 0 && NoSpace(ws[k])
    decreases |s|
  {
    if s == [] then []
    else if IsSpace(s[0]) then Words(s[1..])
    else
      var w := TakeWord(s);
      [w] + Words(s[|w|..])
  }

  /** Python's `w[:-3]`: all but the last three characters, or nothing. */
  function DropLast3(w: string): (r: string)
    ensures |w| >= 3 ==> r == w[..|w| - 3]
    ensures |w| < 3 ==> r == []
  {
    if |w| >= 3 then w[..|w| - 3] else []
  }

  /** `str_date_converter`: the first two words joined by "T", the second
      one losing its last three characters (microseconds to milliseconds).
      Fewer than two words fail with an IndexError. */
  function StrDateConverter(row: string): (r: Result<string, DashError>)
    ensures r.Err? <==> |Words(row)| < 2
  {
    var words := Words(row);
    if |words| < 2 then Err(IndexError)
    else Ok(words[0] + "T" + DropLast3(words[1]))
  }

  lemma {:induction false} WordsOfWord(w: string)
    requires |w| > 0 && NoSpace(w)
    ensures Words(w) == [w]
  {
    TakeWordWhole(w);
    assert w[|w|..] == [];
  }

  lemma {:induction false} TakeWordWhole(w: string)
    requires NoSpace(w)
    ensures TakeWord(w) == w
    decreases |w|
  {
    if w != [] {
      TakeWordWhole(w[1..]);
    }
  }

  lemma {:induction false} TakeWordBeforeSpace(w: string, rest: string)
    requires NoSpace(w) && |rest| > 0 && IsSpace(rest[0])
    ensures TakeWord(w + rest) == w
    decreases |w|
  {
    if w != [] {
      assert (w + rest)[1..] == w[1..] + rest;
      TakeWordBeforeSpace(w[1..], rest);
    }
  }

  /** On `str(timestamp)`, "date time", the converter gives the ISO form
      "dateTtime" with the time cut to milliseconds. */
  lemma StrDateConverterOnTimestamp(date: string, time: string)
    requires |date| > 0 && NoSpace(date) && |time| > 0 && NoSpace(time)
    ensures StrDateConverter(date + " " + time) == Ok(date + "T" + DropLast3(time))
  {
    var row := date + " " + time;
    TakeWordBeforeSpace(date, " " + time);
    assert row == date + (" " + time);
    assert row[|date|..] == " " + time;
    assert (" " + time)[1..] == time;
    WordsOfWord(time);
    assert Words(" " + time) == [time];
    assert row[0] == date[0];
    assert Words(row) == [date] + Words(row[|date|..]);
  }

  // -----------------------------------------------------------------------
  // Date arguments and range checks

  /** A date argument: `None`, the empty string (parsed to NaT, which is
      truthy and compares false with everything), or a parsed date. */
  datatype DateArg = Missing | Blank | Date(ticks: int)

  const StartOutOfRange: string := "Given start date is out of timeseries' range"
  const EndOutOfRange: string := "Given end date is out of timeseries' range"
  const DatesEqual: string := "Start date and end date are equal. Unable to filter date range."
  const StartAfterEnd: string := "Start date is greater than end date. Unable to filter date range."

  /** A date argument that is no parsed date, or a date inside
      [first, last] of the index. */
  predicate WithinIndex(index: seq<int>, d: DateArg)
  {
    d.Date? ==> |index| > 0 && index[0] <= d.ticks <= index[|index| - 1]
  }

  /** `date_range_sanity_checker`: no message when both dates lie in the
      index's range; an out-of-range end date's message replaces the start
      date's.  The index is read whenever an argument is not `None`. */
  method DateRangeSanityChecker(index: seq<int>, start: DateArg, end: DateArg) returns (r: Result<Option<string>, DashError>)
    ensures r.Err? <==> |index| == 0 && (start != Missing || end != Missing)
    ensures r.Ok? ==> (r.value == None <==> WithinIndex(index, start) && WithinIndex(index, end))
    ensures r.Ok? && !WithinIndex(index, end) ==> r.value == Some(EndOutOfRange)
    ensures r.Ok? && WithinIndex(index, end) && !WithinIndex(index, start) ==> r.value == Some(StartOutOfRange)
  {
    var failErrorMsg: Option<string> := None;
    if start != Missing {
      if |index| == 0 {
        return Err(IndexError);
      }
      if start.Date? && (index[0] > start.ticks || index[|index| - 1] < start.ticks) {
        failErrorMsg := Some(StartOutOfRange);
      }
    }
    if end != Missing {
      if |index| == 0 {
        return Err(IndexError);
      }
      if end.Date? && (index[|index| - 1] < end.ticks || index[0] > end.ticks) {
        failErrorMsg := Some(EndOutOfRange);
      }
    }
    r := Ok(failErrorMsg);
  }

  /** The x-axis layout of a chart, which `filter_chart_on_daterange`
      updates in place. */
  class Figure {
    var rangeStart: int
    var rangeEnd: int
    var autorange: bool

    constructor (rangeStart: int, rangeEnd: int, autorange: bool)
      ensures this.rangeStart == rangeStart && this.rangeEnd == rangeEnd && this.autorange == autorange
    {
      this.rangeStart := rangeStart;
      this.rangeEnd := rangeEnd;
      this.autorange := autorange;
    }
  }

  /** A bound as `filter_chart_on_daterange` resolves it: a parsed date, or
      the given end of the index when the argument is `None` or "". */
  function Resolve(d: DateArg, fallback: int): int
  {
    if d.Date? then d.ticks else fallback
  }

  /** `filter_chart_on_daterange`: missing bounds default to the ends of the
      index; equal bounds or a start after the end give a message and leave
      the figure alone; otherwise the range is set and autorange switched
      off.  Two `None` dates always give a message, as the one set first is
      never cleared. */
  method FilterChartOnDaterange(fig: Figure, index: seq<int>, start: DateArg, end: DateArg) returns (r: Result<Option<string>, DashError>)
    modifies fig
    ensures r.Err? <==> |index| == 0 && (!start.Date? || !end.Date?)
    ensures r.Err? || r.value.Some? ==> unchanged(fig)
    ensures r.Ok? ==>
      var s := Resolve(start, if |index| > 0 then index[0] else 0);
      var e := Resolve(end, if |index| > 0 then index[|index| - 1] else 0);
      && (r.value == None <==> (start != Missing || end != Missing) && s < e)
      && (s > e ==> r.value == Some(StartAfterEnd))
      && (s == e ==> r.value == Some(DatesEqual))
      && (start == Missing && end == Missing ==> r.value.Some?)
      && (r.value == None ==> fig.rangeStart == s && fig.rangeEnd == e && !fig.autorange)
    ensures r.Ok? && start == Missing && end == Missing && |index| > 0 && index[0] <= index[|index| - 1] ==>
      r.value == Some(DatesEqual)
  {
    var failErrorMsg: Option<string> := None;
    if start == Missing && end == Missing {
      failErrorMsg := Some(DatesEqual);
    }
    var startDate: int;
    if start.Date? {
      startDate := start.ticks;
    } else {
      if |index| == 0 {
        return Err(IndexError);
      }
      startDate := index[0];
    }
    var endDate: int;
    if end.Date? {
      endDate := end.ticks;
    } else {
      if |index| == 0 {
        return Err(IndexError);
      }
      endDate := index[|index| - 1];
    }
    if startDate == endDate {
      failErrorMsg := Some(DatesEqual);
    }
    if startDate > endDate {
      failErrorMsg := Some(StartAfterEnd);
    }
    if failErrorMsg == None {
      fig.rangeStart := startDate;
      fig.rangeEnd := endDate;
      fig.autorange := false;
    }
    r := Ok(failErrorMsg);
  }

  // -----------------------------------------------------------------------
  // calculate_calibration_period_based_on_user_action

  /** A value of the chart's relayout event. */
  datatype RelayoutValue = Text(s: string) | Items(items: seq<RelayoutValue>) | Flag(b: bool)

  /** One end of a calibration period: a value taken from the chart, or the
      timestamp of an index label (rendered by `strftime`). */
  datatype Endpoint = Chart(value: RelayoutValue) | IndexTime(ticks: int)

  datatype Period = Period(start: Endpoint, stop: Endpoint)

  /** Python's `v[i]` on a relayout value: a list item, a one-character
      string, an IndexError past the end, a TypeError on a boolean. */
  function Item(v: RelayoutValue, i: nat): Result<RelayoutValue, DashError>
  {
    match v
    case Items(xs) => if i < |xs| then Ok(xs[i]) else Err(IndexError)
    case Text(s) => if i < |s| then Ok(Text([s[i]])) else Err(IndexError)
    case Flag(_) => Err(TypeError)
  }

  /** The whole data range, first to last index label. */
  function FullRange(index: seq<int>): Period
    requires |index| > 0
  {
    Period(IndexTime(index[0]), IndexTime(index[|index| - 1]))
  }

  /** `calculate_calibration_period_based_on_user_action`: a zoom or pan
      (`xaxis.range[0]`) wins over a range-slider move (`xaxis.range`),
      which wins over a tab switch (`autosize`); a tab switch keeps an
      existing period; anything else selects the whole data range. */
  method CalculateCalibrationPeriod(index: seq<int>, relayout: map<string, RelayoutValue>, period: Option<Period>)
    returns (r: Result<Option<Period>, DashError>)
    ensures r.Ok? ==> r.value.Some?
    ensures "xaxis.range[0]" in relayout ==>
      && (r.Ok? <==> "xaxis.range[1]" in relayout)
      && (r.Err? ==> r.error == KeyError("xaxis.range[1]"))
      && (r.Ok? ==> r.value.value == Period(Chart(relayout["xaxis.range[0]"]), Chart(relayout["xaxis.range[1]"])))
    ensures "xaxis.range[0]" !in relayout && "xaxis.range" in relayout ==>
      && (r.Ok? <==> Item(relayout["xaxis.range"], 0).Ok? && Item(relayout["xaxis.range"], 1).Ok?)
      && (r.Ok? ==> r.value.value == Period(Chart(Item(relayout["xaxis.range"], 0).value), Chart(Item(relayout["xaxis.range"], 1).value)))
    ensures "xaxis.range[0]" !in relayout && "xaxis.range" !in relayout && "autosize" in relayout && period.Some? ==>
      r == Ok(period)
    ensures "xaxis.range[0]" !in relayout && "xaxis.range" !in relayout && ("autosize" !in relayout || period.None?) ==>
      && (r.Ok? <==> |index| > 0)
      && (r.Err? ==> r.error == IndexError)
      && (r.Ok? ==> r.value.value == FullRange(index))
  {
    var calibrationPeriod := period;
    if "xaxis.range[0]" in relayout {
      var newRangeStart := relayout["xaxis.range[0]"];
      if "xaxis.range[1]" !in relayout {
        return Err(KeyError("xaxis.range[1]"));
      }
      var newRangeStop := relayout["xaxis.range[1]"];
      calibrationPeriod := Some(Period(Chart(newRangeStart), Chart(newRangeStop)));
    } else if "xaxis.range" in relayout {
      var newRangeStart := Item(relayout["xaxis.range"], 0);
      if newRangeStart.Err? {
        return Err(newRangeStart.error);
      }
      var newRangeStop := Item(relayout["xaxis.range"], 1);
      if newRangeStop.Err? {
        return Err(newRangeStop.error);
      }
      calibrationPeriod := Some(Period(Chart(newRangeStart.value), Chart(newRangeStop.value)));
    } else if "autosize" in relayout {
      if calibrationPeriod == None {
        if |index| == 0 {
          return Err(IndexError);
        }
        calibrationPeriod := Some(FullRange(index));
      }
    } else {
      if |index| == 0 {
        return Err(IndexError);
      }
      calibrationPeriod := Some(FullRange(index));
    }
    r := Ok(calibrationPeriod);
  }
}

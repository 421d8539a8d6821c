# MHPDT andon detection, filtering and dashboard helpers — a Dafny model

This project models the core of an accelerometer-calibration dashboard.
The core detects machine activity ("andon" state) from a per-sample
feature called MHP. It works in four stages:

1. Threshold the MHP values into cycle flags (`fast_MHPDT`).
2. Bridge idle gaps that are no longer than the andon uptime threshold
   after the last cycle (`andon_state_from_mhpdt`).
3. Clean the 0/1 state with two micro filters. The down filter fills short
   idle runs. The up filter clears short active runs (`micro_filter.py`).
4. Score the result against tagged labels, by summed absolute difference
   or by accuracy.

The model also covers the label post-processing in `utils.py`: spread-based
0/1 flipping, mean-based rank relabelling and dropping the start-up
transient. It also covers the small dashboard helpers in `dash_utils.py`.

## How the model is built

- **Frames.** A pandas frame is a `Series.Frame`: a strictly increasing
  index of integer microsecond ticks, plus integer columns keyed by name.
- **Filter sizes.** Sizes are whole seconds. The `'0s'` shortcut is a size
  of 0.
- **Imperative code.** Code that fills arrays or loops over rows is a
  method over arrays with loop invariants:
  - the filters' overwrite loop;
  - the andon walk;
  - the two relabellers.
- **Method specifications.** Each method is proved equal to a reference
  function, or to a contract on its outcome. The dashboard helpers, which
  update their result branch by branch without loops, are methods of the
  second kind.
- **Filter semantics.** On a 0/1 series, each filter flips exactly the
  "closed" runs of its value whose length is below the filter size. A
  closed run is entered by an edge and left by an edge, so it touches
  neither the first nor the last sample. The length of a run is the
  timestamp of its end edge minus that of its start edge. This holds even
  though the two filters trim their edge lists by different rules
  (`FilterRuns.UpFilteredRuns`, `FilterRuns.DownFilteredRuns`).
- **When the up filter fails.** The up filter reads `up_starts[0]`. That
  read fails exactly when the series is a block of 1s followed by a block
  of 0s and the size is not zero (`FilterRuns.UpFilteredFailsExactly`).
- **Why the detector never hits that failure.** The andon state of sample
  0 is always 0, and the down filter keeps sample 0. So in the 'down'
  order the detector uses, the up filter never fails. The prediction is
  the stage-by-stage composition `CrossValidation.Predicted`
  (`CrossValidation.AndonPredictionWithFiltering`).

### Idempotence of the filters

One might expect a filter to be idempotent: a second pass with the same
size should change nothing. The code does not promise this anywhere, and
it holds for the down filter only (`FilterRuns.DownFilteredIdempotent`).

For the up filter, a second pass either changes nothing or fails
(`FilterRuns.UpFilteredTwice`). The failure is real. Take samples
`1,0,1,0` one second apart and a 2 s filter. The first pass clears the
closed 1-run and leaves `1,0,0,0`. The second pass then raises an
IndexError (`FilterRuns.UpFilterSecondPassFails`).

The model follows the code. It keeps the failure as an `Err` result.

## Model

| member | source | states |
|---|---|---|
| MicroFilter.UpFiltered | MHPDT_cross_validation/micro_filter.py:4-26 | the up filter keeps the length, only ever writes 0, and fails exactly when the size is non-zero and the column has falling edges but no rising edge (the `up_starts[0]` read) |
| MicroFilter.DownFiltered | MHPDT_cross_validation/micro_filter.py:29-51 | the down filter never fails, keeps the length and only ever writes 1 |
| Series.Edges | MHPDT_cross_validation/micro_filter.py:12-15 | the edge list holds, in order, exactly the positions after the first whose first difference is the given value (`diff() == 1` or `== -1`) |
| Series.KeepAfter | MHPDT_cross_validation/micro_filter.py:18 | keeps exactly the listed positions whose timestamp is later than the reference position's, and no more than it was given |
| MicroFilter.UpPairs | MHPDT_cross_validation/micro_filter.py:12-20 | the trimmed edge lists hold sample positions, and building them fails exactly when there are falling edges and no rising edge |
| MicroFilter.DownPairs | MHPDT_cross_validation/micro_filter.py:39-45 | the down filter's own trimming: it keeps exactly the rising edges later than the first falling edge (all of them when there is none), and cuts the falling edges to a prefix no longer than that list |
| MicroFilter.UpFilterFrame | MHPDT_cross_validation/micro_filter.py:4-26 | adds `<flag>_up_filtered` to a copy of the frame; the index, the input column and every other column are unchanged; a missing column fails |
| MicroFilter.DownFilterFrame | MHPDT_cross_validation/micro_filter.py:29-51 | adds `<flag>_down_filtered` to a copy of the frame; fails only on a missing column; everything else is unchanged |
| MicroFilter.OverwriteShortPairs | MHPDT_cross_validation/micro_filter.py:22-24 | the zip loop over a fresh array writes the fill value over every pair shorter than the size, and nothing else |
| MicroFilter.Overwrite | MHPDT_cross_validation/micro_filter.py:22-24 | after the zip loop the column keeps its length and every sample holds the fill value or its old value; `FilterRuns.OverwriteIsRunFiltered` says which samples get the fill value |
| MicroFilter.UpFilter | MHPDT_cross_validation/micro_filter.py:4-26 | the imperative up filter (copy, edge lists, trimming, overwrite loop) returns the frame `UpFilterFrame` describes |
| MicroFilter.DownFilter | MHPDT_cross_validation/micro_filter.py:29-51 | the imperative down filter returns the frame `DownFilterFrame` describes |
| MicroFilter.Filtering | MHPDT_cross_validation/micro_filter.py:54-65 | runs the two filters in the named order and copies the final column to `<flag>_filtered`; any other order name returns the frame unchanged |
| MicroFilter.FilteringFrame | MHPDT_cross_validation/micro_filter.py:54-65 | an order name other than 'down' or 'up' returns the frame unchanged; in either order a missing column fails; a success keeps the index and the input column and adds `<flag>_filtered` |
| FilterRuns.UpFilteredRuns | MHPDT_cross_validation/micro_filter.py:12-24 | when the up filter succeeds on a 0/1 column, it clears exactly the closed 1-runs shorter than the size |
| FilterRuns.DownFilteredRuns | MHPDT_cross_validation/micro_filter.py:37-49 | on a 0/1 column the down filter fills exactly the closed 0-runs shorter than the size |
| FilterRuns.PairIsRun | MHPDT_cross_validation/micro_filter.py:22-24 | the k-th entry edge and its matching exit edge bound one maximal closed run |
| FilterRuns.RunIsPair | MHPDT_cross_validation/micro_filter.py:22-24 | every closed run is bounded by one such pair |
| FilterRuns.UpPairsAre | MHPDT_cross_validation/micro_filter.py:17-20 | after the up filter's trimming, the k-th zipped pair is the k-th rising edge and the (k + Lead)-th falling edge, where Lead is 1 when the series starts at 1; the zip runs until one of those edge lists is used up |
| FilterRuns.DownPairsAre | MHPDT_cross_validation/micro_filter.py:42-45 | after the down filter's trimming, the k-th zipped pair is the k-th falling edge and the (k + Lead)-th rising edge, where Lead is 1 when the series starts at 0; the zip runs until one of those edge lists is used up |
| FilterRuns.RunFilteredZero | MHPDT_cross_validation/micro_filter.py:7-9 | with a zero size no run is short enough to flip, so the `'0s'` shortcut changes nothing the general path's overwrite loop would change |
| FilterRuns.UpFilteredOkWhenStartingLow | MHPDT_cross_validation/micro_filter.py:14-18 | on a 0/1 column that starts at 0, the `up_starts[0]` read cannot fail |
| FilterRuns.UpFilteredFailsExactly | MHPDT_cross_validation/micro_filter.py:14-18 | the up filter fails exactly on a block of 1s followed by a block of 0s, when the size is non-zero |
| FilterRuns.RunFilteredKeepsFirst | MHPDT_cross_validation/micro_filter.py:17-24 | neither filter changes the first sample |
| FilterRuns.RunFilteredIdempotent | MHPDT_cross_validation/micro_filter.py:22-24 | filtering the short closed runs of one value a second time changes nothing |
| FilterRuns.DownFilteredIdempotent | MHPDT_cross_validation/micro_filter.py:29-51 | the down filter is idempotent |
| FilterRuns.UpFilteredTwice | MHPDT_cross_validation/micro_filter.py:4-26 | a second up-filter pass either fails or returns its input unchanged |
| FilterRuns.UpFilterSecondPassFails | MHPDT_cross_validation/micro_filter.py:14-18 | a concrete series on which the first up-filter pass succeeds and the second fails |
| FilterRuns.FilteringDownOrder | MHPDT_cross_validation/micro_filter.py:56-59 | 'down' order gives the up filter's runs applied to the down filter's result; it fails exactly when the up filter fails on the filled column |
| FilterRuns.FilteringUpOrder | MHPDT_cross_validation/micro_filter.py:60-63 | 'up' order gives the down filter's runs applied to the up filter's result; it fails exactly when the up filter fails on the raw column |
| CrossValidation.FastMhpdt | MHPDT_cross_validation/mhpdt_cross_validation.py:10-14 | adds a 0/1 `is_cycle` column that is 1 exactly where the feature is at least the threshold; nothing else changes |
| CrossValidation.AndonState | MHPDT_cross_validation/mhpdt_cross_validation.py:16-38 | the andon state is a 0/1 series of the input's length |
| CrossValidation.AndonStateFromMhpdt | MHPDT_cross_validation/mhpdt_cross_validation.py:16-38 | the forward walk tracking the last cycle timestamp gives the reference definition: sample i > 0 is active when it is a cycle, or when a cycle after sample 0 lies at most the threshold before it; no `is_cycle` column gives an empty list; an empty index fails |
| CrossValidation.AndonCoversCycles | MHPDT_cross_validation/mhpdt_cross_validation.py:27-36 | every cycle after the first sample is active |
| CrossValidation.AndonZeroThreshold | MHPDT_cross_validation/mhpdt_cross_validation.py:27-36 | with a zero threshold, the state after sample 0 is the cycle flag |
| CrossValidation.DownThenUpFiltered | MHPDT_cross_validation/micro_filter.py:56-59 | on a 0/1 column starting at 0, the down filter then the up filter never fails, and it yields the two run filters in order |
| CrossValidation.DownOrderFilteringOfState | MHPDT_cross_validation/mhpdt_cross_validation.py:51-55 | filtering the andon state in 'down' order always succeeds, and `state_filtered` is the stage-by-stage prediction |
| CrossValidation.AndonPredictionWithFiltering | MHPDT_cross_validation/mhpdt_cross_validation.py:40-57 | the detector succeeds exactly on a non-empty frame; `is_cycle` holds the thresholded flags and `state_filtered` the stage-by-stage prediction |
| CrossValidation.SumAbsDiff | MHPDT_cross_validation/mhpdt_cross_validation.py:77-78 | the summed absolute difference is never negative, and it is zero exactly when the two series are equal |
| CrossValidation.SumAbsDiffCountsMismatches | MHPDT_cross_validation/mhpdt_cross_validation.py:77-78 | on 0/1 series the summed absolute difference counts the positions that differ |
| CrossValidation.Accuracy | MHPDT_cross_validation/mhpdt_cross_validation.py:106 | accuracy lies in [0, 1] and is 1 exactly when the labels agree everywhere |
| CrossValidation.AccuracyFromMismatchScore | MHPDT_cross_validation/mhpdt_cross_validation.py:59-108 | on 0/1 series, accuracy is one minus the mismatch score divided by the number of samples |
| CrossValidation.ScoringParams | MHPDT_cross_validation/mhpdt_cross_validation.py:64-73 | the detector parameters the scorer builds: the given feature threshold and filter sizes, `min_cycle_time` 0 and `andon_uptime_threshold` 5 s |
| CrossValidation.HmmTaggedMhpdtScore | MHPDT_cross_validation/mhpdt_cross_validation.py:59-80 | the score is the summed absolute difference between the ground truth and the prediction made with a 5 s andon threshold and the given sizes; an empty frame fails |
| CrossValidation.OptimizationScore | MHPDT_cross_validation/mhpdt_cross_validation.py:101-108 | the score is the accuracy of the prediction against the tagged labels; an empty frame fails |
| Relabel.FirstAtOrAfter | MHPDT_cross_validation/utils.py:151 | on a sorted index, the `loc[start:]` cut position splits the rows into those before `start` and those at or after it |
| Relabel.DropTransient | MHPDT_cross_validation/utils.py:146-153 | fails exactly on an empty frame; otherwise returns the suffix of rows whose timestamp is at least the first timestamp plus the window, with every column cut alike |
| Relabel.Group | MHPDT_cross_validation/utils.py:126-130 | the masked feature values of one label; non-empty when the label occurs |
| Relabel.SampleVariance | MHPDT_cross_validation/utils.py:129-130 | the sample variance is defined exactly for groups of two or more values (NaN otherwise) |
| Relabel.StdBasedStateFlipping | MHPDT_cross_validation/utils.py:124-143 | the mask-filled array is the reference relabelling: 0 and 1 swap when the 0-group spreads at least as much as the 1-group, and other labels become 0 |
| Relabel.FlippedShape | MHPDT_cross_validation/utils.py:124-143 | the output is a 0/1 series of the same length; labels other than 0 and 1 become 0; a 0/1 input is complemented when it is swapped and kept otherwise |
| Relabel.ComplementGroups | MHPDT_cross_validation/utils.py:133-138 | swapping the labels exchanges the two groups of feature values |
| Relabel.FlippedOrdersSpread | MHPDT_cross_validation/utils.py:133-138 | after the flip, the group labelled 1 spreads at least as much as the group labelled 0 |
| Relabel.Unique | MHPDT_cross_validation/utils.py:160 | `pd.unique` lists each label once, and lists exactly the labels that occur |
| Relabel.StateMeans | MHPDT_cross_validation/utils.py:159-166 | the first loop collects, for each distinct label in first-appearance order, the mean feature value over that label's samples |
| Relabel.MeanBasedStateRanking | MHPDT_cross_validation/utils.py:156-180 | the two loops (group means, then mask fills) give the reference ranking: each position gets the rank of its label's group mean |
| Relabel.RankOrder | MHPDT_cross_validation/utils.py:169-173 | the argsort ranks are below the count, are distinct, and follow the means |
| Relabel.RanksArePermutation | MHPDT_cross_validation/utils.py:169-173 | the ranks of k means are exactly 0 .. k-1 |
| Relabel.RankedOrder | MHPDT_cross_validation/utils.py:164-173 | two positions get the same new label exactly when they had the same label, and a strictly larger group mean gets a strictly larger label |
| Relabel.RankedLabels | MHPDT_cross_validation/utils.py:156-180 | the new labels are exactly 0 .. k-1, where k is the number of distinct input labels |
| Dash.AndonStateList | dash_utils.py:156-171 | `andon_state_list_generator`: the entries are exactly the (timestamp, state) pairs of the samples that start a new state (the first sample and every sample whose state differs from its predecessor's), in timestamp order on a sorted index; the list is empty exactly for an empty series and ends with the last state |
| Dash.ChangePoints | dash_utils.py:167-169 | the change-point list starts with the first sample; consecutive entries differ in state; the last entry carries the last state |
| Dash.ChangePointsSound | dash_utils.py:167 | every entry is (ts[i], states[i]) for a sample i that is the first or differs from its predecessor |
| Dash.ChangePointsComplete | dash_utils.py:167 | every sample that is the first or differs from its predecessor has its (timestamp, state) in the list |
| Dash.ChangePointsOrdered | dash_utils.py:167-169 | on a strictly increasing index the entries come in strictly increasing timestamp order, as the boolean mask keeps index order |
| Dash.ChangePointsRoundTrip | dash_utils.py:156-171 | reading the change-point list at any sample's timestamp gives back that sample's state |
| Dash.StrDateConverter | dash_utils.py:245-247 | fails exactly when the string has fewer than two whitespace-separated words |
| Dash.StrDateConverterOnTimestamp | dash_utils.py:245-247 | "date time" becomes "dateTtime" with the time's last three characters dropped |
| Dash.Words | dash_utils.py:246 | `str.split()` yields non-empty words without whitespace |
| Dash.DateRangeSanityChecker | dash_utils.py:391-404 | no message exactly when each given date lies in [first, last] of the index; an out-of-range end date's message wins over the start date's; an empty index fails once either argument is given |
| Dash.FilterChartOnDaterange | dash_utils.py:407-432 | `None` or "" bounds default to the ends of the index; the figure gets the range and autorange off exactly when the resolved start is before the end and not both dates are `None`; otherwise a message explains why, and the figure is unchanged |
| Dash.CalculateCalibrationPeriod | dash_utils.py:336-370 | `xaxis.range[0]` wins over `xaxis.range`, which wins over `autosize`; a tab switch keeps an existing period; any other event selects the full data range; a successful call always yields a period |

## Left out

- The up and down filters take their sizes as duration strings (`'15s'`); the model takes whole seconds. Parsing the string is not modelled, and neither is the test against the literal `'0s'`; a size of 0 stands for both. The pipeline always builds the size as `str(n) + 's'`, so a zero size is the literal `'0s'`. A non-literal zero such as `'00s'` would run the general path instead. There the up filter still reads `up_starts[0]`, so on a block of 1s followed by a block of 0s it raises IndexError. The model's size 0 follows the literal shortcut and does not capture that failure.
- MicroFilter.UpFilterFrame: does not model the scratch `andon_change` column (first differences, NaN in the first row) that the filters leave in the frame they return. The same holds for MicroFilter.DownFilterFrame and MicroFilter.Filtering.
- `run_optimization` (Bayesian optimisation with scikit-optimize) is left out: it is a foreign library.
- The HMM tagging that produces the ground truth is left out: it is a foreign numerical library. Its output reaches the model only through `Relabel.StdBasedStateFlipping`.
- Timestamps are 64-bit nanoseconds in pandas; the model uses unbounded integer microseconds, so overflow is not modelled.
- Feature values are exact reals: floating point, NaN feature values and the `>=` of NaN are not modelled.
- Frames hold integer columns only. The MHP feature is passed next to the frame as a sequence of reals. Label alignment in `ground_truth - prediction` is positional, which assumes the two series share the frame's index.
- CrossValidation.Accuracy: does not model the final `round(score, 3)`; the exact ratio is returned. The same holds for CrossValidation.OptimizationScore.
- CrossValidation.AndonStateFromMhpdt: the source also writes a `timestamp` column (a copy of the index) into the frame it is given. The model takes the frame as a value and does not model that write. Its only caller passes `prediction_df.copy()`, so the write never reaches the caller's frame.
- CrossValidation.AndonPredictionWithFiltering: the `min_cycle_time` parameter is carried but, as in the source, unused.
- Relabel.StdBasedStateFlipping: the standard deviations are compared through the sample variances. The square root is monotone, so the outcome is the same. The output is an integer series rather than a float array, and the logging call is not modelled.
- Relabel.MeanBasedStateRanking: ties between equal group means are broken by first appearance. numpy's default `argsort` does not promise any order for ties. The output is integers rather than floats, and the logging call is not modelled.
- Relabel.DropTransient: the window is given in ticks; parsing the `'6s'` string is not modelled.
- Dash.AndonStateList: the index labels are kept as ticks, not rendered as strings, and the list holds pairs rather than pandas tuples.
- Dash.StrDateConverter: takes the string form of the timestamp as input; `str()` of a timestamp is not modelled, and words are separated by the ASCII characters Python's `str.split()` treats as whitespace: space, tab, line feed, carriage return, vertical tab, form feed and the separators `\x1c`–`\x1f`. Non-ASCII whitespace is not modelled.
- Dash.DateRangeSanityChecker: date strings arrive already parsed (`None`, "" parsed to NaT, or a date). The format check of `pd.to_datetime` and its ValueError are not modelled. The same holds for Dash.FilterChartOnDaterange.
- Dash.FilterChartOnDaterange: the figure's nested layout dictionary is a class with the x-axis range and autorange fields; the range holds ticks rather than `strftime` strings, and a figure missing those keys is not modelled.
- Dash.CalculateCalibrationPeriod: relayout values are text, lists or booleans; numbers from the chart are not modelled. The full-range bounds are index timestamps rather than their `strftime` rendering.
- Logging calls and the chart-building and layout code around these helpers are not part of this model.

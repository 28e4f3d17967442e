# Feature pipeline of the charging-demand LSTM project

This project models the feature-construction pipeline of the LSTM charging-demand
forecaster (`LSTM-project/src/`) and proves its properties.

- **Daily preprocessing** (`processing.py`). The hourly columns `0시`..`23시` are
  coerced to numbers on a copy of the input table, with a missing or unparseable
  cell becoming 0. Then `daily_total` (the sum of the 24 hours) and `peak_ratio`
  (the `8시`..`19시` band over `daily_total + 1e-9`) are written into the table in place.
- **Spectral features** (`fourier_transform.py`). The 28-day window of daily totals is
  detrended. Then come its rfft bins and frequencies and the top-`k` bins by
  amplitude, with numpy's slice clamping. Last come the power spectrum, its total,
  its normalisation and the low/high band split.
- **Window builder and training table** (`windowing.py`). One charging type's records
  are sorted by date. A `lookback`-day window slides over them. Each window end `i`
  gives one sample: the label is the usage of the next `horizon` days, and the
  time-domain and spectral features come from the window. The samples of every
  charging type are concatenated and sorted by (end date, type).

Modules:

- `Wrappers`: `Option` and `Result`.
- `Sums`: sums and means over `seq<real>`.
- `Sorting`: insertion sort by a total preorder, which stands in for the library
  sorts, and Python's string order.
- `Library`: the numerics passed in as function values.
- `Processing`, `Spectral` and `Windowing`: one module per source file.

Modelling choices:

- Floats are exact `real`s.
- Dates are integer day numbers.
- A table in `processing.py` is the class `Processing.Frame`, held column by column.
  A record handed to the window builder is the datatype `Processing.Record`, and
  `Frame.Records` reads a table's rows as such records.
- Small helpers get no row of their own, and are covered by the rows of the members
  that use them:
  - `Processing.Coerce` (one cell of `to_numeric(...).fillna(0)`, processing.py:11);
  - `Spectral.Gather` (`values[idx]` per selected index, fourier_transform.py:16-18);
  - `Spectral.SliceStart` and `Spectral.SelectedCount` (Python's slice clamping, fourier_transform.py:15);
  - `Spectral.MidIndex` (`len(psd) // 2`, fourier_transform.py:29);
  - `Windowing.DailyTotals` and `Windowing.PeakRatios` (the `daily_total` and `peak_ratio`
    columns of a slice, windowing.py:18, 31).
- The loops of the source are methods with loop invariants. Each method is proved
  equal to a specification function (`Spectral.SpectralSpec`,
  `Windowing.WindowSamples`, `Windowing.TrainDf`), and the lemmas state what the
  source promises about those functions.

## Model

| member | source | states |
|---|---|---|
| Processing.CoerceColumn | LSTM-project/src/data/processing.py:11 | after `to_numeric(errors='coerce').fillna(0)` every cell holds a number; a numeric cell is kept and a missing or non-numeric cell becomes 0 |
| Processing.Frame.constructor | LSTM-project/src/data/processing.py:5 | a table built from equally long columns is well formed and holds exactly those columns |
| Processing.Frame.Copy | LSTM-project/src/data/processing.py:5 | `data.copy()` is a fresh table with the same rows and columns |
| Processing.PreprocessData | LSTM-project/src/data/processing.py:3-13 | returns a fresh table and leaves the input unchanged; rows, dates, types and daily columns are kept; each hourly column is the coerced input column, so every hourly cell is numeric |
| Processing.AddDailyFeatures | LSTM-project/src/data/processing.py:15-26 | returns the caller's own table; `daily_total` and `peak_ratio` now exist and agree with each row's hours; dates, types and hourly columns are unchanged |
| Processing.DailyTotal | LSTM-project/src/data/processing.py:20 | `daily_total` is the sum of the row's 24 hourly values; `DailyRecordBounds` proves it non-negative for non-negative hours |
| Processing.PeakSum | LSTM-project/src/data/processing.py:23 | the sum over the 12 peak columns `8시`..`19시`; `PeakBandWithinDay` bounds it by the day's total |
| Processing.PeakRatio | LSTM-project/src/data/processing.py:24 | `peak_ratio` is the peak sum over `daily_total + 1e-9`; `PeakRatioBounds` puts it in [0, 1) |
| Processing.PeakBandWithinDay | LSTM-project/src/data/processing.py:23 | with non-negative hours, the sum over the 12 peak columns lies between 0 and `daily_total` |
| Processing.PeakRatioBounds | LSTM-project/src/data/processing.py:24 | with non-negative hours, `peak_ratio` lies in [0, 1) |
| Processing.DailyRecordBounds | LSTM-project/src/data/processing.py:20-24 | after `add_daily_features` on non-negative hours, each record's `daily_total` is the sum of its hours and is at least 0, and its `peak_ratio` is in [0, 1) |
| Spectral.Detrend | LSTM-project/src/features/fourier_transform.py:7 | the detrended sequence has the input's length |
| Spectral.DetrendSumsToZero | LSTM-project/src/features/fourier_transform.py:6-7 | value minus mean sums to zero |
| Spectral.Freqs | LSTM-project/src/features/fourier_transform.py:10 | `rfftfreq(n)` has `n / 2 + 1` bins |
| Spectral.FreqsAreNormalised | LSTM-project/src/features/fourier_transform.py:10 | bin `k` has frequency `k / n`; frequencies are non-decreasing and in [0, 1/2] |
| Spectral.Argsort | LSTM-project/src/features/fourier_transform.py:15 | one argsort result, of one index per bin; `ArgsortIsArgsort` proves it a valid argsort |
| Spectral.ArgsortIsArgsort | LSTM-project/src/features/fourier_transform.py:15 | the concrete argsort is a permutation of the bin indices in non-decreasing amplitude |
| Spectral.ArgsortIndices | LSTM-project/src/features/fourier_transform.py:15 | any argsort result lists every bin exactly once |
| Spectral.TopIndices | LSTM-project/src/features/fourier_transform.py:15 | `order[-top_k:][::-1]` keeps as many indices as Python's slice clamping gives, each taken from `order` |
| Spectral.TopIndicesSelect | LSTM-project/src/features/fourier_transform.py:15 | `argsort(a)[-top_k:][::-1]` keeps `min(top_k, bins)` bins for `top_k >= 1`, all bins for `top_k == 0` and `bins + top_k` (at least 0) for negative `top_k`; they are distinct valid bins in non-increasing amplitude, and no unselected bin is larger than a selected one |
| Spectral.TopK | LSTM-project/src/features/fourier_transform.py:15-18 | `fft_amp_j` and `fft_freq_j` are the amplitude and frequency of the j-th selected bin; the amplitudes are non-increasing and no unselected bin beats any of them |
| Spectral.Psd | LSTM-project/src/features/fourier_transform.py:21 | each PSD entry is the square of its amplitude, so it is non-negative |
| Spectral.PsdNorm | LSTM-project/src/features/fourier_transform.py:25 | the normalised spectrum has one entry per bin |
| Spectral.PsdNormBounds | LSTM-project/src/features/fourier_transform.py:22-25 | `total_power` is at least 0; every `psd_norm` entry is in [0, 1); the entries sum to `total / (total + 1e-9)`, which is below 1 |
| Spectral.LowPower | LSTM-project/src/features/fourier_transform.py:30 | the power of bins `[0, len // 2)`; `BandSplit` proves it non-negative and the complement of `HighPower` |
| Spectral.HighPower | LSTM-project/src/features/fourier_transform.py:31 | the power of bins `[len // 2, len)`; `BandSplit` proves it non-negative and the complement of `LowPower` |
| Spectral.BandSplit | LSTM-project/src/features/fourier_transform.py:29-31 | the low band `[0, mid)` and the high band `[mid, bins)` are non-negative and add up to the total power |
| Spectral.SpectralSpec | LSTM-project/src/features/fourier_transform.py:4-33 | the feature dictionary of one window; `SpectralSpecProperties` proves its count, order, range and band guarantees |
| Spectral.FftFeatures | LSTM-project/src/features/fourier_transform.py:4-33 | the extracted features are the feature set `SpectralSpec` describes |
| Spectral.SpectralSpecProperties | LSTM-project/src/features/fourier_transform.py:4-33 | the feature set has the clamped number of top bins, with non-increasing amplitudes that no unselected bin beats; its frequencies are in [0, 1/2]; its total power is non-negative and is split exactly by the two bands |
| Sorting.SortBy | LSTM-project/src/dataset/windowing.py:56 | the sorted table is a permutation of its input |
| Sorting.SortBySorted | LSTM-project/src/dataset/windowing.py:56 | under a total preorder the result is sorted |
| Sorting.StrLe | LSTM-project/src/dataset/windowing.py:56 | Python's `str` order on charging types: by code point, a proper prefix first; `StrLeTotal`, `StrLeTransitive` and `StrLeAntisymmetric` prove it a total order |
| Sorting.StrLeTotal | LSTM-project/src/dataset/windowing.py:56 | any two charging types compare in Python's string order |
| Sorting.StrLeTransitive | LSTM-project/src/dataset/windowing.py:56 | Python's string order chains |
| Sorting.StrLeAntisymmetric | LSTM-project/src/dataset/windowing.py:56 | only equal strings compare both ways, so the sort key on types is an order |
| Windowing.SortByDate | LSTM-project/src/dataset/windowing.py:8 | `sort_values('일자')` is a permutation of the rows with non-decreasing dates |
| Windowing.Window | LSTM-project/src/dataset/windowing.py:15 | the window is exactly rows `i-lookback+1 .. i`: it has length `lookback`, its first index is at least 0 and its last row is row `i` |
| Windowing.Target | LSTM-project/src/dataset/windowing.py:16 | the target window is exactly the `horizon` rows `i+1 .. i+horizon`, all inside the series |
| Windowing.SampleAt | LSTM-project/src/dataset/windowing.py:14-36 | the `feat` dictionary of window end `i`; `LabelIsFutureSum`, `SampleAtFields` and `NoLeakage` prove what its fields depend on |
| Windowing.WindowCount | LSTM-project/src/dataset/windowing.py:13 | the length of `range(lookback - 1, n_rows - horizon)`, `max(0, n - lookback - horizon + 1)`; `WindowSampleAt` proves it the number of samples |
| Windowing.WindowSamples | LSTM-project/src/dataset/windowing.py:10-40 | the `samples` list of one date-sorted series, one sample per window end in increasing order; `WindowSampleAt` and `WindowSamplesFacts` prove its count, contents and order |
| Windowing.WindowSampleAt | LSTM-project/src/dataset/windowing.py:13 | the loop emits `max(0, n - lookback - horizon + 1)` samples, and the j-th is the sample of window end `lookback-1+j` |
| Windowing.SampleAtFields | LSTM-project/src/dataset/windowing.py:21-30 | a sample's `window_end_date` and `charging_type` are those of row `i`, and `last_day_usage` is row `i`'s `daily_total` |
| Windowing.MakeSample | LSTM-project/src/dataset/windowing.py:15-36 | the loop body builds the sample of window end `i`, spectral features included |
| Windowing.AppendSample | LSTM-project/src/dataset/windowing.py:38 | one pass of the loop appends the sample of end `i` after the samples of the ends before it |
| Windowing.CollectWindows | LSTM-project/src/dataset/windowing.py:13-38 | the loop yields one sample per window end, in increasing order of end |
| Windowing.BuildSlidingWindowSamples | LSTM-project/src/dataset/windowing.py:6-40 | returns the window samples of the date-sorted rows, `max(0, n - lookback - horizon + 1)` of them; sample `j` has the date, type and usage of sorted row `lookback-1+j`; end dates are non-decreasing |
| Windowing.WindowSamplesFacts | LSTM-project/src/dataset/windowing.py:8-38 | over a date-sorted series, the sample count is `max(0, n - lookback - horizon + 1)`; each sample takes the date, type and last-day usage of its end row; end dates never decrease |
| Windowing.LabelIsFutureSum | LSTM-project/src/dataset/windowing.py:16-25 | `y_next7_total` is the sum of `daily_total` over rows `i+1 .. i+horizon`, which lie inside the series |
| Windowing.LabelRolling | LSTM-project/src/dataset/windowing.py:16-25 | moving the end by one day drops day `i+1` from the label and adds day `i+1+horizon` |
| Windowing.NoLeakage | LSTM-project/src/dataset/windowing.py:14-35 | two series that agree on rows `0..i` give samples that differ at most in the label; if they also agree on the `horizon` rows after `i`, the samples are equal |
| Windowing.ConstantSeriesExample | LSTM-project/src/dataset/windowing.py:13-36 | 35 days of usage 10 with the defaults 28/7 give one sample, with mean 10, last-day usage 10, label 70 and an all-zero detrended window |
| Windowing.UniqueTypes | LSTM-project/src/dataset/windowing.py:45 | the charging types in order of first appearance; `UniqueTypesExact` proves them distinct and exactly those of the rows |
| Windowing.UniqueTypesExact | LSTM-project/src/dataset/windowing.py:45 | `unique()` lists distinct types, exactly those that occur in the rows |
| Windowing.FilterType | LSTM-project/src/dataset/windowing.py:48 | the filter keeps at most the input's rows |
| Windowing.FilterTypeExact | LSTM-project/src/dataset/windowing.py:48 | the filter keeps every row of type `c`, as often as it occurs, and nothing else |
| Windowing.TypeSamples | LSTM-project/src/dataset/windowing.py:48-49 | `type_samples` of type `c`: the window samples of that type's rows sorted by date; `TypeSamplesOfType` proves its count and that every sample has type `c` |
| Windowing.TypeSamplesOfType | LSTM-project/src/dataset/windowing.py:48-49 | type `c` contributes `max(0, n_c - lookback - horizon + 1)` samples, all of type `c` |
| Windowing.CollectAllSamples | LSTM-project/src/dataset/windowing.py:44-50 | the loop over the unique types extends `all_samples` with each type's window samples, in order of first appearance |
| Windowing.Collected | LSTM-project/src/dataset/windowing.py:44-50 | `all_samples` after the loop over `types`: each type's samples in turn; `CollectedFacts` proves its count and provenance |
| Windowing.TotalCount | LSTM-project/src/dataset/windowing.py:47-51 | the per-type counts `len(type_samples)` added up over `types`; `CollectedFacts` proves it the length of `all_samples` |
| Windowing.CollectedFacts | LSTM-project/src/dataset/windowing.py:47-50 | after the loop, `all_samples` holds the per-type counts added up; each sample's type is one looped over, and the sample comes from that type's rows |
| Windowing.SampleLe | LSTM-project/src/dataset/windowing.py:56 | the ascending key (`window_end_date`, `charging_type`), with Python's string order on the type |
| Windowing.SampleLeTotalPreorder | LSTM-project/src/dataset/windowing.py:56 | the key (`window_end_date`, `charging_type`) is a total preorder |
| Windowing.TrainDf | LSTM-project/src/dataset/windowing.py:53-56 | the corrected training table: all samples sorted by (end date, type), empty when there are none; `TrainDfProperties` and `TrainDfStrictlySorted` state its guarantees |
| Windowing.TrainDfAsWritten | LSTM-project/src/dataset/windowing.py:53-56 | the table as the source builds it: `KeyError` when no sample was made, otherwise the sorted samples; `TrainDfAsWrittenAgrees` proves when each happens |
| Windowing.TrainDfProperties | LSTM-project/src/dataset/windowing.py:45-56 | the table has the per-type counts added up and is sorted ascending by (end date, type); it is a permutation of the concatenated samples; each row's type occurs in the input, and a row of type `c` comes only from the type-`c` rows |
| Windowing.UniqueDaysSub | LSTM-project/src/dataset/windowing.py:48 | rows drawn from a table with one row per (date, type), such as one type's rows, again have one row per (date, type) |
| Windowing.TypeSeriesIncreasing | LSTM-project/src/dataset/windowing.py:48-49 | with one row per (date, type), a type's date-sorted rows have strictly increasing dates |
| Windowing.TypeSamplesIncreasing | LSTM-project/src/dataset/windowing.py:13-38 | with one row per (date, type), a type's samples have strictly increasing end dates |
| Windowing.SameEndSameSample | LSTM-project/src/dataset/windowing.py:13-38 | among samples with strictly increasing end dates, as one type's samples are by `TypeSamplesIncreasing`, two with the same end date are the same sample |
| Windowing.CollectedAtMostOnce | LSTM-project/src/dataset/windowing.py:47-50 | with one row per (date, type), no sample occurs twice in `all_samples` |
| Windowing.TrainDfStrictlySorted | LSTM-project/src/dataset/windowing.py:53-56 | with one row per (date, type), no two table rows share (end date, type), so the table is strictly ascending by that key |
| Windowing.TrainDfAsWrittenAgrees | LSTM-project/src/dataset/windowing.py:53-56 | the source raises exactly when no type yields a sample, and otherwise returns `TrainDf` |
| Windowing.ShortHistoryRaises | LSTM-project/src/dataset/windowing.py:53-56 | fewer rows than `lookback + horizon` make the source raise `KeyError`, where the corrected table is empty |
| Windowing.BuildTrainDf | LSTM-project/src/dataset/windowing.py:42-57 | the loop over types, then the sort: the result is `TrainDf`, with the count, order, permutation and provenance guarantees of `TrainDfProperties`; with one row per (date, type), no two rows share (end date, type) and the order is strict |

## Left out

- The DFT (`np.fft.rfft`) with `np.abs`, `scipy.stats.entropy` and `np.std` are
  floating-point transcendental numerics. They are fields of `Library.Externals`,
  passed as parameters. The only thing assumed about the spectrum is its bin count
  `n / 2 + 1`, through `Externals.Valid`.
- `pd.to_datetime` (processing.py:6) and the calendar fields `month` and `dayofweek`
  are not modelled. Dates are integer day numbers, and `month` and `dayOfWeek` are
  function parameters.
- The progress `print` in `build_train_df` (windowing.py:51) is output only and is
  not modelled.
- `reset_index(drop=True)` (windowing.py:8, 56) is not modelled. A sequence is
  always indexed from 0.
- Floating-point rounding is not modelled: sums and means are exact.
- `Processing.PeakRatioBounds` and `Spectral.PsdNormBounds`: the strict bounds `< 1`
  hold in exact arithmetic only. In doubles `x + 1e-9 == x` once `x >= 2^24`, so a
  day with all its usage in the peak band gets a `peak_ratio` of exactly 1.0. In the
  same way a window of large power gets a `psd_norm` sum of exactly 1.0.
- `Sums.Ratio`: a denominator that is exactly 0 gives 0, where numpy gives `inf` or
  `nan`. Such a denominator needs a `daily_total` or PSD total of exactly `-1e-9`,
  which non-negative usage excludes.
- pandas `mean` and `sum` skip `NaN`. A cell is `None` in the model both when it is
  missing and when it holds text. An uncoerced table can reach
  `Processing.AddDailyFeatures`, which reads such a cell as 0. For a missing (`NaN`)
  cell pandas does the same. For a text cell pandas raises `TypeError`, and the model
  does not capture that error.
- A table that lacks one of the columns `0시`..`23시` makes the source raise
  `KeyError` (processing.py:11, 20). `Processing.Frame` always holds all 24 hourly
  columns, so it cannot express that table.
- `Spectral.TopIndicesSelect`: the order `np.argsort` gives to equal amplitudes is
  not stated. The model sorts with one insertion sort, and the lemmas hold for
  every valid argsort result (`Spectral.IsArgsort`). The same goes for
  `sort_values`: only "sorted and a permutation" is claimed, not pandas' order
  among equal keys.
- `Spectral.FftFeatures` requires a non-empty sequence, as do `Spectral.SpectralSpec`
  and `Spectral.Detrend`. On an empty one the source raises: `np.mean([])` gives
  `nan`, and `np.fft.rfft` of 0 points raises `ValueError` (fourier_transform.py:7-8).
  The window loop never passes an empty window, because it requires `lookback >= 1`.
- `Windowing.BuildSlidingWindowSamples`: requires `lookback >= 1` and
  `horizon >= 0`. The model does not cover other values.
  - With `lookback == 0`, the source raises `IndexError` on `daily_seq[-1]` of an empty
    window once its loop runs.
  - With `horizon < 0`, it raises `IndexError` on `iloc[i]` once `i` reaches the row count.
  - With `lookback < 0`, Python's negative indices wrap. The source can then return
    samples built from wrapped slices rather than raising.
- `Windowing.FilterType`: the order-preserving character of the row filter is not
  stated. The date sort that follows it makes that order irrelevant except among
  rows with equal dates.
- The rest of the repository is not part of this model: `LSTM-project/src/utils/paths.py`
  (filesystem paths), `LSTM-project/src/models/lstm.py` (imports only) and the
  retrieval-chat scripts under `langchain-main/` and `RAG-document-qna/` (interactive
  I/O and calls into external services).

## Findings

| source | as written | input that shows it | evidently intended | confidence | as-written member | corrected member |
|---|---|---|---|---|---|---|
| LSTM-project/src/dataset/windowing.py:53-56 | `pd.DataFrame(all_samples)` of an empty list has no columns, so `sort_values(['window_end_date', 'charging_type'])` raises `KeyError` | a frame with one row, with the default `lookback = 28` and `horizon = 7`: no type has 35 days, so no sample is made | an empty training table | high, not executed | Windowing.TrainDfAsWritten (shown by Windowing.ShortHistoryRaises) | Windowing.TrainDf (built by Windowing.BuildTrainDf) |

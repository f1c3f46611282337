# Automation-rate calculator: a Dafny model

The repository is a set of Streamlit forms for a factory. For each
manufacturing process group, the user enters a list of motions. Each motion
has a name, an automated/manual flag, a duration in seconds and a weight; in
the multi-process form (`automate.py`) it also has three free-text fields
(device id, operator/maker, remarks). The form computes a weighted
automation rate: the share of weighted time (duration × weight) that falls on
automated motions, in percent. The
multi-process form (`automate.py`) computes one rate per process group and an
overall rate, which is the plain mean of the group rates. It then exports a
workbook with one sheet per group and a closing `Summary` sheet. The two
single-list forms (`app.py`, `app2.py`) compute a single rate and chart its
two weighted sums.

The model has four modules:

- `Weighting` (`weighting.dfy`) holds what all three calculators share. It
  defines the `Motion` record and weighted time. It defines the masked sums
  `df[df["auto"] == flag]["weighted_time"].sum()` as `FilteredSum`, and the
  chart's generator sums as `ChartSum`. It defines the guarded division
  `Rate` and the per-group rate `GroupRate`. Its lemmas cover the meaning of
  the rate, its bounds, its extremes, the zero-division guard, and the fact
  that the rate depends only on the multiset of (flag, weighted time) pairs.
- `Automate` (`automate.py`) covers four things. First, a calculator with its
  own empty-list guard. Second, Python dicts, modelled as item sequences with
  unique keys, and dict assignment (`Put`). Third, the loop that fills
  `auto_rates` together with the overall mean (`ComputeRates`). Fourth, the
  workbook layout as a list of `Sheet(name, columns, rows)` values
  (`SaveToExcel`). The code has no reader; the model adds one (`ReadMotion`,
  `ReadMotions`) only to state that a process sheet holds exactly its group's
  records.
- `App` (`app.py`) and `App2` (`app2.py`) each hold one calculator. Both
  require a non-empty list. Each module also has lemmas about its chart sums,
  permutation invariance and extremes. `app2.py` repeats the calculator and
  the chart sums of `app.py` word for word, so `App2` deliberately repeats
  `App` member for member, keeping one module per source file. Both modules
  wrap the shared `GroupRate`.

Durations, weights and rates are exact `real`s. Non-negative durations and
weights are the input widgets' `min_value=0.0`. The model states this as the
hypothesis `NonNegative` wherever a bound depends on it.

Notes on the code:
- `app.py` and `app2.py` do not handle an empty motion list. The DataFrame
  built from `[]` has no `time` column. Their forms ask for at least one
  motion (`min_value=1`), so their calculators `require |data| > 0`. Only
  `automate.py` returns 0.0 for an empty list.
- The summary sheet's headers are the Korean labels `공정명` (process name)
  and `자동화율(%)` (automation rate, %), as in the code.
- A non-empty process sheet takes its columns from the record keys. In the
  code these are always the seven fixed keys in a fixed order, so every
  process sheet has the same seven columns as the header-only sheet of an
  empty group.
- The motion records of `app.py` and `app2.py` (app.py:31-36, app2.py:31-36)
  have only `motion`, `auto`, `time` and `weight`. `App` and `App2` take the
  shared seven-field `Motion`, whose three free-text fields stand for nothing
  in those files and are left unconstrained. `FreeTextIrrelevant` shows that
  their values cannot change the rate.
- `app.py`/`app2.py` return the integer `0` and `automate.py` returns `0.0`
  for a zero total. Both are the value 0 here.

## Model

| member | source | states |
|---|---|---|
| Weighting.RateMeaning | automate.py:22-25 | A zero total gives exactly 0 with no division. Otherwise rate × (auto + manual) = 100 × auto. Non-negative sums give a rate in [0, 100]. |
| Weighting.GroupRateMeaning | automate.py:18-25 | Zero total weighted time gives 0. Otherwise rate × total = 100 × automated weighted time. With non-negative durations and weights the rate lies in [0, 100]. |
| Weighting.SplitSum | automate.py:19-21 | The automated sum plus the manual sum equals the total weighted time of all motions. |
| Weighting.FilteredSumNonNegative | automate.py:19-21 | With non-negative durations and weights, each masked sum is non-negative. |
| Weighting.FilteredSumZeroIff | automate.py:19-21 | With non-negative inputs, a masked sum is zero if and only if every motion it covers has zero weighted time. |
| Weighting.TotalZeroIff | automate.py:22-23 | If every motion has zero weighted time, the total is zero. With non-negative inputs the converse holds too. |
| Weighting.ZeroTimesOrWeights | automate.py:19-23 | All durations 0, or all weights 0, make the total 0 and the rate exactly 0. |
| Weighting.AllAutomated | automate.py:20-25 | Every motion automated with a non-zero total gives exactly 100. |
| Weighting.NoneAutomated | automate.py:20-25 | No motion automated gives exactly 0. |
| Weighting.HundredIff | automate.py:20-25 | With non-negative inputs and a positive total, the rate is 100 if and only if no manual motion carries weighted time. |
| Weighting.ZeroIff | automate.py:20-25 | With non-negative inputs, the rate is 0 if and only if no automated motion carries weighted time. |
| Weighting.ChartSumAgrees | app.py:43-44 | The generator-expression sum over the filtered motions equals the masked column sum the calculator uses. |
| Weighting.FilteredConcat | automate.py:20-21 | The masked sum of two concatenated motion lists is the sum of their masked sums. |
| Weighting.ProfileSum | automate.py:18-21 | A masked sum depends only on the list of (flag, weighted time) pairs. |
| Weighting.RateDependsOnlyOnProfile | automate.py:18-25 | Two groups whose (flag, weighted time) pairs form the same multiset have the same rate. |
| Weighting.PermutationInvariant | automate.py:18-25 | Permuting the motion list does not change the rate. |
| Weighting.FreeTextIrrelevant | automate.py:18-21 | Changing motion name, device id, operator or remarks does not change the rate. |
| Automate.CalculateAutomationRate | automate.py:11-25 | An empty list gives 0.0 before any sum is formed. A zero total gives 0.0. Otherwise rate × total = 100 × automated sum. With non-negative inputs the rate lies in [0, 100]. |
| Automate.CalculatorIsGroupRate | automate.py:16-25 | The empty-list guard agrees with the zero-total guard, so the calculator equals the shared group rate on every input, and the `Weighting` lemmas (extremes, permutation and free-text invariance) hold for it. |
| Automate.Put | automate.py:153 | Dict assignment keeps keys unique, appends a new key at the end, and replaces an existing key's value in place. |
| Automate.SumBounds | automate.py:157 | A sum of n rates that all lie in [0, 100] lies in [0, 100·n]. |
| Automate.Mean | automate.py:156-159 | No values give 0.0. Otherwise mean × count = sum. Values in [0, 100] give a mean in [0, 100]. |
| Automate.ComputeRates | automate.py:150-159 | auto_rates gets exactly one entry per group, in dict order, pairing each group key with that group's rate, and its keys stay unique. total_rate is the unweighted mean of these rates, 0.0 with no groups, and in [0, 100] for non-negative inputs. |
| Automate.OverallRateBounds | automate.py:154-159 | With non-negative inputs in every group, the overall rate lies in [0, 100]. |
| Automate.OverallRateIsNotPooled | automate.py:154-159 | Take a group at 40% with weighted time 100 and a group at 60% with weighted time 10. Their overall rate is 50%, but the rate of all motions pooled is not 50%. |
| Automate.MotionRow | automate.py:48 | A record becomes a seven-cell row, one cell per fixed column. Reading that row back gives the record, and no other row reads as that record. |
| Automate.ReadWriteRoundTrip | automate.py:48 | Any row that reads as a record is exactly the row that record is written as, so writing and reading a process-sheet row are inverse in both directions. |
| Automate.SheetRoundTrip | automate.py:43-49 | The rows of a process sheet read back as exactly the group's motions, in order. |
| Automate.SaveToExcel | automate.py:29-61 | There is one sheet per group, in dict order, named by the group. Each has the seven fixed columns and as many rows as motions, and reads back as that group's motions, so an empty group gets a header-only sheet. Then comes exactly one final `Summary` sheet with the two summary columns. It has one row (key, rate) per auto_rates entry in order, then a last `TOTAL` row holding total_rate, so there are |auto_rates| + 1 rows. |
| App.CalculateAutomationRate | app.py:4-13 | For a non-empty list: a zero total gives 0. Otherwise rate × total = 100 × automated sum. With non-negative inputs the rate lies in [0, 100]. |
| App.ChartSums | app.py:43-44 | The chart's automated and manual sums equal the calculator's two sums and add up to the total weighted time. The rate is the guarded share of the automated bar in both bars. |
| App.PermutationInvariant | app.py:6-8 | Reordering the motion list keeps it non-empty and leaves the rate unchanged. |
| App.Extremes | app.py:7-13 | All automated with a non-zero total gives 100. None automated gives 0. |
| App2.CalculateAutomationRate | app2.py:5-13 | For a non-empty list: a zero total gives 0. Otherwise rate × total = 100 × automated sum. With non-negative inputs the rate lies in [0, 100]. |
| App2.ChartSums | app2.py:43-44 | The chart's automated and manual sums equal the calculator's two sums and add up to the total weighted time. The rate is the guarded share of the automated bar in both bars. |
| App2.PermutationInvariant | app2.py:7-9 | Reordering the motion list keeps it non-empty and leaves the rate unchanged. |
| App2.Extremes | app2.py:8-13 | All automated with a non-zero total gives 100. None automated gives 0. |

## Left out

- Streamlit UI: titles, tabs, per-row widgets, buttons and messages. This is
  interactive plumbing. The only thing kept from it is the non-negativity the
  number inputs enforce, stated as `NonNegative`.
- Session state (`st.session_state`): this is framework-owned persistence
  between re-renders. `ComputeRates` returns the values the code stores there,
  and `SaveToExcel` takes them as arguments.
- Bar charts and `:.2f` display formatting: these are presentation only. The
  model keeps the chart's two weighted sums, but not the drawing (`ChartSum`,
  `App.ChartSums`).
- The workbook bytes: `pd.ExcelWriter`/xlsxwriter, `io.BytesIO` and the
  download buttons are foreign library calls. They are replaced by the
  abstract list of sheets. Errors the writer can raise for a sheet name that
  is not allowed (too long, forbidden characters, a process named `Summary`)
  are part of that library and are not modelled.
- CSV text (`to_csv` with `utf-8-sig` in `app2.py`, the append-to-file write in
  `app.py`) and the single-sheet `Sheet1` workbook of `app2.py`: these are
  file I/O and library serialisation.
- Floating point: sums and the division use exact `real`s, not IEEE-754
  doubles, so rounding is not reproduced.
- pandas mechanics: DataFrame construction, boolean masks and `.sum()` become
  recursive sums over sequences. Python dicts become item sequences with
  unique keys.

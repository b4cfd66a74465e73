# Case-based coffee recommender — Dafny model

This project models the case-based-reasoning engine `CBRCoffee` of a coffee recommender.
Given a purchase context (time of day, hour, money spent, weekday, month), the engine
recommends the coffee bought in the most similar historical transaction. It runs four
stages:

- **Encoding** (`Encoding`, `Normalization`, and the `CBRCoffee` constructor). Time of
  day, weekday and month labels become fixed integer codes. Hour and money are min-max
  normalised against the dataset-wide minimum and maximum. The class keeps the raw rows
  and the five derived columns (`Time_num`, `Weekday_num`, `Month_num`, `hour_norm`,
  `money_norm`) as fields.
- **Similarity** (`Similarity`). The numeric similarity is `1 - |a - b|` and the
  categorical one is 1 or 0. They are combined with the fixed weights
  0.25 / 0.20 / 0.25 / 0.15 / 0.15.
- **Retrieval** (`Retrieval`, `CBRCoffee.Retrieve`). A loop builds the list of
  `(position, score)` pairs. The list is sorted stably by descending score and its head
  is taken. `BestIndex` is the independent reference for that head: the earliest
  position of a maximal score.
- **Pipeline** (`CBRCoffee.Recommend`, `RecommendSpec`). Encode the query, retrieve,
  reuse the best row's coffee name, revise (an identity), and return the name, the
  score, the row and the encoded query.

Scores, weights and normalised values are exact `real`s. Errors the source raises are
`Err` values:
- `UnknownCategory(label)` for a query label missing from a table. The source raises
  `KeyError`.
- `EmptyDataset` for retrieval over no rows. The source raises `IndexError`.

`Scenarios` works through a three-row dataset.

## Model

| member | source | states |
|---|---|---|
| `Encoding.TimeCode` | pages/1_CBR_Recommender.py:20 | Morning, Afternoon, Night have codes 1, 2, 3 in that order; any other label has no code |
| `Encoding.WeekdayCode` | pages/1_CBR_Recommender.py:21-22 | Mon .. Sun have codes 1 .. 7 in order; any other label has no code |
| `Encoding.MonthCode` | pages/1_CBR_Recommender.py:23-25 | Jan .. Dec have codes 1 .. 12 in order; any other label has no code |
| `Encoding.CodesFollowLabelOrder` | pages/1_CBR_Recommender.py:20-25 | the label at position i of each table has code i + 1 |
| `Encoding.CodesInjective` | pages/1_CBR_Recommender.py:20-25 | two labels with the same code are the same label, in every table |
| `Normalization.MinOf` | pages/1_CBR_Recommender.py:34 | the column minimum is a value of the column and no value is below it |
| `Normalization.MaxOf` | pages/1_CBR_Recommender.py:35 | the column maximum is a value of the column and no value is above it |
| `Normalization.BoundsOf` | pages/1_CBR_Recommender.py:33-39 | both bounds are attained and every value lies between them |
| `Normalization.Normalize` | pages/1_CBR_Recommender.py:33-39 | the minimum maps to 0 and the maximum to 1; in-range values land in [0, 1]; values below or above the range land below 0 or above 1 |
| `Normalization.DenormalizeNormalize` | pages/1_CBR_Recommender.py:33-39 | rescaling a normalised value back gives the original value |
| `Normalization.NormalizeMonotone` | pages/1_CBR_Recommender.py:33-39 | normalisation preserves order in both directions |
| `Normalization.ColumnNormalizesToUnit` | pages/1_CBR_Recommender.py:33-39 | against its own bounds every value of a column normalises into [0, 1], some value to 0 and some value to 1 |
| `Similarity.WeightsSumToOne` | pages/1_CBR_Recommender.py:42-48 | the five weights are nonnegative and sum to 1 |
| `Similarity.SimNumeric` | pages/1_CBR_Recommender.py:55-60 | the result is at most 1; it is exactly 1 iff the values are equal; it is nonnegative when both values are in [0, 1] |
| `Similarity.SimNumericSymmetric` | pages/1_CBR_Recommender.py:55-60 | the numeric similarity is symmetric |
| `Similarity.SimNumericUnclamped` | pages/1_CBR_Recommender.py:55-60 | with no clamp the similarity can be negative: 2.5 against 0 gives -1.5 |
| `Similarity.SimCat` | pages/1_CBR_Recommender.py:63-68 | the result is 1 iff the codes are equal and 0 iff they differ |
| `Similarity.SimCode` | pages/1_CBR_Recommender.py:77-81 | against a stored code the result is 1 exactly when the code is present and equal to the query code, and 0 otherwise, so a missing (NaN) code never matches |
| `Similarity.ComputeSimilarity` | pages/1_CBR_Recommender.py:73-91 | the total is at most 1 and exactly 1 on a match of all five features; when the numeric features are in [0, 1] it lies in [0, 1] and is 1 only on a full match |
| `Similarity.ScoreNegativeFarAboveRange` | pages/1_CBR_Recommender.py:78-89 | a normalised query money above 5, against a row whose normalised money is at most 1, makes the total negative |
| `Retrieval.BestIndex` | pages/1_CBR_Recommender.py:103-105 | the returned position has a score no other position exceeds, and every earlier position scores strictly less |
| `Retrieval.InsertDescPermutes` | pages/1_CBR_Recommender.py:103 | inserting into the sorted list adds exactly the inserted element |
| `Retrieval.InsertDescSorted` | pages/1_CBR_Recommender.py:103 | inserting keeps a list sorted by descending score |
| `Retrieval.SortDesc` | pages/1_CBR_Recommender.py:103 | the sort returns a permutation of its input, of the same length, ordered by descending score |
| `Retrieval.SortDescHead` | pages/1_CBR_Recommender.py:103-105 | the head of the sorted list is the element at the earliest maximal score, so the first row wins ties |
| `Retrieval.RetrieveSpec` | pages/1_CBR_Recommender.py:93-108 | retrieval fails with EmptyDataset iff there are no rows; otherwise it returns some row and its score, where no row scores higher and every earlier row scores lower |
| `Recommender.EncodeCase` | pages/1_CBR_Recommender.py:28-39 | a stored row keeps its raw values; each code is present exactly when the label is in its table; the normalised hour and money lie in [0, 1] |
| `Recommender.EncodeCaseRoundTrip` | pages/1_CBR_Recommender.py:33-39 | a stored row's normalised hour and money rescale back to its raw hour and money |
| `Recommender.CaseTable` | pages/1_CBR_Recommender.py:28-39 | the encoded dataset has one row per raw row, in order, each keeping its raw values, with normalised hour and money in [0, 1] |
| `Recommender.EncodeQuery` | pages/1_CBR_Recommender.py:155-163 | the query codes are kept as given; an hour or money inside the dataset's range normalises into [0, 1] |
| `Recommender.EncodeQueryRoundTrip` | pages/1_CBR_Recommender.py:157-160 | the query's normalised hour and money rescale back to the raw query values |
| `Recommender.Reuse` | pages/1_CBR_Recommender.py:113-117 | the solution is the best row's coffee name |
| `Recommender.Revise` | pages/1_CBR_Recommender.py:122-127 | revise returns the recommendation unchanged |
| `Recommender.RecommendSpec` | pages/1_CBR_Recommender.py:152-177 | a successful result returns one of the encoded dataset rows, and the coffee is that row's coffee name |
| `Recommender.CBRCoffee.constructor` | pages/1_CBR_Recommender.py:16-39 | the object holds the given rows, and every derived column is the encoding of the raw columns against the dataset-wide bounds |
| `Recommender.CBRCoffee.Retrieve` | pages/1_CBR_Recommender.py:93-108 | the scan, the stable sort and the head give exactly the earliest best row and its score, or EmptyDataset for no rows |
| `Recommender.CBRCoffee.Recommend` | pages/1_CBR_Recommender.py:152-177 | the result is exactly `RecommendSpec` of the stored rows: encode, retrieve, reuse and revise, with retain not run and the dataset unchanged |
| `Recommender.RecommendFailsExactly` | pages/1_CBR_Recommender.py:155-166 | recommend fails iff a query label is unknown or there are no rows; the unknown label reported is the first one in time, weekday, month order; with known labels and no rows it fails with EmptyDataset |
| `Recommender.RecommendEncodesQuery` | pages/1_CBR_Recommender.py:155-163 | a successful result carries the query coded by the fixed tables and normalised with the same dataset-wide bounds as the rows |
| `Recommender.RecommendPicksFirstBest` | pages/1_CBR_Recommender.py:165-177 | a successful result returns, for one dataset row, its coffee name unchanged, its score and the row itself; no row scores higher and every earlier row scores lower |
| `Recommender.RecommendScoreInUnitRange` | pages/1_CBR_Recommender.py:155-166 | for hour and money inside the dataset's ranges, the returned similarity lies in [0, 1] |
| `Recommender.RecommendExactMatch` | pages/1_CBR_Recommender.py:73-108 | a query equal to a row with known labels succeeds with similarity 1, and the match it returns is a full match at that row or earlier |
| `Recommender.RecommendUnclamped` | pages/1_CBR_Recommender.py:157-160 | money far above the dataset range, normalised without a clamp, gives a negative similarity |
| `Scenarios.TieGoesToEarliestRow` | pages/1_CBR_Recommender.py:97-108 | rows 0 and 2 of the sample are equal on all features and the query matches both; recommend returns row 0's "Latte" with similarity 1 and the query encoded as (1, 0, 0, 1, 1) |
| `Scenarios.UnknownTimeFails` | pages/1_CBR_Recommender.py:156 | the time-of-day "Evening" fails with UnknownCategory("Evening") |
| `Scenarios.EmptyDatasetFails` | pages/1_CBR_Recommender.py:105 | over no rows, a query with known labels fails with EmptyDataset |
| `Scenarios.OutOfRangeMoneyScoresNegative` | pages/1_CBR_Recommender.py:159-160 | money 100 against money values 5 to 8 gives a negative best similarity |

## Left out

- The Streamlit page is left out because it is presentation only: title, form, widgets and result display (pages/1_CBR_Recommender.py:5, 183-212). The form's ranges (hour 0 to 23, money 1 to 100) are not assumed.
- The dataset is not loaded from HDF/CSV, because that is I/O. The rows are a given `seq<Row>`.
- app.py (dashboard metrics and charts) and pages/2_Dataset_Viewer.py (file display) are not part of this model. They only load, aggregate and display data.
- `retain` (pages/1_CBR_Recommender.py:132-147) is not modelled, for these reasons:
  - it is commented out in the default pipeline (line 175);
  - it writes the encoded query values into the raw label columns, such as a code in `Time_of_Day` and a normalised hour in `hour_of_day`;
  - it leaves the new row's derived columns as NaN, which is floating-point behaviour;
  - its `to_csv` call is I/O.
- Recommender.CBRCoffee.constructor: requires that a non-empty dataset has max > min for both hour and money. The source has no guard there: pandas divides 0 by 0, the columns fill with NaN, every score becomes NaN, and the sort then leaves the first row at the head. NaN is floating-point behaviour.
- The code has no fallback for a degenerate range, and neither does the model.
- Dataset rows whose label is missing from a table are kept. pandas `map` gives them a NaN code, modelled as `None`, and they score 0 on that feature because NaN equals nothing. Only query labels raise.
- Over an empty dataset the query's hour and money are NaN (the bounds of an empty column). The model returns `EmptyDataset` at that point without computing them. The source's `IndexError` comes one step later, in retrieve.
- Floating-point rounding is not modelled: all arithmetic is exact `real`.
- Rows are identified by position. The source mixes the `iterrows` label with `iloc` position; these agree for the default range index.
- `__init__` adds the derived columns to the caller's own DataFrame object. The model copies the rows into the object, so this aliasing is not captured.
- Weights and tables are module constants rather than instance attributes. They never change after construction.

/**
  The case-based recommender: encoding of the dataset on construction, then
  retrieve, reuse and revise for each query.
 */
module Recommender {
  import opened Wrappers
  import opened Cases
  import opened Encoding
  import opened Normalization
  import opened Similarity
  import opened Retrieval

  function HourValues(rows: seq<Row>): seq<real>
  {
    seq(|rows|, i requires 0 <= i < |rows| => rows[i].hourOfDay as real)
  }

  function MoneyValues(rows: seq<Row>): seq<real>
  {
    seq(|rows|, i requires 0 <= i < |rows| => rows[i].money)
  }

  /** Dataset-wide bounds of `hour_of_day`. */
  function HourBounds(rows: seq<Row>): Bounds
    requires |rows| > 0
  {
    BoundsOf(HourValues(rows))
  }

  /** Dataset-wide bounds of `money`. */
  function MoneyBounds(rows: seq<Row>): Bounds
    requires |rows| > 0
  {
    BoundsOf(MoneyValues(rows))
  }

  /** Both numeric columns of a non-empty dataset take at least two distinct values. */
  predicate Normalizable(rows: seq<Row>)
  {
    |rows| == 0 || (Proper(HourBounds(rows)) && Proper(MoneyBounds(rows)))
  }

  /** Column `Time_num`: the time-of-day code of each row. */
  function TimeColumn(rows: seq<Row>): seq<Option<int>>
  {
    seq(|rows|, i requires 0 <= i < |rows| => TimeCode(rows[i].timeOfDay))
  }

  /** Column `Weekday_num`. */
  function WeekdayColumn(rows: seq<Row>): seq<Option<int>>
  {
    seq(|rows|, i requires 0 <= i < |rows| => WeekdayCode(rows[i].weekday))
  }

  /** Column `Month_num`. */
  function MonthColumn(rows: seq<Row>): seq<Option<int>>
  {
    seq(|rows|, i requires 0 <= i < |rows| => MonthCode(rows[i].monthName))
  }

  /** Column `hour_norm`. */
  function HourNormColumn(rows: seq<Row>): seq<real>
    requires Normalizable(rows)
  {
    seq(|rows|, i requires 0 <= i < |rows| => Normalize(rows[i].hourOfDay as real, HourBounds(rows)))
  }

  /** Column `money_norm`. */
  function MoneyNormColumn(rows: seq<Row>): seq<real>
    requires Normalizable(rows)
  {
    seq(|rows|, i requires 0 <= i < |rows| => Normalize(rows[i].money, MoneyBounds(rows)))
  }

  /**
    A row with its derived columns, computed against the dataset-wide bounds: the raw
    row is kept, a categorical code is present exactly for a label of its table, and the
    normalised hour and money lie in [0, 1].
   */
  function EncodeCase(rows: seq<Row>, i: nat): (c: CaseRow)
    requires Normalizable(rows) && i < |rows|
    ensures c.raw == rows[i]
    ensures c.timeNum.Some? <==> rows[i].timeOfDay in TimeLabels
    ensures c.weekdayNum.Some? <==> rows[i].weekday in WeekdayLabels
    ensures c.monthNum.Some? <==> rows[i].monthName in MonthLabels
    ensures 0.0 <= c.hourNorm <= 1.0
    ensures 0.0 <= c.moneyNorm <= 1.0
  {
    assert HourValues(rows)[i] == rows[i].hourOfDay as real;
    assert MoneyValues(rows)[i] == rows[i].money;
    CaseRow(rows[i],
      TimeCode(rows[i].timeOfDay), WeekdayCode(rows[i].weekday), MonthCode(rows[i].monthName),
      Normalize(rows[i].hourOfDay as real, HourBounds(rows)),
      Normalize(rows[i].money, MoneyBounds(rows)))
  }

  /** The encoded dataset: one row per raw row, in order, each with hour and money in [0, 1]. */
  function CaseTable(rows: seq<Row>): (t: seq<CaseRow>)
    requires Normalizable(rows)
    ensures |t| == |rows|
    ensures forall i :: 0 <= i < |rows| ==>
      && t[i].raw == rows[i]
      && 0.0 <= t[i].hourNorm <= 1.0
      && 0.0 <= t[i].moneyNorm <= 1.0
  {
    seq(|rows|, i requires 0 <= i < |rows| => EncodeCase(rows, i))
  }

  /**
    The query, with its codes as given and its hour and money normalised by the given
    bounds: values inside the bounds land in [0, 1].
   */
  function EncodeQuery(time: int, hour: int, money: real, weekday: int, month: int,
                       hb: Bounds, mb: Bounds): (q: Query)
    requires Proper(hb) && Proper(mb)
    ensures q.time == time && q.weekday == weekday && q.month == month
    ensures hb.lo <= hour as real <= hb.hi ==> 0.0 <= q.hour <= 1.0
    ensures mb.lo <= money <= mb.hi ==> 0.0 <= q.money <= 1.0
  {
    Query(time, Normalize(hour as real, hb), Normalize(money, mb), weekday, month)
  }

  /** A stored row's normalised hour and money rescale back to its raw hour and money. */
  lemma EncodeCaseRoundTrip(rows: seq<Row>, i: nat)
    requires Normalizable(rows) && i < |rows|
    ensures Denormalize(EncodeCase(rows, i).hourNorm, HourBounds(rows)) == rows[i].hourOfDay as real
    ensures Denormalize(EncodeCase(rows, i).moneyNorm, MoneyBounds(rows)) == rows[i].money
  {
    assert HourValues(rows)[i] == rows[i].hourOfDay as real;
    DenormalizeNormalize(rows[i].hourOfDay as real, HourBounds(rows));
    DenormalizeNormalize(rows[i].money, MoneyBounds(rows));
  }

  /** The query's normalised hour and money rescale back to the raw query values. */
  lemma EncodeQueryRoundTrip(time: int, hour: int, money: real, weekday: int, month: int,
                             hb: Bounds, mb: Bounds)
    requires Proper(hb) && Proper(mb)
    ensures var q := EncodeQuery(time, hour, money, weekday, month, hb, mb);
      Denormalize(q.hour, hb) == hour as real && Denormalize(q.money, mb) == money
  {
    DenormalizeNormalize(hour as real, hb);
    DenormalizeNormalize(money, mb);
  }

  /** Reuse: the solution is the best case's coffee name, copied unchanged. */
  function Reuse(bestCase: CaseRow): (solution: string)
    ensures solution == bestCase.raw.coffeeName
  {
    bestCase.raw.coffeeName
  }

  /** Revise: no correction is made, so the final solution is the proposed one. */
  function Revise(recommendation: string): (final: string)
    ensures final == recommendation
  {
    recommendation
  }

  /**
    What recommend gives. The query is encoded field by field (time, hour, money,
    weekday, month), so an unknown time label is reported before an unknown weekday,
    and that before an unknown month; an empty dataset fails only at retrieval.
   */
  function RecommendSpec(rows: seq<Row>, time: string, hour: int, money: real,
                         weekday: string, month: string): (r: Result<Recommendation, Error>)
    requires Normalizable(rows)
    ensures r.Ok? ==> r.value.bestCase in CaseTable(rows)
    ensures r.Ok? ==> r.value.coffee == r.value.bestCase.raw.coffeeName
  {
    match TimeCode(time)
    case None => Err(UnknownCategory(time))
    case Some(t) =>
      match WeekdayCode(weekday)
      case None => Err(UnknownCategory(weekday))
      case Some(w) =>
        match MonthCode(month)
        case None => Err(UnknownCategory(month))
        case Some(m) =>
          if |rows| == 0 then Err(EmptyDataset)
          else
            var q := EncodeQuery(t, hour, money, w, m, HourBounds(rows), MoneyBounds(rows));
            match RetrieveSpec(q, CaseTable(rows))
            case Err(e) => Err(e)
            case Ok((best, sim)) => Ok(Recommendation(Revise(Reuse(best)), sim, best, q))
  }

  /** The recommender over one dataset; the derived columns are added on construction. */
  class CBRCoffee {
    var rows: seq<Row>
    var timeNum: seq<Option<int>>
    var weekdayNum: seq<Option<int>>
    var monthNum: seq<Option<int>>
    var hourNorm: seq<real>
    var moneyNorm: seq<real>

    /** Every derived column is the encoding of the raw columns, against the current bounds. */
    ghost predicate Valid()
      reads this
    {
      && Normalizable(rows)
      && timeNum == TimeColumn(rows)
      && weekdayNum == WeekdayColumn(rows)
      && monthNum == MonthColumn(rows)
      && hourNorm == HourNormColumn(rows)
      && moneyNorm == MoneyNormColumn(rows)
    }

    constructor (dataset: seq<Row>)
      requires Normalizable(dataset)
      ensures Valid() && rows == dataset
    {
      rows := dataset;
      timeNum := TimeColumn(dataset);
      weekdayNum := WeekdayColumn(dataset);
      monthNum := MonthColumn(dataset);
      hourNorm := HourNormColumn(dataset);
      moneyNorm := MoneyNormColumn(dataset);
    }

    /** Row `i` with its derived columns, as `iterrows` yields it. */
    function CaseAt(i: nat): (c: CaseRow)
      reads this
      requires Valid() && i < |rows|
      ensures c == EncodeCase(rows, i)
    {
      CaseRow(rows[i], timeNum[i], weekdayNum[i], monthNum[i], hourNorm[i], moneyNorm[i])
    }

    /**
      Retrieve: scores every row, sorts the scored list by descending score (stable),
      and returns the row and score at its head; on no rows the head is missing.
     */
    method Retrieve(newCase: Query) returns (r: Result<(CaseRow, real), Error>)
      requires Valid()
      ensures r == RetrieveSpec(newCase, CaseTable(rows))
    {
      var similarities: seq<ScoredCase> := [];
      for idx := 0 to |rows|
        invariant |similarities| == idx
        invariant forall j :: 0 <= j < idx ==>
          similarities[j] == ScoredCase(j, ComputeSimilarity(newCase, CaseAt(j)))
      {
        var sim := ComputeSimilarity(newCase, CaseAt(idx));
        similarities := similarities + [ScoredCase(idx, sim)];
      }
      ghost var cases := CaseTable(rows);
      assert similarities == ScoredCases(newCase, cases);
      ghost var unsorted := similarities;
      similarities := SortDesc(similarities);
      if |similarities| == 0 {
        return Err(EmptyDataset);
      }
      SortDescHead(unsorted);
      var best := similarities[0];
      r := Ok((CaseAt(best.index), best.score));
    }

    /** Recommend: encode the query, retrieve, reuse, revise; retain is not run. */
    method Recommend(time: string, hour: int, money: real, weekday: string, month: string)
      returns (r: Result<Recommendation, Error>)
      requires Valid()
      ensures r == RecommendSpec(rows, time, hour, money, weekday, month)
    {
      var t := TimeCode(time);
      if t.None? {
        return Err(UnknownCategory(time));
      }
      var w := WeekdayCode(weekday);
      if w.None? {
        return Err(UnknownCategory(weekday));
      }
      var m := MonthCode(month);
      if m.None? {
        return Err(UnknownCategory(month));
      }
      if |rows| == 0 {
        // The empty columns have NaN bounds, so the query's hour and money are NaN;
        // no exception is raised until retrieve indexes its empty list.
        return Err(EmptyDataset);
      }
      var newCase := EncodeQuery(t.value, hour, money, w.value, m.value,
                                 HourBounds(rows), MoneyBounds(rows));
      var retrieved := Retrieve(newCase);
      var (bestCase, sim) := retrieved.value;
      var recommendation := Reuse(bestCase);
      var finalSolution := Revise(recommendation);
      r := Ok(Recommendation(finalSolution, sim, bestCase, newCase));
    }
  }

  /**
    Recommend fails exactly when a query label is missing from its table or the
    dataset is empty, and reports the first missing label in field order.
   */
  lemma RecommendFailsExactly(rows: seq<Row>, time: string, hour: int, money: real,
                              weekday: string, month: string)
    requires Normalizable(rows)
    ensures var r := RecommendSpec(rows, time, hour, money, weekday, month);
      && (r.Err? <==> time !in TimeLabels || weekday !in WeekdayLabels
                      || month !in MonthLabels || |rows| == 0)
      && (time !in TimeLabels ==> r == Err(UnknownCategory(time)))
      && (time in TimeLabels && weekday !in WeekdayLabels ==> r == Err(UnknownCategory(weekday)))
      && (time in TimeLabels && weekday in WeekdayLabels && month !in MonthLabels
          ==> r == Err(UnknownCategory(month)))
      && (time in TimeLabels && weekday in WeekdayLabels && month in MonthLabels && |rows| == 0
          ==> r == Err(EmptyDataset))
  {
  }

  /**
    A successful recommendation carries the query encoded by the fixed tables and
    normalised against the same dataset-wide bounds as the rows.
   */
  lemma RecommendEncodesQuery(rows: seq<Row>, time: string, hour: int, money: real,
                              weekday: string, month: string)
    requires Normalizable(rows)
    ensures var r := RecommendSpec(rows, time, hour, money, weekday, month);
      r.Ok? ==>
        && time in TimeLabels && weekday in WeekdayLabels && month in MonthLabels
        && r.value.newCase == Query(TimeCode(time).value,
                                    Normalize(hour as real, HourBounds(rows)),
                                    Normalize(money, MoneyBounds(rows)),
                                    WeekdayCode(weekday).value, MonthCode(month).value)
  {
  }

  /**
    A successful recommendation is the unchanged coffee name of a dataset row whose
    score is maximal, no earlier row scoring as high, returned with that score, the
    row itself and the query encoded against the dataset-wide bounds.
   */
  lemma RecommendPicksFirstBest(rows: seq<Row>, time: string, hour: int, money: real,
                                weekday: string, month: string)
    requires Normalizable(rows)
    ensures var r := RecommendSpec(rows, time, hour, money, weekday, month);
      r.Ok? ==>
        var rec, cases := r.value, CaseTable(rows);
        exists k ::
          && 0 <= k < |rows|
          && rec.bestCase == cases[k]
          && rec.coffee == rows[k].coffeeName
          && rec.similarity == ComputeSimilarity(rec.newCase, cases[k])
          && (forall j :: 0 <= j < |rows| ==> ComputeSimilarity(rec.newCase, cases[j]) <= rec.similarity)
          && (forall j :: 0 <= j < k ==> ComputeSimilarity(rec.newCase, cases[j]) < rec.similarity)
  {
    var r := RecommendSpec(rows, time, hour, money, weekday, month);
    if r.Ok? {
      var t, w, m := TimeCode(time).value, WeekdayCode(weekday).value, MonthCode(month).value;
      var q := EncodeQuery(t, hour, money, w, m, HourBounds(rows), MoneyBounds(rows));
      var cases := CaseTable(rows);
      var (best, sim) := RetrieveSpec(q, cases).value;
      assert r == Ok(Recommendation(best.raw.coffeeName, sim, best, q));
    }
  }

  /**
    For a query whose hour and money lie within the dataset's ranges, the similarity
    of the recommendation lies in [0, 1].
   */
  lemma RecommendScoreInUnitRange(rows: seq<Row>, time: string, hour: int, money: real,
                                  weekday: string, month: string)
    requires Normalizable(rows) && |rows| > 0
    requires HourBounds(rows).lo <= hour as real <= HourBounds(rows).hi
    requires MoneyBounds(rows).lo <= money <= MoneyBounds(rows).hi
    ensures var r := RecommendSpec(rows, time, hour, money, weekday, month);
      r.Ok? ==> 0.0 <= r.value.similarity <= 1.0
  {
    var r := RecommendSpec(rows, time, hour, money, weekday, month);
    if r.Ok? {
      var q := r.value.newCase;
      var cases := CaseTable(rows);
      var k := BestIndex(Scores(q, cases));
      assert InUnitRange(q, cases[k]);
    }
  }

  /**
    A query equal to a dataset row whose labels are all known scores exactly 1: the
    recommendation is a full match, found at that row or earlier.
   */
  lemma RecommendExactMatch(rows: seq<Row>, k: nat)
    requires Normalizable(rows) && k < |rows|
    requires rows[k].timeOfDay in TimeLabels && rows[k].weekday in WeekdayLabels
    requires rows[k].monthName in MonthLabels
    ensures var r := RecommendSpec(rows, rows[k].timeOfDay, rows[k].hourOfDay, rows[k].money,
                                   rows[k].weekday, rows[k].monthName);
      && r.Ok?
      && r.value.similarity == 1.0
      && Matches(r.value.newCase, r.value.bestCase)
      && (exists i :: 0 <= i <= k && r.value.bestCase == EncodeCase(rows, i)
                      && r.value.coffee == rows[i].coffeeName)
  {
    var row := rows[k];
    var r := RecommendSpec(rows, row.timeOfDay, row.hourOfDay, row.money, row.weekday, row.monthName);
    var q := r.value.newCase;
    var cases := CaseTable(rows);
    var s := Scores(q, cases);
    assert Matches(q, cases[k]);
    assert s[k] == 1.0;
    var b := BestIndex(s);
    assert HourValues(rows)[k] == row.hourOfDay as real;
    assert MoneyValues(rows)[k] == row.money;
    assert InUnitRange(q, cases[b]);
    assert b <= k;
  }

  /**
    Query values are normalised against the dataset's bounds without a clamp, so money
    far above the dataset's range gives a negative similarity.
   */
  lemma RecommendUnclamped(rows: seq<Row>, time: string, hour: int, money: real,
                           weekday: string, month: string)
    requires Normalizable(rows) && |rows| > 0
    requires Normalize(money, MoneyBounds(rows)) > 5.0
    ensures var r := RecommendSpec(rows, time, hour, money, weekday, month);
      r.Ok? ==> r.value.similarity < 0.0
  {
    var r := RecommendSpec(rows, time, hour, money, weekday, month);
    if r.Ok? {
      var q := r.value.newCase;
      var cases := CaseTable(rows);
      var k := BestIndex(Scores(q, cases));
      ScoreNegativeFarAboveRange(q, cases[k]);
    }
  }
}

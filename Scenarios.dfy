/** Concrete runs of the recommender over a three-row dataset. */
module Scenarios {
  import opened Wrappers
  import opened Cases
  import opened Encoding
  import opened Normalization
  import opened Similarity
  import opened Retrieval
  import opened Recommender

  /**
    Rows 0 and 2 agree on every feature and differ only in the coffee; row 1 differs
    in time of day, hour and money.
   */
  function Sample(): seq<Row>
  {
    [ Row("Morning", 10, 5.0, "Mon", "Jan", "Latte"),
      Row("Afternoon", 15, 8.0, "Mon", "Jan", "Latte"),
      Row("Morning", 10, 5.0, "Mon", "Jan", "Espresso") ]
  }

  lemma SampleBounds()
    ensures HourBounds(Sample()) == Bounds(10.0, 15.0)
    ensures MoneyBounds(Sample()) == Bounds(5.0, 8.0)
    ensures Normalizable(Sample())
  {
  }

  lemma SampleCodes()
    ensures TimeCode("Morning") == Some(1) && WeekdayCode("Mon") == Some(1) && MonthCode("Jan") == Some(1)
  {
  }

  /** The query equal to row 0 scores 1 and, among the equal rows 0 and 2, row 0 wins. */
  lemma TieGoesToEarliestRow(rows: seq<Row>)
    requires rows == Sample()
    ensures Normalizable(rows)
    ensures var r := RecommendSpec(rows, "Morning", 10, 5.0, "Mon", "Jan");
      && r.Ok?
      && r.value.coffee == "Latte"
      && r.value.similarity == 1.0
      && r.value.bestCase.raw == rows[0]
      && r.value.newCase == Query(1, 0.0, 0.0, 1, 1)
  {
    SampleBounds();
    SampleCodes();
    RecommendExactMatch(rows, 0);
    RecommendEncodesQuery(rows, "Morning", 10, 5.0, "Mon", "Jan");
    var r := RecommendSpec(rows, "Morning", 10, 5.0, "Mon", "Jan");
    assert r.value.bestCase == EncodeCase(rows, 0);
  }

  /** A time-of-day label outside the table makes recommend fail on that label. */
  lemma UnknownTimeFails()
    ensures Normalizable(Sample())
    ensures RecommendSpec(Sample(), "Evening", 10, 5.0, "Mon", "Jan") == Err(UnknownCategory("Evening"))
  {
    SampleBounds();
    assert "Evening" !in TimeLabels;
    RecommendFailsExactly(Sample(), "Evening", 10, 5.0, "Mon", "Jan");
  }

  /** An empty dataset makes every recommend with known labels fail at retrieval. */
  lemma EmptyDatasetFails(hour: int, money: real)
    ensures RecommendSpec([], "Night", hour, money, "Sun", "Dec") == Err(EmptyDataset)
  {
  }

  /**
    Money far above the dataset's range normalises far above 1, and since the numeric
    similarity is not clamped the best score is negative.
   */
  lemma OutOfRangeMoneyScoresNegative(rows: seq<Row>)
    requires rows == Sample()
    ensures Normalizable(rows)
    ensures var r := RecommendSpec(rows, "Morning", 10, 100.0, "Mon", "Jan");
      r.Ok? && r.value.similarity < 0.0
  {
    SampleBounds();
    SampleCodes();
    assert Normalize(100.0, Bounds(5.0, 8.0)) == 95.0 / 3.0;
    RecommendFailsExactly(rows, "Morning", 10, 100.0, "Mon", "Jan");
    RecommendUnclamped(rows, "Morning", 10, 100.0, "Mon", "Jan");
  }
}

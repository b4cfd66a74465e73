/** The entities the recommender works on: dataset rows, their encoded form, and the query. */
module Cases {
  import opened Wrappers

  /** One transaction of the historical log, with the columns the recommender reads. */
  datatype Row = Row(
    timeOfDay: string,
    hourOfDay: int,
    money: real,
    weekday: string,
    monthName: string,
    coffeeName: string)

  /**
    A row together with its derived columns. A categorical code is `None` where the
    row's label is missing from the table (pandas writes NaN there).
   */
  datatype CaseRow = CaseRow(
    raw: Row,
    timeNum: Option<int>,
    weekdayNum: Option<int>,
    monthNum: Option<int>,
    hourNorm: real,
    moneyNorm: real)

  /** The encoded query: three codes and the normalised hour and money. */
  datatype Query = Query(time: int, hour: real, money: real, weekday: int, month: int)

  /** What `recommend` can raise: a label missing from a table (KeyError), or no rows to index (IndexError). */
  datatype Error = UnknownCategory(name: string) | EmptyDataset

  /** The four values `recommend` returns. */
  datatype Recommendation = Recommendation(
    coffee: string,
    similarity: real,
    bestCase: CaseRow,
    newCase: Query)
}

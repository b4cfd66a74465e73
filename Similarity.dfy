/** The per-feature similarities and their fixed-weight sum. */
module Similarity {
  import opened Wrappers
  import opened Cases

  const TimeWeight: real := 0.25
  const HourWeight: real := 0.20
  const MoneyWeight: real := 0.25
  const WeekdayWeight: real := 0.15
  const MonthWeight: real := 0.15

  /** The weights are nonnegative and sum to one. */
  lemma WeightsSumToOne()
    ensures TimeWeight >= 0.0 && HourWeight >= 0.0 && MoneyWeight >= 0.0
    ensures WeekdayWeight >= 0.0 && MonthWeight >= 0.0
    ensures TimeWeight + HourWeight + MoneyWeight + WeekdayWeight + MonthWeight == 1.0
  {
  }

  function Abs(x: real): real
  {
    if x < 0.0 then -x else x
  }

  /**
    Numeric similarity `1 - |a - b|`: never above 1, exactly 1 for equal values, and
    nonnegative when both values lie in [0, 1]. It is not clamped below.
   */
  function SimNumeric(a: real, b: real): (r: real)
    ensures r <= 1.0
    ensures r == 1.0 <==> a == b
    ensures 0.0 <= a <= 1.0 && 0.0 <= b <= 1.0 ==> 0.0 <= r
  {
    1.0 - Abs(a - b)
  }

  lemma SimNumericSymmetric(a: real, b: real)
    ensures SimNumeric(a, b) == SimNumeric(b, a)
  {
  }

  /** Without a clamp, a value outside [0, 1] can make the similarity negative. */
  lemma SimNumericUnclamped()
    ensures SimNumeric(2.5, 0.0) == -1.5
  {
  }

  /** Categorical similarity: 1 for equal codes, 0 otherwise. */
  function SimCat(a: int, b: int): (r: real)
    ensures r == 1.0 <==> a == b
    ensures r == 0.0 <==> a != b
  {
    if a == b then 1.0 else 0.0
  }

  /**
    Categorical similarity against a row's code. A missing code is NaN in the source,
    and NaN equals nothing, so it scores 0.
   */
  function SimCode(q: int, code: Option<int>): (r: real)
    ensures r == 1.0 <==> code == Some(q)
    ensures r == 0.0 <==> code != Some(q)
  {
    match code
    case None => 0.0
    case Some(c) => SimCat(q, c)
  }

  /** The five features of the query agree exactly with the row's encoded features. */
  predicate Matches(q: Query, c: CaseRow)
  {
    && c.timeNum == Some(q.time)
    && c.hourNorm == q.hour
    && c.moneyNorm == q.money
    && c.weekdayNum == Some(q.weekday)
    && c.monthNum == Some(q.month)
  }

  /** The numeric features of the query and of the row all lie in [0, 1]. */
  predicate InUnitRange(q: Query, c: CaseRow)
  {
    && 0.0 <= q.hour <= 1.0 && 0.0 <= q.money <= 1.0
    && 0.0 <= c.hourNorm <= 1.0 && 0.0 <= c.moneyNorm <= 1.0
  }

  /**
    The weighted total similarity of a query and one row. It never exceeds 1, it is
    exactly 1 on a full match, and for numeric features in [0, 1] it lies in [0, 1]
    and reaches 1 only on a full match.
   */
  function ComputeSimilarity(q: Query, c: CaseRow): (r: real)
    ensures r <= 1.0
    ensures Matches(q, c) ==> r == 1.0
    ensures InUnitRange(q, c) ==> 0.0 <= r && (r == 1.0 ==> Matches(q, c))
  {
    var simTime := SimCode(q.time, c.timeNum);
    var simHour := SimNumeric(q.hour, c.hourNorm);
    var simMoney := SimNumeric(q.money, c.moneyNorm);
    var simWeekday := SimCode(q.weekday, c.weekdayNum);
    var simMonth := SimCode(q.month, c.monthNum);
    simTime * TimeWeight
    + simHour * HourWeight
    + simMoney * MoneyWeight
    + simWeekday * WeekdayWeight
    + simMonth * MonthWeight
  }

  /**
    The score is not clamped: a normalised query money more than 5, against a row
    whose normalised money is at most 1, makes the total negative.
   */
  lemma ScoreNegativeFarAboveRange(q: Query, c: CaseRow)
    requires c.moneyNorm <= 1.0 && q.money > 5.0
    ensures ComputeSimilarity(q, c) < 0.0
  {
  }
}

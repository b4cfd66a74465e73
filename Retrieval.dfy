/**
  Retrieval: score every row, order the scored rows by descending score with a stable
  sort, and take the first. `BestIndex` is the independent reference: the earliest
  position of a maximal score.
 */
module Retrieval {
  import opened Wrappers
  import opened Cases
  import opened Similarity

  /** A row position paired with its similarity to the query. */
  datatype ScoredCase = ScoredCase(index: nat, score: real)

  /** The list retrieve builds: each row's position with its similarity. */
  function ScoredCases(q: Query, cases: seq<CaseRow>): seq<ScoredCase>
  {
    seq(|cases|, i requires 0 <= i < |cases| => ScoredCase(i, ComputeSimilarity(q, cases[i])))
  }

  /** The scores of a scored list, in its order. */
  function ScoresOf(s: seq<ScoredCase>): seq<real>
  {
    seq(|s|, i requires 0 <= i < |s| => s[i].score)
  }

  /** The similarity of the query to each row, in dataset order. */
  function Scores(q: Query, cases: seq<CaseRow>): seq<real>
  {
    ScoresOf(ScoredCases(q, cases))
  }

  /** The earliest position of a maximal score: nothing scores higher, and every earlier score is lower. */
  function BestIndex(s: seq<real>): (k: nat)
    requires |s| > 0
    ensures k < |s|
    ensures forall j :: 0 <= j < |s| ==> s[j] <= s[k]
    ensures forall j :: 0 <= j < k ==> s[j] < s[k]
  {
    if |s| == 1 then 0
    else
      var k := BestIndex(s[1..]) + 1;
      if s[0] >= s[k] then 0 else k
  }

  /** Places `x` before the first element scoring strictly less, so it stays ahead of its equals. */
  function InsertDesc(x: ScoredCase, s: seq<ScoredCase>): (r: seq<ScoredCase>)
    ensures |r| == |s| + 1
  {
    if s == [] || x.score >= s[0].score then [x] + s
    else [s[0]] + InsertDesc(x, s[1..])
  }

  /**
    Stable sort by descending score, as Python's `list.sort(key=..., reverse=True)`:
    elements with equal scores keep their original order.
   */
  function SortDesc(s: seq<ScoredCase>): (r: seq<ScoredCase>)
    ensures |r| == |s|
    ensures multiset(r) == multiset(s)
    ensures SortedDesc(r)
  {
    if s == [] then []
    else
      var t := SortDesc(s[1..]);
      InsertDescPermutes(s[0], t);
      InsertDescSorted(s[0], t);
      assert multiset(s) == multiset(s[1..]) + multiset{s[0]} by {
        assert s == [s[0]] + s[1..];
      }
      InsertDesc(s[0], t)
  }

  predicate SortedDesc(s: seq<ScoredCase>)
  {
    forall i, j :: 0 <= i < j < |s| ==> s[i].score >= s[j].score
  }

  lemma {:induction false} InsertDescPermutes(x: ScoredCase, s: seq<ScoredCase>)
    ensures multiset(InsertDesc(x, s)) == multiset(s) + multiset{x}
  {
    if s != [] && x.score < s[0].score {
      InsertDescPermutes(x, s[1..]);
      assert s == [s[0]] + s[1..];
    }
  }

  lemma {:induction false} InsertDescSorted(x: ScoredCase, s: seq<ScoredCase>)
    requires SortedDesc(s)
    ensures SortedDesc(InsertDesc(x, s))
  {
    if s != [] && x.score < s[0].score {
      var t := InsertDesc(x, s[1..]);
      InsertDescSorted(x, s[1..]);
      InsertDescPermutes(x, s[1..]);
      forall e | e in t
        ensures s[0].score >= e.score
      {
        assert e in multiset(t);
        assert e == x || e in multiset(s[1..]);
      }
      forall i | 0 < i < |InsertDesc(x, s)|
        ensures InsertDesc(x, s)[0].score >= InsertDesc(x, s)[i].score
      {
        assert InsertDesc(x, s)[i] == t[i - 1];
        assert t[i - 1] in t;
      }
    }
  }

  /**
    The head of the stable descending sort is the element at the earliest maximal
    score: this is the first-wins tie-break of retrieve.
   */
  lemma {:induction false} SortDescHead(s: seq<ScoredCase>)
    requires |s| > 0
    ensures SortDesc(s)[0] == s[BestIndex(ScoresOf(s))]
  {
    if |s| > 1 {
      var rest := s[1..];
      SortDescHead(rest);
      var k := BestIndex(ScoresOf(rest)) + 1;
      assert ScoresOf(rest) == ScoresOf(s)[1..];
      assert SortDesc(s)[0] == if s[0].score >= s[k].score then s[0] else s[k];
      assert ScoresOf(s)[0] == s[0].score && ScoresOf(s)[k] == s[k].score;
    }
  }

  /**
    What retrieve gives. It fails exactly on no rows; otherwise it returns a row of the
    dataset with its score, where no row scores higher and every earlier row scores lower.
   */
  function RetrieveSpec(q: Query, cases: seq<CaseRow>): (r: Result<(CaseRow, real), Error>)
    ensures r.Err? <==> |cases| == 0
    ensures r.Err? ==> r.error == EmptyDataset
    ensures r.Ok? ==>
      var (best, sim) := r.value;
      exists k :: 0 <= k < |cases| && best == cases[k] && sim == ComputeSimilarity(q, cases[k])
        && (forall j :: 0 <= j < |cases| ==> ComputeSimilarity(q, cases[j]) <= sim)
        && (forall j :: 0 <= j < k ==> ComputeSimilarity(q, cases[j]) < sim)
  {
    if |cases| == 0 then Err(EmptyDataset)
    else
      var s := Scores(q, cases);
      var k := BestIndex(s);
      assert forall j :: 0 <= j < |cases| ==> s[j] == ComputeSimilarity(q, cases[j]);
      Ok((cases[k], s[k]))
  }
}

/** The `match_score` of a screening or shortlist entry, as the evaluator reads
    it, and the order it sorts entries in. */
module Scores {
  import opened Json
  import Python
  import StableSort

  /** `d.get('match_score', 0)` as it behaves in a comparison with an int:
      a missing score is 0, a bool is 0 or 1, anything else raises TypeError. */
  function ScoreOf(d: Dict): (r: Result<int>)
    ensures "match_score" !in Keys(d) ==> r == Ok(0)
    ensures r.Ok? <==> (match Lookup(d, "match_score")
                        case None => true
                        case Some(v) => v.JNum? || v.JBool?)
  {
    Python.Num(Python.Get(d, "match_score", JNum(0)))
  }

  /** The same score as a total sort key (0 where the score is not a number,
      which never happens for the entries that reach a sort). */
  function Key(d: Dict): int
  {
    match ScoreOf(d)
    case Ok(s) => s
    case Raised => 0
  }

  /** Writing a key other than `match_score` leaves the score as it was. */
  lemma ScoreAfterPut(d: Dict, k: string, v: Json)
    requires k != "match_score"
    ensures ScoreOf(Put(d, k, v)) == ScoreOf(d)
    ensures Key(Put(d, k, v)) == Key(d)
  {
    PutLookup(d, k, v, "match_score");
    PutKeys(d, k, v);
  }

  /** `entries.sort(key=lambda x: x.get('match_score', 0), reverse=True)`. */
  function SortByScore(s: seq<Dict>): seq<Dict>
  {
    StableSort.SortDesc(s, Key)
  }

  predicate ScoresNonIncreasing(s: seq<Dict>)
  {
    StableSort.NonIncreasing(s, Key)
  }
}

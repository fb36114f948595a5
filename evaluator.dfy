/** The evaluator agent: from the per-candidate screening results and the
    parsed reply of the ranking request, a shortlist ranked by score; when any
    step of that raises, a shortlist computed from the screening results alone.

    The ranking request itself (prompt, network call, reply parsing) is an
    input: `response` is the parsed reply, or `Raised` when the call or the
    parse failed. */
module Evaluator {
  import opened Json
  import Python
  import StableSort
  import opened Scores

  /** What `evaluate_and_rank` returns; `success` is True in every case. */
  datatype Evaluation =
      /** No screening has a positive score. */
    | NoValid(reviewed: nat)
      /** The main path: the ranked shortlist and the reply's `summary`. */
    | Ranked(shortlisted: seq<Dict>, summary: Json, reviewed: nat, totalShortlisted: nat)
      /** The fallback ranking, used after the main path raised. */
    | Fallback(shortlisted: seq<Dict>, reviewed: nat, totalShortlisted: nat)

  /** The entries of `rs` whose score is at least `bound`, in order: the list
      comprehension over `r.get('match_score', 0)`. It raises when an entry is
      not a dict or its score is not a number. */
  function AtLeast(rs: seq<Json>, bound: int): (r: Result<seq<Dict>>)
    ensures r.Ok? <==> forall i :: 0 <= i < |rs| ==> rs[i].JObj? && ScoreOf(rs[i].fields).Ok?
    ensures r.Ok? ==> |r.value| <= |rs|
    ensures r.Ok? ==> forall d :: d in r.value <==> JObj(d) in rs && Key(d) >= bound
    ensures r.Ok? ==> forall d :: d in r.value ==> ScoreOf(d) == Ok(Key(d))
  {
    if rs == [] then Ok([])
    else if !rs[0].JObj? then Raised
    else match ScoreOf(rs[0].fields)
      case Raised => Raised
      case Ok(s) =>
        var rest := AtLeast(rs[1..], bound);
        assert rest.Ok? ==> forall d :: JObj(d) in rs <==> d == rs[0].fields || JObj(d) in rs[1..] by {
          assert rs == [rs[0]] + rs[1..];
        }
        Prepend(if s >= bound then [rs[0].fields] else [], rest)
  }

  /** Entry `i` of `rs` is a dict whose score reaches `bound`. */
  predicate Reaches(rs: seq<Json>, i: nat, bound: int)
    requires i < |rs|
  {
    rs[i].JObj? && Key(rs[i].fields) >= bound
  }

  /** The positions, from `from` on, of the entries of `rs` that reach
      `bound`: strictly increasing, and holding exactly those positions. */
  function PositionsFrom(rs: seq<Json>, bound: int, from: nat): (idx: seq<nat>)
    requires from <= |rs|
    ensures forall k :: 0 <= k < |idx| ==> from <= idx[k] < |rs|
    ensures forall k, l :: 0 <= k < l < |idx| ==> idx[k] < idx[l]
    ensures forall i :: from <= i < |rs| ==> (i in idx <==> Reaches(rs, i, bound))
    decreases |rs| - from
  {
    if from == |rs| then []
    else (if Reaches(rs, from, bound) then [from] else []) + PositionsFrom(rs, bound, from + 1)
  }

  /** Entry k of `picked` is the dict at position `idx[k]` of `rs`. */
  predicate Picks(picked: seq<Dict>, rs: seq<Json>, idx: seq<nat>)
  {
    |picked| == |idx| && forall k :: 0 <= k < |idx| ==> idx[k] < |rs| && JObj(picked[k]) == rs[idx[k]]
  }

  lemma PicksAppend(a: seq<Dict>, b: seq<Dict>, rs: seq<Json>, i: seq<nat>, j: seq<nat>)
    requires Picks(a, rs, i) && Picks(b, rs, j)
    ensures Picks(a + b, rs, i + j)
  {
    forall k | 0 <= k < |i + j| ensures (i + j)[k] < |rs| && JObj((a + b)[k]) == rs[(i + j)[k]] {
      if k >= |i| {
        assert (a + b)[k] == b[k - |a|] && (i + j)[k] == j[k - |i|];
      }
    }
  }

  /** The comprehension keeps the qualifying entries in their order and with
      their multiplicity: entry k of the result is the entry of `rs` at the
      k-th qualifying position. */
  lemma AtLeastInOrder(rs: seq<Json>, bound: int)
    requires AtLeast(rs, bound).Ok?
    ensures var idx := PositionsFrom(rs, bound, 0);
      && |AtLeast(rs, bound).value| == |idx|
      && forall k :: 0 <= k < |idx| ==> JObj(AtLeast(rs, bound).value[k]) == rs[idx[k]]
  {
    assert rs[0..] == rs;
    AtLeastFrom(rs, bound, 0);
  }

  lemma {:induction false} AtLeastFrom(rs: seq<Json>, bound: int, from: nat)
    requires from <= |rs| && AtLeast(rs[from..], bound).Ok?
    ensures Picks(AtLeast(rs[from..], bound).value, rs, PositionsFrom(rs, bound, from))
    decreases |rs| - from
  {
    if from < |rs| {
      AtLeastStep(rs, bound, from);
      AtLeastFrom(rs, bound, from + 1);
      var head: seq<Dict> := if Reaches(rs, from, bound) then [rs[from].fields] else [];
      var first: seq<nat> := if Reaches(rs, from, bound) then [from] else [];
      assert Picks(head, rs, first);
      PicksAppend(head, AtLeast(rs[from + 1..], bound).value, rs, first, PositionsFrom(rs, bound, from + 1));
    }
  }

  /** One step of the comprehension over a suffix of `rs`. */
  lemma AtLeastStep(rs: seq<Json>, bound: int, from: nat)
    requires from < |rs| && AtLeast(rs[from..], bound).Ok?
    ensures AtLeast(rs[from + 1..], bound).Ok?
    ensures AtLeast(rs[from..], bound).value
         == (if Reaches(rs, from, bound) then [rs[from].fields] else []) + AtLeast(rs[from + 1..], bound).value
  {
    var t := rs[from..];
    assert t[0] == rs[from] && t[1..] == rs[from + 1..];
    assert AtLeast(t[1..], bound).Ok? by {
      forall i | 0 <= i < |t[1..]| ensures t[1..][i].JObj? && ScoreOf(t[1..][i].fields).Ok? {
        assert t[1..][i] == t[i + 1];
      }
    }
  }

  /** `[r for r in screening_results if r.get('match_score', 0) > 0]`;
      scores are integers, so "above 0" is "at least 1". */
  function ValidResults(rs: seq<Json>): Result<seq<Dict>>
  {
    AtLeast(rs, 1)
  }

  /** Every entry passed on to ranking has a positive score; an entry without
      a score counts as 0 and is left out. */
  lemma ValidResultsPositive(rs: seq<Json>, d: Dict)
    requires ValidResults(rs).Ok? && d in ValidResults(rs).value
    ensures "match_score" in Keys(d)
    ensures ScoreOf(d).Ok? && ScoreOf(d).value > 0
  {
  }

  /** The keys of one entry of `_format_screening_results`, in order. */
  const SummaryKeys: seq<string> :=
    ["name", "match_score", "skills_match", "experience_score",
     "strengths", "weaknesses", "recommendation", "assessment"]

  /** The summary dict holding `vals` under `SummaryKeys`. */
  function SummaryOf(vals: seq<Json>): (d: Dict)
    requires |vals| == 8
    ensures |d| == 8 && forall i :: 0 <= i < 8 ==> d[i] == Field(SummaryKeys[i], vals[i])
  {
    seq(8, i requires 0 <= i < 8 => Field(SummaryKeys[i], vals[i]))
  }

  /** Each key of a summary reads back its value. */
  lemma SummaryLookup(vals: seq<Json>, i: nat)
    requires |vals| == 8 && i < 8
    ensures Keys(SummaryOf(vals)) == SummaryKeys
    ensures Lookup(SummaryOf(vals), SummaryKeys[i]) == Some(vals[i])
  {
    var d := SummaryOf(vals);
    assert DistinctKeys(d);
    LookupDistinct(d, i);
  }

  /** One entry of `_format_screening_results`: the fields of a screening
      result the ranking prompt shows. Reading `match_percentage` or
      `relevance_score` raises when `skills_match` or `experience_match` is
      present but not a dict. */
  function ScreeningSummary(r: Dict): (s: Result<Dict>)
    ensures s.Ok? <==> (Python.Get(r, "skills_match", JObj([])).JObj?
                        && Python.Get(r, "experience_match", JObj([])).JObj?)
  {
    if Python.Get(r, "skills_match", JObj([])).JObj? && Python.Get(r, "experience_match", JObj([])).JObj?
    then Ok(SummaryOf(SummaryValues(r)))
    else Raised
  }

  /** The eight values of a summary, each read with its default. */
  function SummaryValues(r: Dict): (vals: seq<Json>)
    requires Python.Get(r, "skills_match", JObj([])).JObj?
    requires Python.Get(r, "experience_match", JObj([])).JObj?
    ensures |vals| == 8
  {
    [ Python.Get(r, "candidate_name", JStr("Unknown")),
      Python.Get(r, "match_score", JNum(0)),
      Python.Get(Python.Get(r, "skills_match", JObj([])).fields, "match_percentage", JNum(0)),
      Python.Get(Python.Get(r, "experience_match", JObj([])).fields, "relevance_score", JNum(0)),
      Python.Get(r, "strengths", JArr([])),
      Python.Get(r, "weaknesses", JArr([])),
      Python.Get(r, "recommendation", JStr("unknown")),
      Python.Get(r, "overall_assessment", JStr("")) ]
  }

  /** A summary holds the eight fields the prompt shows, in order; the name
      defaults to "Unknown" and the assessment is `overall_assessment`. */
  lemma SummaryFields(r: Dict, s: Dict)
    requires ScreeningSummary(r) == Ok(s)
    ensures Keys(s) == SummaryKeys
    ensures Lookup(s, "name") == Some(Python.Get(r, "candidate_name", JStr("Unknown")))
    ensures Lookup(s, "assessment") == Some(Python.Get(r, "overall_assessment", JStr("")))
  {
    var vals := SummaryValues(r);
    SummaryLookup(vals, 0);
    SummaryLookup(vals, 7);
  }

  /** The two scores of a summary are read from the nested dicts:
      `skills_match.match_percentage` and `experience_match.relevance_score`,
      0 when absent. */
  lemma SummaryScores(r: Dict, s: Dict, skills: Dict, experience: Dict)
    requires ScreeningSummary(r) == Ok(s)
    requires Python.Get(r, "skills_match", JObj([])) == JObj(skills)
    requires Python.Get(r, "experience_match", JObj([])) == JObj(experience)
    ensures Lookup(s, "skills_match") == Some(Python.Get(skills, "match_percentage", JNum(0)))
    ensures Lookup(s, "experience_score") == Some(Python.Get(experience, "relevance_score", JNum(0)))
  {
    var vals := SummaryValues(r);
    SummaryLookup(vals, 2);
    SummaryLookup(vals, 3);
  }

  /** `_format_screening_results`, before the list is serialised to text: one
      summary per valid screening result, in order. */
  method FormatScreeningResults(results: seq<Dict>) returns (r: Result<seq<Dict>>)
    ensures r == MapAll(results, ScreeningSummary)
    ensures r.Ok? ==> |r.value| == |results|
  {
    var formatted: seq<Dict> := [];
    var i := 0;
    assert results[i..] == results;
    PrependNothing(MapAll(results, ScreeningSummary));
    while i < |results|
      invariant 0 <= i <= |results|
      invariant MapAll(results, ScreeningSummary) == Prepend(formatted, MapAll(results[i..], ScreeningSummary))
    {
      MapAllStep(results, i, ScreeningSummary);
      var summary := ScreeningSummary(results[i]);
      if summary.Raised? {
        return Raised;
      }
      PrependPrepend(formatted, [summary.value], MapAll(results[i + 1..], ScreeningSummary));
      formatted := formatted + [summary.value];
      i := i + 1;
    }
    assert results[i..] == [];
    PrependAll(formatted);
    return Ok(formatted);
  }

  /** `r.get('candidate_name')`: None (JSON null) when absent. */
  function NameOf(d: Dict): Json
  {
    Python.Get(d, "candidate_name", JNull)
  }

  /** The position of the first valid screening result whose name equals
      `name`: the `next(...)` generator of the main path. */
  function FindOriginal(valid: seq<Dict>, name: Json): (r: Option<nat>)
    ensures r.Some? ==> r.value < |valid| && NameOf(valid[r.value]) == name
    ensures r.Some? ==> forall j :: 0 <= j < r.value ==> NameOf(valid[j]) != name
    ensures r.None? ==> forall j :: 0 <= j < |valid| ==> NameOf(valid[j]) != name
  {
    if valid == [] then None
    else if NameOf(valid[0]) == name then Some(0)
    else match FindOriginal(valid[1..], name)
      case None => None
      case Some(i) => Some(i + 1)
  }

  /** A shortlisted entry with the e-mail address and phone number of the
      screening result it names, when there is one. */
  function WithContact(c: Dict, valid: seq<Dict>): Dict
  {
    match FindOriginal(valid, NameOf(c))
    case None => c
    case Some(i) =>
      if Python.Truthy(JObj(valid[i])) then
        Put(Put(c, "email", Python.Get(valid[i], "candidate_email", JStr(""))),
            "phone", Python.Get(valid[i], "candidate_phone", JStr("")))
      else c
  }

  /** The entry of the first matching screening result gets its `email` and
      `phone` (empty strings when it has none) and keeps everything else; an
      entry that matches no screening result is unchanged. */
  lemma ContactDetails(c: Dict, valid: seq<Dict>, k: string)
    requires forall j :: 0 <= j < |valid| ==> valid[j] != []
    ensures FindOriginal(valid, NameOf(c)).None? ==> WithContact(c, valid) == c
    ensures FindOriginal(valid, NameOf(c)).Some? ==>
      var o := valid[FindOriginal(valid, NameOf(c)).value];
      && Lookup(WithContact(c, valid), "email") == Some(Python.Get(o, "candidate_email", JStr("")))
      && Lookup(WithContact(c, valid), "phone") == Some(Python.Get(o, "candidate_phone", JStr("")))
      && (k != "email" && k != "phone" ==> Lookup(WithContact(c, valid), k) == Lookup(c, k))
    ensures Key(WithContact(c, valid)) == Key(c)
  {
    match FindOriginal(valid, NameOf(c))
    case None =>
    case Some(i) =>
      var o := valid[i];
      var e := Put(c, "email", Python.Get(o, "candidate_email", JStr("")));
      PutLookup(c, "email", Python.Get(o, "candidate_email", JStr("")), k);
      PutLookup(e, "phone", Python.Get(o, "candidate_phone", JStr("")), k);
      PutLookup(c, "email", Python.Get(o, "candidate_email", JStr("")), "email");
      PutLookup(e, "phone", Python.Get(o, "candidate_phone", JStr("")), "email");
      PutLookup(e, "phone", Python.Get(o, "candidate_phone", JStr("")), "phone");
      ScoreAfterPut(c, "email", Python.Get(o, "candidate_email", JStr("")));
      ScoreAfterPut(e, "phone", Python.Get(o, "candidate_phone", JStr("")));
  }

  /** The entries of the reply that reach `min_score`, with contact details
      attached, in the reply's order; it raises when an entry is not a dict
      or its score is not a number. */
  function ShortlistOf(cands: seq<Json>, valid: seq<Dict>, minScore: int): (r: Result<seq<Dict>>)
    ensures r.Ok? <==> forall i :: 0 <= i < |cands| ==> cands[i].JObj? && ScoreOf(cands[i].fields).Ok?
    ensures r.Ok? ==> |r.value| <= |cands|
  {
    if cands == [] then Ok([])
    else if !cands[0].JObj? then Raised
    else match ScoreOf(cands[0].fields)
      case Raised => Raised
      case Ok(s) =>
        Prepend(if s >= minScore then [WithContact(cands[0].fields, valid)] else [],
                ShortlistOf(cands[1..], valid, minScore))
  }

  lemma ShortlistStep(cands: seq<Json>, i: nat, valid: seq<Dict>, minScore: int)
    requires i < |cands|
    ensures ShortlistOf(cands[i..], valid, minScore)
         == if !cands[i].JObj? then Raised
            else match ScoreOf(cands[i].fields)
              case Raised => Raised
              case Ok(s) =>
                Prepend(if s >= minScore then [WithContact(cands[i].fields, valid)] else [],
                        ShortlistOf(cands[i + 1..], valid, minScore))
  {
    assert cands[i..][1..] == cands[i + 1..];
  }

  /** Each entry with the contact details of its screening result. */
  function WithContacts(q: seq<Dict>, valid: seq<Dict>): (r: seq<Dict>)
    ensures |r| == |q|
  {
    seq(|q|, i requires 0 <= i < |q| => WithContact(q[i], valid))
  }

  /** The shortlist is the `min_score` filter of the reply with contact
      details attached; the two raise on the same replies. */
  lemma {:induction false} ShortlistMapped(cands: seq<Json>, valid: seq<Dict>, minScore: int)
    ensures ShortlistOf(cands, valid, minScore).Ok? <==> AtLeast(cands, minScore).Ok?
    ensures ShortlistOf(cands, valid, minScore).Ok? ==>
      ShortlistOf(cands, valid, minScore).value == WithContacts(AtLeast(cands, minScore).value, valid)
  {
    if cands != [] && ShortlistOf(cands, valid, minScore).Ok? {
      ShortlistMapped(cands[1..], valid, minScore);
      var c := cands[0].fields;
      var sc := ScoreOf(c).value;
      var rest := AtLeast(cands[1..], minScore).value;
      var head: seq<Dict> := if sc >= minScore then [c] else [];
      assert AtLeast(cands, minScore) == Prepend(head, Ok(rest));
      var shortRest := ShortlistOf(cands[1..], valid, minScore).value;
      assert shortRest == WithContacts(rest, valid);
      assert WithContacts(head, valid) == if sc >= minScore then [WithContact(c, valid)] else [];
      assert ShortlistOf(cands, valid, minScore) == Prepend(WithContacts(head, valid), Ok(shortRest));
      WithContactsAppend(head, rest, valid);
    }
  }

  lemma WithContactsAppend(a: seq<Dict>, b: seq<Dict>, valid: seq<Dict>)
    ensures WithContacts(a + b, valid) == WithContacts(a, valid) + WithContacts(b, valid)
  {
    assert forall i :: 0 <= i < |a + b| ==> WithContacts(a + b, valid)[i] == WithContact((a + b)[i], valid);
  }

  /** The shortlist keeps the reply's order and multiplicity: entry k is the
      reply entry at the k-th position that reaches `min_score`, with its
      contact details. */
  lemma ShortlistInOrder(cands: seq<Json>, valid: seq<Dict>, minScore: int)
    requires ShortlistOf(cands, valid, minScore).Ok?
    ensures var short := ShortlistOf(cands, valid, minScore).value;
      var idx := PositionsFrom(cands, minScore, 0);
      && |short| == |idx|
      && forall k :: 0 <= k < |idx| ==> short[k] == WithContact(cands[idx[k]].fields, valid)
  {
    ShortlistMapped(cands, valid, minScore);
    AtLeastInOrder(cands, minScore);
  }

  /** Every entry of the shortlist reaches `min_score`, and every entry of the
      reply that reaches it is on the shortlist. */
  lemma {:induction false} ShortlistMembers(cands: seq<Json>, valid: seq<Dict>, minScore: int)
    requires forall j :: 0 <= j < |valid| ==> valid[j] != []
    requires ShortlistOf(cands, valid, minScore).Ok?
    ensures forall d :: d in ShortlistOf(cands, valid, minScore).value ==> Key(d) >= minScore
    ensures forall c :: JObj(c) in cands && Key(c) >= minScore ==>
              WithContact(c, valid) in ShortlistOf(cands, valid, minScore).value
    ensures forall d :: d in ShortlistOf(cands, valid, minScore).value ==>
              exists c :: JObj(c) in cands && Key(c) >= minScore && d == WithContact(c, valid)
  {
    if cands != [] {
      ShortlistMembers(cands[1..], valid, minScore);
      ContactDetails(cands[0].fields, valid, "");
      assert cands == [cands[0]] + cands[1..];
    }
    ShortlistMapped(cands, valid, minScore);
    var q := AtLeast(cands, minScore).value;
    forall d | d in ShortlistOf(cands, valid, minScore).value
      ensures exists c :: JObj(c) in cands && Key(c) >= minScore && d == WithContact(c, valid)
    {
      var k :| 0 <= k < |q| && d == WithContacts(q, valid)[k];
      assert q[k] in q;
    }
  }

  /** The loop of the main path that filters the reply by `min_score` and
      writes `email` and `phone` into the matching entries. */
  method CollectShortlist(cands: seq<Json>, valid: seq<Dict>, minScore: int) returns (r: Result<seq<Dict>>)
    ensures r == ShortlistOf(cands, valid, minScore)
  {
    var shortlisted: seq<Dict> := [];
    var i := 0;
    assert cands[i..] == cands;
    PrependNothing(ShortlistOf(cands, valid, minScore));
    while i < |cands|
      invariant 0 <= i <= |cands|
      invariant ShortlistOf(cands, valid, minScore)
             == Prepend(shortlisted, ShortlistOf(cands[i..], valid, minScore))
    {
      ShortlistStep(cands, i, valid, minScore);
      if !cands[i].JObj? {
        return Raised;
      }
      var candidate := cands[i].fields;
      var score := ScoreOf(candidate);
      if score.Raised? {
        return Raised;
      }
      if score.value >= minScore {
        var original := FindOriginal(valid, NameOf(candidate));
        if original.Some? && Python.Truthy(JObj(valid[original.value])) {
          candidate := Put(candidate, "email", Python.Get(valid[original.value], "candidate_email", JStr("")));
          candidate := Put(candidate, "phone", Python.Get(valid[original.value], "candidate_phone", JStr("")));
        }
        assert candidate == WithContact(cands[i].fields, valid);
        PrependPrepend(shortlisted, [candidate], ShortlistOf(cands[i + 1..], valid, minScore));
        shortlisted := shortlisted + [candidate];
      } else {
        PrependNothing(ShortlistOf(cands[i + 1..], valid, minScore));
      }
      i := i + 1;
    }
    assert cands[i..] == [];
    PrependAll(shortlisted);
    return Ok(shortlisted);
  }

  /** Every entry with its `rank` set to its 1-based position. */
  function WithRanks(s: seq<Dict>): (r: seq<Dict>)
    ensures |r| == |s|
  {
    seq(|s|, i requires 0 <= i < |s| => Put(s[i], "rank", JNum(i + 1)))
  }

  /** Ranks are exactly 1..n in list order, and setting them changes nothing
      else, in particular not the scores. */
  lemma RanksConsecutive(s: seq<Dict>, i: nat, k: string)
    requires i < |s|
    ensures Lookup(WithRanks(s)[i], "rank") == Some(JNum(i + 1))
    ensures k != "rank" ==> Lookup(WithRanks(s)[i], k) == Lookup(s[i], k)
    ensures Key(WithRanks(s)[i]) == Key(s[i])
  {
    var ranked := Put(s[i], "rank", JNum(i + 1));
    assert WithRanks(s)[i] == ranked;
    PutLookup(s[i], "rank", JNum(i + 1), "rank");
    PutLookup(s[i], "rank", JNum(i + 1), k);
    ScoreAfterPut(s[i], "rank", JNum(i + 1));
  }

  /** The loop that writes `rank` into each entry of the sorted shortlist. */
  method AssignRanks(s: seq<Dict>) returns (r: seq<Dict>)
    ensures r == WithRanks(s)
  {
    r := s;
    var idx := 0;
    while idx < |r|
      invariant 0 <= idx <= |r| == |s|
      invariant forall j :: 0 <= j < idx ==> r[j] == Put(s[j], "rank", JNum(j + 1))
      invariant forall j :: idx <= j < |r| ==> r[j] == s[j]
    {
      r := r[idx := Put(r[idx], "rank", JNum(idx + 1))];
      idx := idx + 1;
    }
  }

  /** The `try` block of `evaluate_and_rank`; `Raised` sends control to the
      fallback. */
  function MainPath(screenings: seq<Json>, response: Result<Json>, minScore: int): Result<Evaluation>
  {
    match ValidResults(screenings)
    case Raised => Raised
    case Ok(valid) =>
      if valid == [] then Ok(NoValid(|screenings|))
      else if MapAll(valid, ScreeningSummary).Raised? || response.Raised? || !response.value.JObj? then Raised
      else
        var evaluation := response.value.fields;
        match Python.Iterate(Python.Get(evaluation, "shortlisted_candidates", JArr([])))
        case Raised => Raised
        case Ok(cands) =>
          match ShortlistOf(cands, valid, minScore)
          case Raised => Raised
          case Ok(short) =>
            var ranked := WithRanks(SortByScore(short));
            Ok(Ranked(ranked, Python.Get(evaluation, "summary", JObj([])), |screenings|, |ranked|))
  }

  /** The dict the fallback builds for one candidate, keys in source order. */
  function EntryOf(name: Json, score: Json, rank: nat, email: Json, phone: Json,
                   strengths: Json, reason: Json): Dict
  {
    [ Field("candidate_name", name), Field("match_score", score), Field("rank", JNum(rank)),
      Field("email", email), Field("phone", phone), Field("key_strengths", strengths),
      Field("recommendation_reason", reason) ]
  }

  lemma EntryOfLookups(name: Json, score: Json, rank: nat, email: Json, phone: Json,
                       strengths: Json, reason: Json)
    ensures var e := EntryOf(name, score, rank, email, phone, strengths, reason);
      && Lookup(e, "match_score") == Some(score)
      && Lookup(e, "rank") == Some(JNum(rank))
      && Lookup(e, "key_strengths") == Some(strengths)
  {
    var e := EntryOf(name, score, rank, email, phone, strengths, reason);
    assert DistinctKeys(e);
    LookupDistinct(e, 1);
    LookupDistinct(e, 2);
    LookupDistinct(e, 5);
  }

  /** One entry of the fallback shortlist. Slicing `strengths` raises when it
      is neither a list nor a string. */
  function FallbackEntry(r: Dict, rank: nat): (e: Result<Dict>)
    ensures e.Ok? <==> Python.Take(Python.Get(r, "strengths", JArr([])), 3).Ok?
  {
    match Python.Take(Python.Get(r, "strengths", JArr([])), 3)
    case Raised => Raised
    case Ok(strengths) =>
      Ok(EntryOf(Python.Get(r, "candidate_name", JStr("Unknown")),
                 Python.Get(r, "match_score", JNum(0)),
                 rank,
                 Python.Get(r, "candidate_email", JStr("")),
                 Python.Get(r, "candidate_phone", JStr("")),
                 strengths,
                 Python.Get(r, "overall_assessment", JStr("Candidate meets requirements"))))
  }

  /** Each entry paired with its 1-based rank. */
  function Numbered(s: seq<Dict>): (r: seq<(Dict, nat)>)
    ensures |r| == |s|
    ensures forall i :: 0 <= i < |s| ==> r[i] == (s[i], i + 1)
  {
    seq(|s|, i requires 0 <= i < |s| => (s[i], i + 1))
  }

  function FallbackEntryOf(p: (Dict, nat)): Result<Dict>
  {
    FallbackEntry(p.0, p.1)
  }

  /** The fallback's top ten: the qualifying screening results, best first. */
  function TopTen(qualifying: seq<Dict>): (top: seq<Dict>)
    ensures |top| == Python.Min(10, |qualifying|)
  {
    StableSort.SortDescOrdered(qualifying, Key);
    SortByScore(qualifying)[..Python.Min(10, |qualifying|)]
  }

  /** The `except` block of `evaluate_and_rank`. It may itself raise, and then
      the exception leaves `evaluate_and_rank`. */
  function FallbackPath(screenings: seq<Json>, minScore: int): Result<Evaluation>
  {
    match AtLeast(screenings, minScore)
    case Raised => Raised
    case Ok(qualifying) =>
      match MapAll(Numbered(TopTen(qualifying)), FallbackEntryOf)
      case Raised => Raised
      case Ok(entries) => Ok(Fallback(entries, |screenings|, |entries|))
  }

  /** `evaluate_and_rank(screening_results, job_description, min_score)`. */
  function Evaluate(screenings: seq<Json>, response: Result<Json>, minScore: int): Result<Evaluation>
  {
    match MainPath(screenings, response, minScore)
    case Ok(e) => Ok(e)
    case Raised => FallbackPath(screenings, minScore)
  }

  /** When no screening has a positive score the result is a success with an
      empty shortlist that counts every screening as reviewed. */
  lemma EvaluateNoValid(screenings: seq<Json>, response: Result<Json>, minScore: int)
    requires ValidResults(screenings) == Ok([])
    ensures Evaluate(screenings, response, minScore) == Ok(NoValid(|screenings|))
  {
  }

  /** Sorting a shortlist whose entries all reach `minScore` and writing the
      ranks: the result is ordered by score highest first, ranked 1..n, still
      reaches `minScore` throughout, and before the ranks are written it holds
      the same entries as the input, with equal scores in input order. */
  lemma SortedAndRanked(short: seq<Dict>, minScore: int)
    requires forall d :: d in short ==> Key(d) >= minScore
    ensures |WithRanks(SortByScore(short))| == |short|
    ensures forall i :: 0 <= i < |short| ==>
      && WithRanks(SortByScore(short))[i] == Put(SortByScore(short)[i], "rank", JNum(i + 1))
      && Lookup(WithRanks(SortByScore(short))[i], "rank") == Some(JNum(i + 1))
      && Key(WithRanks(SortByScore(short))[i]) >= minScore
    ensures ScoresNonIncreasing(WithRanks(SortByScore(short)))
    ensures multiset(SortByScore(short)) == multiset(short)
    ensures forall k :: StableSort.WithKey(SortByScore(short), Key, k) == StableSort.WithKey(short, Key, k)
  {
    var sorted := SortByScore(short);
    StableSort.SortDescOrdered(short, Key);
    forall d | d in sorted ensures Key(d) >= minScore {
      assert d in multiset(short);
    }
    RankedInOrder(sorted, minScore);
    forall k ensures StableSort.WithKey(sorted, Key, k) == StableSort.WithKey(short, Key, k) {
      StableSort.SortDescStable(short, Key, k);
    }
  }

  /** Writing the ranks into an ordered list keeps it ordered and leaves
      every score as it was. */
  lemma RankedInOrder(sorted: seq<Dict>, minScore: int)
    requires ScoresNonIncreasing(sorted)
    requires forall d :: d in sorted ==> Key(d) >= minScore
    ensures |WithRanks(sorted)| == |sorted|
    ensures forall i :: 0 <= i < |sorted| ==>
      && WithRanks(sorted)[i] == Put(sorted[i], "rank", JNum(i + 1))
      && Lookup(WithRanks(sorted)[i], "rank") == Some(JNum(i + 1))
      && Key(WithRanks(sorted)[i]) >= minScore
    ensures ScoresNonIncreasing(WithRanks(sorted))
  {
    var sl := WithRanks(sorted);
    forall i | 0 <= i < |sl|
      ensures sl[i] == Put(sorted[i], "rank", JNum(i + 1))
      ensures Lookup(sl[i], "rank") == Some(JNum(i + 1)) && Key(sl[i]) == Key(sorted[i])
      ensures Key(sl[i]) >= minScore
    {
      RanksConsecutive(sorted, i, "rank");
      assert sorted[i] in sorted;
    }
    assert ScoresNonIncreasing(sl) by {
      forall i, j | 0 <= i < j < |sl| ensures Key(sl[i]) >= Key(sl[j]) {
      }
    }
  }

  /** The main path's shortlist: the entries of the reply that reach
      `min_score`, each with the contact details of its screening, then
      sorted and ranked as `SortedAndRanked` states; the reply's `summary`
      and the two counts go alongside. */
  lemma MainShortlist(screenings: seq<Json>, evaluation: Dict, minScore: int,
                      valid: seq<Dict>, cands: seq<Json>, short: seq<Dict>)
    requires ValidResults(screenings) == Ok(valid) && valid != []
    requires MapAll(valid, ScreeningSummary).Ok?
    requires Python.Iterate(Python.Get(evaluation, "shortlisted_candidates", JArr([]))) == Ok(cands)
    requires ShortlistOf(cands, valid, minScore) == Ok(short)
    ensures var sl := WithRanks(SortByScore(short));
      Evaluate(screenings, Ok(JObj(evaluation)), minScore)
        == Ok(Ranked(sl, Python.Get(evaluation, "summary", JObj([])), |screenings|, |sl|))
    ensures forall d :: d in short ==> Key(d) >= minScore
    ensures forall c :: JObj(c) in cands && Key(c) >= minScore ==> WithContact(c, valid) in short
    ensures var idx := PositionsFrom(cands, minScore, 0);
      && |short| == |idx|
      && forall k :: 0 <= k < |idx| ==> short[k] == WithContact(cands[idx[k]].fields, valid)
  {
    ShortlistInOrder(cands, valid, minScore);
    var sl := WithRanks(SortByScore(short));
    assert MainPath(screenings, Ok(JObj(evaluation)), minScore)
        == Ok(Ranked(sl, Python.Get(evaluation, "summary", JObj([])), |screenings|, |sl|));
    ValidNotEmpty(screenings, valid);
    ShortlistMembers(cands, valid, minScore);
  }

  /** A valid screening result has a score, so it is never the empty dict. */
  lemma ValidNotEmpty(screenings: seq<Json>, valid: seq<Dict>)
    requires ValidResults(screenings) == Ok(valid)
    ensures forall j :: 0 <= j < |valid| ==> valid[j] != []
  {
    forall j | 0 <= j < |valid| ensures valid[j] != [] {
      assert valid[j] in valid;
    }
  }

  /** Whatever the reply, a ranked shortlist reaches `min_score` throughout,
      is ordered by score highest first, is ranked 1..n, and its counts are
      the number of screenings and its own length. */
  lemma RankedShortlist(screenings: seq<Json>, response: Result<Json>, minScore: int)
    requires Evaluate(screenings, response, minScore).Ok?
    requires Evaluate(screenings, response, minScore).value.Ranked?
    ensures var e := Evaluate(screenings, response, minScore).value;
      && e.reviewed == |screenings| && e.totalShortlisted == |e.shortlisted|
      && ScoresNonIncreasing(e.shortlisted)
      && forall i :: 0 <= i < |e.shortlisted| ==>
           Key(e.shortlisted[i]) >= minScore && Lookup(e.shortlisted[i], "rank") == Some(JNum(i + 1))
  {
    var valid := ValidResults(screenings).value;
    var evaluation := response.value.fields;
    var cands := Python.Iterate(Python.Get(evaluation, "shortlisted_candidates", JArr([]))).value;
    var short := ShortlistOf(cands, valid, minScore).value;
    MainShortlist(screenings, evaluation, minScore, valid, cands, short);
    SortedAndRanked(short, minScore);
  }

  /** `key_strengths` is present and holds at most three strengths (or, when
      `strengths` was a string, at most three characters of it). */
  predicate StrengthsAtMostThree(e: Dict)
  {
    match Lookup(e, "key_strengths")
    case None => false
    case Some(v) => (v.JArr? && |v.items| <= 3) || (v.JStr? && |v.s| <= 3)
  }

  /** The fields of one fallback entry: its rank, the score of the screening
      it comes from, and at most three strengths. */
  lemma FallbackEntryFields(r: Dict, rank: nat, e: Dict)
    requires FallbackEntry(r, rank) == Ok(e)
    ensures Lookup(e, "rank") == Some(JNum(rank))
    ensures ScoreOf(e) == ScoreOf(r)
    ensures Key(e) == Key(r)
    ensures StrengthsAtMostThree(e)
  {
    var strengths := Python.Take(Python.Get(r, "strengths", JArr([])), 3).value;
    EntryOfLookups(Python.Get(r, "candidate_name", JStr("Unknown")),
                   Python.Get(r, "match_score", JNum(0)),
                   rank,
                   Python.Get(r, "candidate_email", JStr("")),
                   Python.Get(r, "candidate_phone", JStr("")),
                   strengths,
                   Python.Get(r, "overall_assessment", JStr("Candidate meets requirements")));
  }

  /** Building the entries of an ordered list of screenings that all reach
      `minScore` keeps the order, ranks them 1..k and keeps every score. */
  lemma FallbackEntriesOrdered(top: seq<Dict>, minScore: int)
    requires MapAll(Numbered(top), FallbackEntryOf).Ok?
    requires ScoresNonIncreasing(top)
    requires forall i :: 0 <= i < |top| ==> Key(top[i]) >= minScore
    ensures var entries := MapAll(Numbered(top), FallbackEntryOf).value;
      && |entries| == |top|
      && ScoresNonIncreasing(entries)
      && forall i :: 0 <= i < |entries| ==>
           && FallbackEntry(top[i], i + 1) == Ok(entries[i])
           && Lookup(entries[i], "rank") == Some(JNum(i + 1))
           && Key(entries[i]) >= minScore
           && StrengthsAtMostThree(entries[i])
  {
    var entries := MapAll(Numbered(top), FallbackEntryOf).value;
    forall i | 0 <= i < |entries|
      ensures FallbackEntry(top[i], i + 1) == Ok(entries[i])
      ensures Key(entries[i]) == Key(top[i])
      ensures Lookup(entries[i], "rank") == Some(JNum(i + 1))
      ensures StrengthsAtMostThree(entries[i])
    {
      FallbackEntryAt(top, entries, i);
    }
    assert ScoresNonIncreasing(entries) by {
      forall i, j | 0 <= i < j < |entries| ensures Key(entries[i]) >= Key(entries[j]) {
        assert Key(entries[i]) == Key(top[i]) && Key(entries[j]) == Key(top[j]);
      }
    }
  }

  /** The entry built for the `i`-th screening of the top ten. */
  lemma FallbackEntryAt(top: seq<Dict>, entries: seq<Dict>, i: nat)
    requires MapAll(Numbered(top), FallbackEntryOf) == Ok(entries) && i < |top|
    ensures i < |entries| && FallbackEntry(top[i], i + 1) == Ok(entries[i])
    ensures Key(entries[i]) == Key(top[i])
    ensures Lookup(entries[i], "rank") == Some(JNum(i + 1))
    ensures StrengthsAtMostThree(entries[i])
  {
    var p := Numbered(top)[i];
    assert p == (top[i], i + 1);
    assert FallbackEntryOf(p) == Ok(entries[i]);
    FallbackEntryFields(top[i], i + 1, entries[i]);
  }

  /** The fallback shortlist: the first ten of the screenings that reach
      `min_score` once sorted by score highest first; ordered, ranked 1..k,
      each with at most three strengths, and counted. */
  lemma FallbackShortlist(screenings: seq<Json>, minScore: int, qualifying: seq<Dict>)
    requires AtLeast(screenings, minScore) == Ok(qualifying)
    requires FallbackPath(screenings, minScore).Ok?
    ensures var e := FallbackPath(screenings, minScore).value;
      && e.Fallback? && e.reviewed == |screenings| && e.totalShortlisted == |e.shortlisted|
      && |e.shortlisted| == Python.Min(10, |qualifying|) <= 10
      && ScoresNonIncreasing(e.shortlisted)
      && forall i :: 0 <= i < |e.shortlisted| ==>
           && FallbackEntry(SortByScore(qualifying)[i], i + 1) == Ok(e.shortlisted[i])
           && Lookup(e.shortlisted[i], "rank") == Some(JNum(i + 1))
           && Key(e.shortlisted[i]) >= minScore
           && StrengthsAtMostThree(e.shortlisted[i])
  {
    var entries := MapAll(Numbered(TopTen(qualifying)), FallbackEntryOf).value;
    assert FallbackPath(screenings, minScore) == Ok(Fallback(entries, |screenings|, |entries|));
    TopTenEntries(qualifying, minScore, entries);
  }

  /** The entries built from the top ten of `qualifying`. */
  lemma TopTenEntries(qualifying: seq<Dict>, minScore: int, entries: seq<Dict>)
    requires forall d :: d in qualifying ==> Key(d) >= minScore
    requires MapAll(Numbered(TopTen(qualifying)), FallbackEntryOf) == Ok(entries)
    ensures |entries| == Python.Min(10, |qualifying|)
    ensures ScoresNonIncreasing(entries)
    ensures forall i :: 0 <= i < |entries| ==>
           && FallbackEntry(SortByScore(qualifying)[i], i + 1) == Ok(entries[i])
           && Lookup(entries[i], "rank") == Some(JNum(i + 1))
           && Key(entries[i]) >= minScore
           && StrengthsAtMostThree(entries[i])
  {
    TopTenOrdered(qualifying, minScore);
    FallbackEntriesOrdered(TopTen(qualifying), minScore);
  }

  /** The top ten is the start of the sorted list: ordered by score highest
      first, each reaching `minScore`. */
  lemma TopTenOrdered(qualifying: seq<Dict>, minScore: int)
    requires forall d :: d in qualifying ==> Key(d) >= minScore
    ensures var top := TopTen(qualifying);
      && ScoresNonIncreasing(top)
      && forall i :: 0 <= i < |top| ==> top[i] == SortByScore(qualifying)[i] && Key(top[i]) >= minScore
  {
    var sorted := SortByScore(qualifying);
    var top := TopTen(qualifying);
    StableSort.SortDescOrdered(qualifying, Key);
    assert top == sorted[..|top|];
    forall i | 0 <= i < |top| ensures top[i] == sorted[i] && Key(top[i]) >= minScore {
      assert sorted[i] in multiset(qualifying);
    }
    assert ScoresNonIncreasing(top) by {
      forall i, j | 0 <= i < j < |top| ensures Key(top[i]) >= Key(top[j]) {
        assert top[i] == sorted[i] && top[j] == sorted[j];
      }
    }
  }

  /** The `except` block, step by step: filter, sort, and build at most ten
      entries in a loop. */
  method FallbackRanking(screenings: seq<Json>, minScore: int) returns (r: Result<Evaluation>)
    ensures r == FallbackPath(screenings, minScore)
  {
    var qualifying := AtLeast(screenings, minScore);
    if qualifying.Raised? {
      return Raised;
    }
    var top := TopTen(qualifying.value);
    var shortlisted: seq<Dict> := [];
    var idx := 0;
    assert Numbered(top)[idx..] == Numbered(top);
    PrependNothing(MapAll(Numbered(top), FallbackEntryOf));
    while idx < |top|
      invariant 0 <= idx <= |top|
      invariant MapAll(Numbered(top), FallbackEntryOf)
             == Prepend(shortlisted, MapAll(Numbered(top)[idx..], FallbackEntryOf))
    {
      MapAllStep(Numbered(top), idx, FallbackEntryOf);
      var entry := FallbackEntry(top[idx], idx + 1);
      if entry.Raised? {
        return Raised;
      }
      PrependPrepend(shortlisted, [entry.value], MapAll(Numbered(top)[idx + 1..], FallbackEntryOf));
      shortlisted := shortlisted + [entry.value];
      idx := idx + 1;
    }
    assert Numbered(top)[idx..] == [];
    PrependAll(shortlisted);
    return Ok(Fallback(shortlisted, |screenings|, |shortlisted|));
  }

  /** The `try` block, step by step. */
  method RankMain(screenings: seq<Json>, response: Result<Json>, minScore: int) returns (r: Result<Evaluation>)
    ensures r == MainPath(screenings, response, minScore)
  {
    var valid := ValidResults(screenings);
    if valid.Raised? {
      return Raised;
    }
    if valid.value == [] {
      return Ok(NoValid(|screenings|));
    }
    var summaries := FormatScreeningResults(valid.value);
    if summaries.Raised? || response.Raised? || !response.value.JObj? {
      return Raised;
    }
    var evaluation := response.value.fields;
    var cands := Python.Iterate(Python.Get(evaluation, "shortlisted_candidates", JArr([])));
    if cands.Raised? {
      return Raised;
    }
    var shortlisted := CollectShortlist(cands.value, valid.value, minScore);
    if shortlisted.Raised? {
      return Raised;
    }
    var sorted := SortByScore(shortlisted.value);
    var ranked := AssignRanks(sorted);
    return Ok(Ranked(ranked, Python.Get(evaluation, "summary", JObj([])), |screenings|, |ranked|));
  }

  /** `evaluate_and_rank`: the main path, or the fallback when it raises. */
  method EvaluateAndRank(screenings: seq<Json>, response: Result<Json>, minScore: int) returns (r: Result<Evaluation>)
    ensures r == Evaluate(screenings, response, minScore)
  {
    r := RankMain(screenings, response, minScore);
    if r.Raised? {
      r := FallbackRanking(screenings, minScore);
    }
  }
}

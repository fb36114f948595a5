/** The resume screener agent: one screening per candidate, made of the reply
    to a screening request plus the candidate's contact details, or a failure
    record; and the job requirements as prompt text.

    The screening request itself (prompt, network call, reply parsing) is an
    input: `response` is the parsed reply, or `Raised` when the call or the
    parse failed. */
module Screener {
  import opened Json
  import Python
  import CandidateInfo
  import Scores
  import Evaluator
  import Requirements

  // Job requirements as text (`_format_job_requirements`).

  /** The requirements in the screening prompt, in this order. */
  const RequirementParts: seq<Requirements.Part> := [
    Requirements.Part("role_type", "Role", Requirements.Plain),
    Requirements.Part("required_skills", "Required Skills", Requirements.Listed),
    Requirements.Part("preferred_skills", "Preferred Skills", Requirements.Listed),
    Requirements.Part("experience_required", "Experience Required", Requirements.Plain),
    Requirements.Part("education_required", "Education Required", Requirements.Listed)
  ]

  function RequirementsText(req: Json): Result<string>
  {
    Requirements.Text(req, RequirementParts, "\n")
  }

  /** `_format_job_requirements(job_requirements)`. */
  method FormatJobRequirements(req: Json) returns (r: Result<string>)
    ensures r == RequirementsText(req)
  {
    r := Requirements.FormatParts(req, RequirementParts, "\n");
  }

  /** A requirements dict gives one line per key present among role_type,
      required_skills, preferred_skills, experience_required and
      education_required, in that order; an empty dict gives "". */
  lemma RequirementLines(f: Dict)
    requires Requirements.PartLines(JObj(f), RequirementParts).Ok?
    ensures var lines := Requirements.PartLines(JObj(f), RequirementParts).value;
            && RequirementsText(JObj(f)) == Ok(Join(lines, "\n"))
            && |lines| == |Requirements.Present(f, RequirementParts)|
            && forall i :: 0 <= i < |lines| ==>
                 var p := Requirements.Present(f, RequirementParts)[i];
                 Lookup(f, p.key).Some? && Requirements.PartText(p, Lookup(f, p.key).value) == Ok(lines[i])
    ensures RequirementsText(JObj([])) == Ok("")
  {
    Requirements.LinesOfDict(f, RequirementParts);
    Requirements.EmptyText(RequirementParts, "\n");
  }

  // Screening one candidate (`screen_candidate`).

  /** What `screen_candidate` returns: the enriched reply, or a failure record
      holding the candidate's first name. */
  datatype Screening =
    | Screened(result: Dict)
    | ScreenFailed(name: Json)

  /** The failure record of a candidate:
      `candidate.get('personalInfo', {}).get('firstName', 'Unknown')`, which
      raises again when `personalInfo` is not a dict. */
  function Failure(candidate: Dict): (r: Result<Screening>)
    ensures r.Ok? ==> r.value.ScreenFailed?
  {
    match Python.GetOf(Python.Get(candidate, "personalInfo", JObj([])), "firstName", JStr("Unknown"))
    case Raised => Raised
    case Ok(name) => Ok(ScreenFailed(name))
  }

  /** The reply with the candidate's details written into it. */
  function Enriched(reply: Dict, info: CandidateInfo.Info, personal: Dict): Dict
  {
    var d1 := Put(reply, "candidate_name", JStr(info.name));
    var d2 := Put(d1, "candidate_email", Python.Get(personal, "email", JStr("")));
    var d3 := Put(d2, "candidate_phone", Python.Get(personal, "phone", JStr("")));
    var d4 := Put(d3, "target_role", info.targetRole);
    Put(d4, "years_experience", JStr(info.yearsExperience))
  }

  /** The five keys written are set, every other key keeps its value. */
  lemma EnrichedLookup(reply: Dict, info: CandidateInfo.Info, personal: Dict, k: string)
    ensures Lookup(Enriched(reply, info, personal), k)
         == if k == "years_experience" then Some(JStr(info.yearsExperience))
            else if k == "target_role" then Some(info.targetRole)
            else if k == "candidate_phone" then Some(Python.Get(personal, "phone", JStr("")))
            else if k == "candidate_email" then Some(Python.Get(personal, "email", JStr("")))
            else if k == "candidate_name" then Some(JStr(info.name))
            else Lookup(reply, k)
  {
    var d1 := Put(reply, "candidate_name", JStr(info.name));
    var d2 := Put(d1, "candidate_email", Python.Get(personal, "email", JStr("")));
    var d3 := Put(d2, "candidate_phone", Python.Get(personal, "phone", JStr("")));
    var d4 := Put(d3, "target_role", info.targetRole);
    PutLookup(reply, "candidate_name", JStr(info.name), k);
    PutLookup(d1, "candidate_email", Python.Get(personal, "email", JStr("")), k);
    PutLookup(d2, "candidate_phone", Python.Get(personal, "phone", JStr("")), k);
    PutLookup(d3, "target_role", info.targetRole, k);
    PutLookup(d4, "years_experience", JStr(info.yearsExperience), k);
  }

  /** `screen_candidate(candidate, job_requirements)` given the parsed reply.
      Any exception in the `try` block leads to the failure record; one
      raised while building that record (`candidate` or its `personalInfo`
      not a dict) propagates. A reply that is not a dict fails when its first
      key is written. */
  function ScreenCandidate(candidate: Json, req: Json, response: Result<Json>): Result<Screening>
  {
    match candidate
    case JObj(c) =>
      (match CandidateInfo.InfoOf(c)
       case Raised => Failure(c)
       case Ok(info) =>
         if RequirementsText(req).Raised? then Failure(c)
         else Reply(c, info, response))
    case _ => Raised
  }

  /** The rest of the `try` block once the details and the requirements are
      formatted: the reply must be a dict, and `personalInfo` is read again
      for the email and the phone. */
  function Reply(c: Dict, info: CandidateInfo.Info, response: Result<Json>): Result<Screening>
  {
    match response
    case Ok(JObj(reply)) =>
      (match Python.Get(c, "personalInfo", JObj([]))
       case JObj(personal) => Ok(Screened(Enriched(reply, info, personal)))
       case _ => Failure(c))
    case _ => Failure(c)
  }

  /** `screen_candidate`: adds the candidate's details to the reply, one key
      at a time. */
  method Screen(candidate: Json, req: Json, response: Result<Json>) returns (r: Result<Screening>)
    ensures r == ScreenCandidate(candidate, req, response)
  {
    if !candidate.JObj? {
      return Raised;
    }
    var c := candidate.fields;
    var info := CandidateInfo.FormatCandidateInfo(c);
    if info.Raised? {
      return Failure(c);
    }
    var text := FormatJobRequirements(req);
    if text.Raised? || !response.Ok? || !response.value.JObj? {
      return Failure(c);
    }
    var personal := Python.Get(c, "personalInfo", JObj([]));
    if !personal.JObj? {
      return Failure(c);
    }
    ScreenedWhenFormatted(c, req, response.value.fields);
    var result := response.value.fields;
    result := Put(result, "candidate_name", JStr(info.value.name));
    result := Put(result, "candidate_email", Python.Get(personal.fields, "email", JStr("")));
    result := Put(result, "candidate_phone", Python.Get(personal.fields, "phone", JStr("")));
    result := Put(result, "target_role", info.value.targetRole);
    result := Put(result, "years_experience", JStr(info.value.yearsExperience));
    return Ok(Screened(result));
  }

  /** A successful screening is the reply enriched with the candidate's
      details. */
  lemma ScreenedIsEnriched(candidate: Json, req: Json, response: Result<Json>)
    requires ScreenCandidate(candidate, req, response).Ok?
    requires ScreenCandidate(candidate, req, response).value.Screened?
    ensures candidate.JObj? && CandidateInfo.InfoOf(candidate.fields).Ok?
    ensures response.Ok? && response.value.JObj?
    ensures Python.Get(candidate.fields, "personalInfo", JObj([])).JObj?
    ensures ScreenCandidate(candidate, req, response).value.result
         == Enriched(response.value.fields, CandidateInfo.InfoOf(candidate.fields).value,
                     Python.Get(candidate.fields, "personalInfo", JObj([])).fields)
  {
  }

  /** A successful screening is the reply with `candidate_name`,
      `candidate_email`, `candidate_phone`, `target_role` and
      `years_experience` set (email and phone '' when the candidate has
      none); every other key of the reply is kept as it was. */
  lemma ScreenedFields(candidate: Json, req: Json, response: Result<Json>, k: string)
    requires ScreenCandidate(candidate, req, response).Ok?
    requires ScreenCandidate(candidate, req, response).value.Screened?
    ensures candidate.JObj? && CandidateInfo.InfoOf(candidate.fields).Ok?
    ensures response.Ok? && response.value.JObj?
    ensures var d := ScreenCandidate(candidate, req, response).value.result;
            var info := CandidateInfo.InfoOf(candidate.fields).value;
            var personal := Python.Get(candidate.fields, "personalInfo", JObj([]));
            && personal.JObj?
            && Lookup(d, "candidate_name") == Some(JStr(info.name))
            && Lookup(d, "candidate_email") == Some(Python.Get(personal.fields, "email", JStr("")))
            && Lookup(d, "candidate_phone") == Some(Python.Get(personal.fields, "phone", JStr("")))
            && Lookup(d, "target_role") == Some(info.targetRole)
            && Lookup(d, "years_experience") == Some(JStr(info.yearsExperience))
            && ("email" !in Keys(personal.fields) ==> Lookup(d, "candidate_email") == Some(JStr("")))
            && ("phone" !in Keys(personal.fields) ==> Lookup(d, "candidate_phone") == Some(JStr("")))
            && (k !in ["candidate_name", "candidate_email", "candidate_phone", "target_role", "years_experience"]
                ==> Lookup(d, k) == Lookup(response.value.fields, k))
  {
    ScreenedIsEnriched(candidate, req, response);
    var reply := response.value.fields;
    var info := CandidateInfo.InfoOf(candidate.fields).value;
    var personal := Python.Get(candidate.fields, "personalInfo", JObj([])).fields;
    EnrichedLookup(reply, info, personal, "candidate_name");
    EnrichedLookup(reply, info, personal, "candidate_email");
    EnrichedLookup(reply, info, personal, "candidate_phone");
    EnrichedLookup(reply, info, personal, "target_role");
    EnrichedLookup(reply, info, personal, "years_experience");
    EnrichedLookup(reply, info, personal, k);
  }

  /** A failed screening records `personalInfo.firstName`, or 'Unknown' when
      there is none. */
  lemma FailedName(candidate: Json, req: Json, response: Result<Json>)
    requires ScreenCandidate(candidate, req, response).Ok?
    requires ScreenCandidate(candidate, req, response).value.ScreenFailed?
    ensures candidate.JObj?
    ensures var personal := Python.Get(candidate.fields, "personalInfo", JObj([]));
            var name := ScreenCandidate(candidate, req, response).value.name;
            && personal.JObj?
            && name == Python.Get(personal.fields, "firstName", JStr("Unknown"))
            && ("firstName" !in Keys(personal.fields) ==> name == JStr("Unknown"))
  {
  }

  /** Screening raises (instead of returning a record) exactly when the
      candidate, or its `personalInfo`, is not a dict. */
  lemma ScreenRaises(candidate: Json, req: Json, response: Result<Json>)
    ensures ScreenCandidate(candidate, req, response).Raised?
        <==> !candidate.JObj? || !Python.Get(candidate.fields, "personalInfo", JObj([])).JObj?
  {
    if candidate.JObj? {
      var c := candidate.fields;
      var sc := ScreenCandidate(candidate, req, response);
      assert Failure(c).Raised? <==> !Python.Get(c, "personalInfo", JObj([])).JObj?;
      match CandidateInfo.InfoOf(c)
      case Raised =>
        assert sc == Failure(c);
      case Ok(info) =>
        CandidateInfo.InfoNeedsPersonalDict(c);
        if RequirementsText(req).Raised? {
          assert sc == Failure(c);
        } else {
          assert sc == Reply(c, info, response);
        }
    }
  }

  /** When the candidate's details and the requirements format, a dict reply
      is screened: the result is that reply enriched with the details. */
  lemma ScreenedWhenFormatted(candidate: Dict, req: Json, reply: Dict)
    requires CandidateInfo.InfoOf(candidate).Ok?
    requires Python.Get(candidate, "personalInfo", JObj([])).JObj?
    requires RequirementsText(req).Ok?
    ensures ScreenCandidate(JObj(candidate), req, Ok(JObj(reply)))
         == Ok(Screened(Enriched(reply, CandidateInfo.InfoOf(candidate).value,
                                 Python.Get(candidate, "personalInfo", JObj([])).fields)))
  {
    var info := CandidateInfo.InfoOf(candidate).value;
    assert ScreenCandidate(JObj(candidate), req, Ok(JObj(reply))) == Reply(candidate, info, Ok(JObj(reply)));
  }

  /** A candidate of the expected shape, requirements that format, and a dict
      reply always give a successful screening. */
  lemma ScreenedWhenWellShaped(candidate: Dict, req: Json, reply: Dict)
    requires CandidateInfo.WellShaped(candidate)
    requires RequirementsText(req).Ok?
    ensures ScreenCandidate(JObj(candidate), req, Ok(JObj(reply))).Ok?
    ensures ScreenCandidate(JObj(candidate), req, Ok(JObj(reply))).value.Screened?
  {
    CandidateInfo.WellShapedFormats(candidate);
    CandidateInfo.NameAndDefaults(candidate);
    ScreenedWhenFormatted(candidate, req, reply);
  }

  // The batch (`screen_candidates_batch`).

  /** The entry a failed screening leaves in the batch: score 0 and
      recommendation 'error'. The exception text under `error` is not
      modelled and is left empty. */
  function Placeholder(name: Json): Dict
  {
    [Field("candidate_name", name), Field("match_score", JNum(0)),
     Field("error", JStr("")), Field("recommendation", JStr("error"))]
  }

  lemma PlaceholderFields(name: Json)
    ensures Lookup(Placeholder(name), "candidate_name") == Some(name)
    ensures Lookup(Placeholder(name), "match_score") == Some(JNum(0))
    ensures Scores.ScoreOf(Placeholder(name)) == Ok(0)
    ensures Lookup(Placeholder(name), "recommendation") == Some(JStr("error"))
  {
    var d := Placeholder(name);
    assert DistinctKeys(d);
    LookupDistinct(d, 0);
    LookupDistinct(d, 1);
    LookupDistinct(d, 3);
  }

  function BatchEntry(s: Screening): Json
  {
    match s
    case Screened(d) => JObj(d)
    case ScreenFailed(name) => JObj(Placeholder(name))
  }

  /** A candidate, the requirements and the reply to the candidate's
      screening request. */
  datatype Job = Job(candidate: Json, req: Json, response: Result<Json>)

  function ScreenEntry(job: Job): Result<Json>
  {
    match ScreenCandidate(job.candidate, job.req, job.response)
    case Raised => Raised
    case Ok(s) => Ok(BatchEntry(s))
  }

  function Jobs(candidates: seq<Json>, req: Json, responses: seq<Result<Json>>): (r: seq<Job>)
    requires |responses| == |candidates|
    ensures |r| == |candidates|
    ensures forall i :: 0 <= i < |r| ==> r[i] == Job(candidates[i], req, responses[i])
  {
    seq(|candidates|, i requires 0 <= i < |candidates| => Job(candidates[i], req, responses[i]))
  }

  /** `screen_candidates_batch(candidates, job_requirements)`, where
      `responses[i]` is the reply to the screening request of
      `candidates[i]`. */
  function Batch(candidates: seq<Json>, req: Json, responses: seq<Result<Json>>): Result<seq<Json>>
    requires |responses| == |candidates|
  {
    MapAll(Jobs(candidates, req, responses), ScreenEntry)
  }

  method ScreenCandidatesBatch(candidates: seq<Json>, req: Json, responses: seq<Result<Json>>)
    returns (r: Result<seq<Json>>)
    requires |responses| == |candidates|
    ensures r == Batch(candidates, req, responses)
  {
    var jobs := Jobs(candidates, req, responses);
    var results: seq<Json> := [];
    var i := 0;
    assert jobs[i..] == jobs;
    PrependNothing(MapAll(jobs, ScreenEntry));
    while i < |candidates|
      invariant 0 <= i <= |candidates|
      invariant MapAll(jobs, ScreenEntry) == Prepend(results, MapAll(jobs[i..], ScreenEntry))
    {
      MapAllStep(jobs, i, ScreenEntry);
      var result := Screen(candidates[i], req, responses[i]);
      if result.Raised? {
        return Raised;
      }
      var entry := BatchEntry(result.value);
      PrependPrepend(results, [entry], MapAll(jobs[i + 1..], ScreenEntry));
      results := results + [entry];
      i := i + 1;
    }
    assert jobs[i..] == [];
    PrependAll(results);
    return Ok(results);
  }

  /** The batch has exactly one entry per candidate, in input order: the
      screening result, or the placeholder of a failed screening. */
  lemma BatchOnePerCandidate(candidates: seq<Json>, req: Json, responses: seq<Result<Json>>)
    requires |responses| == |candidates|
    requires Batch(candidates, req, responses).Ok?
    ensures var r := Batch(candidates, req, responses).value;
            && |r| == |candidates|
            && forall i :: 0 <= i < |r| ==>
                 ScreenCandidate(candidates[i], req, responses[i]).Ok?
                 && r[i] == BatchEntry(ScreenCandidate(candidates[i], req, responses[i]).value)
  {
    var jobs := Jobs(candidates, req, responses);
    var r := Batch(candidates, req, responses).value;
    forall i | 0 <= i < |r|
      ensures ScreenCandidate(candidates[i], req, responses[i]).Ok?
      ensures r[i] == BatchEntry(ScreenCandidate(candidates[i], req, responses[i]).value)
    {
      assert ScreenEntry(jobs[i]) == Ok(r[i]);
    }
  }

  /** A failed screening never reaches the ranking: its placeholder scores 0,
      so the evaluator's filter for positive scores leaves it out. */
  lemma PlaceholderNotRanked(results: seq<Json>, name: Json)
    requires Evaluator.ValidResults(results).Ok?
    ensures Placeholder(name) !in Evaluator.ValidResults(results).value
  {
    PlaceholderFields(name);
    if Placeholder(name) in Evaluator.ValidResults(results).value {
      Evaluator.ValidResultsPositive(results, Placeholder(name));
    }
  }
}

/** The intake agent: the job requirements extracted from a job description,
    with `required_skills` and `role_type` always filled in, and a one-line
    summary of them.

    The extraction request itself (prompt, network call, reply parsing) is an
    input: `response` is the parsed reply, or `Raised` when the call or the
    parse failed. */
module Intake {
  import opened Json
  import Python
  import Requirements

  /** The fields every set of requirements must have, checked in this order. */
  const RequiredFields: seq<string> := ["required_skills", "role_type"]

  const NotSpecified := "Not specified"

  predicate EndsWith(s: string, suffix: string)
  {
    |suffix| <= |s| && s[|s| - |suffix|..] == suffix
  }

  /** `[] if field.endswith('skills') else "Not specified"`. */
  function DefaultFor(field: string): Json
  {
    if EndsWith(field, "skills") then JArr([]) else JStr(NotSpecified)
  }

  /** `if field not in reqs: reqs[field] = default`. The test raises for a
      value that is not a container; the assignment succeeds only on a
      dict. */
  function Fill(reqs: Json, field: string): Result<Json>
  {
    match Python.Contains(reqs, field)
    case Raised => Raised
    case Ok(present) =>
      if present then Ok(reqs)
      else match reqs
        case JObj(f) => Ok(JObj(Put(f, field, DefaultFor(field))))
        case _ => Raised
  }

  /** The backfill loop over `fields`. */
  function Backfill(reqs: Json, fields: seq<string>): Result<Json>
    decreases |fields|
  {
    if fields == [] then Ok(reqs)
    else match Fill(reqs, fields[0])
      case Raised => Raised
      case Ok(filled) => Backfill(filled, fields[1..])
  }

  /** What `process_job_description` returns. The exception text of a
      failure is not modelled. */
  datatype Intake =
    | Extracted(requirements: Json, rawDescription: string)
    | IntakeFailed

  /** `process_job_description(job_description)` given the parsed reply. */
  function IntakeOf(description: string, response: Result<Json>): Intake
  {
    match response
    case Raised => IntakeFailed
    case Ok(reply) =>
      match Backfill(reply, RequiredFields)
      case Raised => IntakeFailed
      case Ok(reqs) => Extracted(reqs, description)
  }

  /** The returned dict. */
  function Render(intake: Intake): Dict
  {
    match intake
    case Extracted(reqs, description) =>
      [Field("success", JBool(true)), Field("job_requirements", reqs),
       Field("raw_description", JStr(description))]
    case IntakeFailed =>
      [Field("success", JBool(false)), Field("error", JStr("")), Field("job_requirements", JNull)]
  }

  /** `process_job_description`: fills in the missing required fields of the
      reply in place, one after the other. */
  method ProcessJobDescription(description: string, response: Result<Json>) returns (r: Intake)
    ensures r == IntakeOf(description, response)
  {
    if response.Raised? {
      return IntakeFailed;
    }
    var reqs := response.value;
    assert RequiredFields[0..] == RequiredFields;
    for i := 0 to |RequiredFields|
      invariant Backfill(response.value, RequiredFields) == Backfill(reqs, RequiredFields[i..])
    {
      assert RequiredFields[i..][1..] == RequiredFields[i + 1..];
      var field := RequiredFields[i];
      var present := Python.Contains(reqs, field);
      if present.Raised? {
        return IntakeFailed;
      }
      if !present.value {
        if !reqs.JObj? {
          return IntakeFailed;
        }
        reqs := JObj(Put(reqs.fields, field, DefaultFor(field)));
      }
    }
    assert RequiredFields[|RequiredFields|..] == [];
    return Extracted(reqs, description);
  }

  /** Filling one field of a dict: it is present afterwards, with its old
      value if it had one and the default otherwise; nothing else changes. */
  lemma FillDict(f: Dict, field: string, k: string)
    ensures Fill(JObj(f), field).Ok? && Fill(JObj(f), field).value.JObj?
    ensures var g := Fill(JObj(f), field).value.fields;
            && Lookup(g, field) == (if field in Keys(f) then Lookup(f, field) else Some(DefaultFor(field)))
            && (k != field ==> Lookup(g, k) == Lookup(f, k))
            && Keys(g) == Keys(f) + (if field in Keys(f) then [] else [field])
  {
    PutKeys(f, field, DefaultFor(field));
    PutLookup(f, field, DefaultFor(field), field);
    PutLookup(f, field, DefaultFor(field), k);
  }

  lemma BackfillTwo(reqs: Json)
    ensures Backfill(reqs, RequiredFields)
         == match Fill(reqs, "required_skills")
            case Raised => Raised
            case Ok(r) => Fill(r, "role_type")
  {
    assert RequiredFields[1..] == ["role_type"];
    assert RequiredFields[1..][1..] == [];
  }

  /** The backfill of a dict reply: `required_skills` and `role_type` are
      present afterwards; one that was missing is `[]` or "Not specified",
      one that was present keeps its value; every other key keeps its value;
      the keys keep their order, a missing field being added at the end. */
  lemma BackfillDict(f: Dict, k: string)
    ensures Backfill(JObj(f), RequiredFields).Ok?
    ensures Backfill(JObj(f), RequiredFields).value.JObj?
    ensures var g := Backfill(JObj(f), RequiredFields).value.fields;
            && "required_skills" in Keys(g) && "role_type" in Keys(g)
            && Lookup(g, "required_skills")
               == (if "required_skills" in Keys(f) then Lookup(f, "required_skills") else Some(JArr([])))
            && Lookup(g, "role_type")
               == (if "role_type" in Keys(f) then Lookup(f, "role_type") else Some(JStr(NotSpecified)))
            && (k != "required_skills" && k != "role_type" ==> Lookup(g, k) == Lookup(f, k))
            && Keys(g) == Keys(f) + (if "required_skills" in Keys(f) then [] else ["required_skills"])
                                  + (if "role_type" in Keys(f) then [] else ["role_type"])
  {
    assert EndsWith("required_skills", "skills");
    assert !EndsWith("role_type", "skills");
    BackfillTwo(JObj(f));
    FillDict(f, "required_skills", "role_type");
    FillDict(f, "required_skills", k);
    var f1 := Fill(JObj(f), "required_skills").value.fields;
    FillDict(f1, "role_type", "required_skills");
    FillDict(f1, "role_type", k);
    var g := Fill(JObj(f1), "role_type").value.fields;
    assert "role_type" in Keys(f1) <==> "role_type" in Keys(f);
  }

  /** A successful intake of a dict reply holds both required fields and the
      description as given. */
  lemma ExtractedDict(description: string, f: Dict)
    ensures IntakeOf(description, Ok(JObj(f))).Extracted?
    ensures IntakeOf(description, Ok(JObj(f))).rawDescription == description
    ensures var reqs := IntakeOf(description, Ok(JObj(f))).requirements;
            reqs.JObj? && "required_skills" in Keys(reqs.fields) && "role_type" in Keys(reqs.fields)
  {
    BackfillDict(f, "");
  }

  /** A reply that is not a dict is never written to: a list or a string that
      already contains both field names passes through unchanged as the
      requirements; anything else fails. */
  lemma NonDictReply(description: string, reply: Json)
    requires !reply.JObj?
    ensures IntakeOf(description, Ok(reply))
         == if Python.Contains(reply, "required_skills") == Ok(true)
               && Python.Contains(reply, "role_type") == Ok(true)
            then Extracted(reply, description)
            else IntakeFailed
  {
    BackfillTwo(reply);
  }

  /** A failed request or parse gives `success` False and
      `job_requirements` None; a successful intake gives `success` True. */
  lemma RenderedOutcome(description: string, response: Result<Json>)
    ensures response.Raised? ==> IntakeOf(description, response) == IntakeFailed
    ensures var d := Render(IntakeOf(description, response));
            && Lookup(d, "success") == Some(JBool(IntakeOf(description, response).Extracted?))
            && (IntakeOf(description, response).IntakeFailed? ==> Lookup(d, "job_requirements") == Some(JNull))
            && (IntakeOf(description, response).Extracted? ==>
                  Lookup(d, "job_requirements") == Some(IntakeOf(description, response).requirements))
  {
    var d := Render(IntakeOf(description, response));
    assert DistinctKeys(d);
    LookupDistinct(d, 0);
    if IntakeOf(description, response).Extracted? {
      LookupDistinct(d, 1);
    } else {
      LookupDistinct(d, 2);
    }
  }

  // The summary (`get_requirement_summary`).

  /** The parts of the summary, in this order; at most five required skills
      are shown. */
  const SummaryParts: seq<Requirements.Part> := [
    Requirements.Part("role_type", "Role", Requirements.Plain),
    Requirements.Part("required_skills", "Required Skills", Requirements.FirstListed(5)),
    Requirements.Part("experience_required", "Experience", Requirements.Plain)
  ]

  function Summary(reqs: Json): Result<string>
  {
    Requirements.Text(reqs, SummaryParts, " | ")
  }

  /** `get_requirement_summary(job_requirements)`. */
  method GetRequirementSummary(reqs: Json) returns (r: Result<string>)
    ensures r == Summary(reqs)
  {
    r := Requirements.FormatParts(reqs, SummaryParts, " | ");
  }

  /** For a requirements dict the summary has one part per key present among
      role_type, required_skills and experience_required, in that order,
      joined by " | "; an empty dict gives "". */
  lemma SummaryOfDict(f: Dict)
    requires Requirements.PartLines(JObj(f), SummaryParts).Ok?
    ensures var lines := Requirements.PartLines(JObj(f), SummaryParts).value;
            && Summary(JObj(f)) == Ok(Join(lines, " | "))
            && |lines| == |Requirements.Present(f, SummaryParts)|
            && forall i :: 0 <= i < |lines| ==>
                 var p := Requirements.Present(f, SummaryParts)[i];
                 Lookup(f, p.key).Some? && Requirements.PartText(p, Lookup(f, p.key).value) == Ok(lines[i])
    ensures Summary(JObj([])) == Ok("")
  {
    Requirements.LinesOfDict(f, SummaryParts);
    Requirements.EmptyText(SummaryParts, " | ");
  }

  /** The skills part shows the first five skills of the list at most. */
  lemma SummarySkills(items: seq<Json>)
    requires Requirements.PartText(SummaryParts[1], JArr(items)).Ok?
    ensures var first := items[..Python.Min(5, |items|)];
            && |first| <= 5
            && Python.AllStrings(first)
            && Requirements.PartText(SummaryParts[1], JArr(items))
               == Ok("Required Skills: " + Join(Python.Texts(first), ", "))
  {
    assert SummaryParts[1] == Requirements.Part("required_skills", "Required Skills", Requirements.FirstListed(5));
    Requirements.FirstListedText(5, items);
    assert "Required Skills" + ": " == "Required Skills: ";
  }
}

/** `validateStructure` of the migration script: the list of ways a candidate
    record falls short of the standard record, in a fixed order. */
module Validate {
  import opened Json
  import opened Js
  import Skills
  import Migrate

  /** A category index: `Skills.Categories[m]`. */
  type Category = m: nat | m < 6

  /** The issues `validateStructure` can report; `Message` gives the text it
      pushes for each. */
  datatype Issue =
    | MissingPersonalInfo
    | MissingEducation
    | MissingExperience
    | MissingSkills
    | NotAnArray(category: Category)
    | MissingTargetRole
    | MissingApplicationDate
    | InvalidYearsOfExperience

  function Message(i: Issue): string
  {
    match i
    case MissingPersonalInfo => "Missing personalInfo"
    case MissingEducation => "Missing or empty education array"
    case MissingExperience => "Missing or empty experience array"
    case MissingSkills => "Missing skills"
    case NotAnArray(m) => "skills." + Skills.Categories[m] + " must be an array"
    case MissingTargetRole => "Missing targetRole"
    case MissingApplicationDate => "Missing applicationDate"
    case InvalidYearsOfExperience => "Missing or invalid yearsOfExperience"
  }

  function Messages(issues: seq<Issue>): (r: seq<string>)
    ensures |r| == |issues|
    ensures forall i :: 0 <= i < |issues| ==> r[i] == Message(issues[i])
  {
    seq(|issues|, i requires 0 <= i < |issues| => Message(issues[i]))
  }

  const CheckCount := 13

  /** The issue check `k` reports, checks numbered in the order they run. */
  function CheckIssue(k: nat): (i: Issue)
    requires k < CheckCount
    ensures CheckOf(i) == k
  {
    if k == 0 then MissingPersonalInfo
    else if k == 1 then MissingEducation
    else if k == 2 then MissingExperience
    else if k == 3 then MissingSkills
    else if k < 10 then NotAnArray(k - 4)
    else if k == 10 then MissingTargetRole
    else if k == 11 then MissingApplicationDate
    else InvalidYearsOfExperience
  }

  /** The number of the check that reports `i`. */
  function CheckOf(i: Issue): nat
  {
    match i
    case MissingPersonalInfo => 0
    case MissingEducation => 1
    case MissingExperience => 2
    case MissingSkills => 3
    case NotAnArray(m) => 4 + m
    case MissingTargetRole => 10
    case MissingApplicationDate => 11
    case InvalidYearsOfExperience => 12
  }

  /** `x` is a non-empty array. */
  predicate NonEmptyArray(x: Value)
  {
    IsArray(x) && x.value.items != []
  }

  /** The properties of a record that the checks read. */
  datatype Reads = Reads(
    personalInfo: Value, education: Value, experience: Value, skills: Value,
    targetRole: Value, applicationDate: Value, yearsOfExperience: Value)

  function ReadsOf(data: Json): Reads
    requires !data.JNull?
  {
    Reads(Prop(data, "personalInfo"), Prop(data, "education"), Prop(data, "experience"),
          Prop(data, "skills"), Prop(data, "targetRole"), Prop(data, "applicationDate"),
          Prop(data, "yearsOfExperience"))
  }

  /** Check `k` fails: the skills category checks run only when `skills` is
      truthy. */
  predicate FailsOn(r: Reads, k: nat)
    requires k < CheckCount
  {
    if k == 0 then !Truthy(r.personalInfo)
    else if k == 1 then !NonEmptyArray(r.education)
    else if k == 2 then !NonEmptyArray(r.experience)
    else if k == 3 then !Truthy(r.skills)
    else if k < 10 then Truthy(r.skills) && !IsArray(Chain(r.skills, Skills.Categories[k - 4]))
    else if k == 10 then !Truthy(r.targetRole)
    else if k == 11 then !Truthy(r.applicationDate)
    else !IsNumber(r.yearsOfExperience)
  }

  predicate Fails(data: Json, k: nat)
    requires !data.JNull? && k < CheckCount
  {
    FailsOn(ReadsOf(data), k)
  }

  /** Whether each check fails, by check number. */
  function Outcomes(r: Reads): (failed: seq<bool>)
    ensures |failed| == CheckCount
    ensures forall k :: 0 <= k < CheckCount ==> failed[k] == FailsOn(r, k)
  {
    seq(CheckCount, k requires 0 <= k < CheckCount => FailsOn(r, k))
  }

  /** The issues of the failed checks among the first `n`, in order. */
  function Reported(failed: seq<bool>, n: nat): seq<Issue>
    requires n <= |failed| == CheckCount
  {
    if n == 0 then []
    else Reported(failed, n - 1) + (if failed[n - 1] then [CheckIssue(n - 1)] else [])
  }

  /** The issues reported for the properties `r`. */
  function IssuesOf(r: Reads): seq<Issue>
  {
    Reported(Outcomes(r), CheckCount)
  }

  function Issues(data: Json): seq<Issue>
    requires !data.JNull?
  {
    IssuesOf(ReadsOf(data))
  }

  datatype Validation = Validation(valid: bool, issues: seq<string>)

  /** `validateStructure(data)`: every failing check pushes its message onto
      the issues; reading a property of a `null` record throws. */
  method ValidateStructure(data: Json) returns (r: Result<Validation>)
    ensures r.Ok? <==> !data.JNull?
    ensures r.Ok? ==> r.value.issues == Messages(Issues(data))
    ensures r.Ok? ==> (r.value.valid <==> Issues(data) == [])
  {
    if data.JNull? {
      return Raised;
    }
    var issues := CheckProperties(Reads(
      Prop(data, "personalInfo"), Prop(data, "education"), Prop(data, "experience"),
      Prop(data, "skills"), Prop(data, "targetRole"), Prop(data, "applicationDate"),
      Prop(data, "yearsOfExperience")));
    return Ok(Validation(|issues| == 0, Messages(issues)));
  }

  /** The checks of `validateStructure` on the properties it reads, in order:
      each failing check pushes its issue. */
  method CheckProperties(read: Reads) returns (issues: seq<Issue>)
    ensures issues == IssuesOf(read)
  {
    ghost var failed := Outcomes(read);
    issues := [];
    if !Truthy(read.personalInfo) {
      issues := issues + [MissingPersonalInfo];
    }
    assert issues == Reported(failed, 1);
    if !IsArray(read.education) || |read.education.value.items| == 0 {
      issues := issues + [MissingEducation];
    }
    assert issues == Reported(failed, 2);
    if !IsArray(read.experience) || |read.experience.value.items| == 0 {
      issues := issues + [MissingExperience];
    }
    assert issues == Reported(failed, 3);
    if !Truthy(read.skills) {
      issues := issues + [MissingSkills];
    }
    assert issues == Reported(failed, 4);
    issues := CheckSkillsStructure(read, issues);
    assert issues == Reported(failed, 10);
    if !Truthy(read.targetRole) {
      issues := issues + [MissingTargetRole];
    }
    assert issues == Reported(failed, 11);
    if !Truthy(read.applicationDate) {
      issues := issues + [MissingApplicationDate];
    }
    assert issues == Reported(failed, 12);
    if !IsNumber(read.yearsOfExperience) {
      issues := issues + [InvalidYearsOfExperience];
    }
    assert issues == Reported(failed, 13);
  }

  /** The skills-structure block of `validateStructure`: when `skills` is
      truthy, each of the six categories that is not an array pushes its
      issue. */
  method CheckSkillsStructure(read: Reads, issues: seq<Issue>) returns (r: seq<Issue>)
    requires issues == Reported(Outcomes(read), 4)
    ensures r == Reported(Outcomes(read), 10)
  {
    ghost var failed := Outcomes(read);
    r := issues;
    if Truthy(read.skills) {
      if !IsArray(Chain(read.skills, "programming")) {
        r := r + [NotAnArray(Skills.Programming)];
      }
      assert r == Reported(failed, 5);
      if !IsArray(Chain(read.skills, "frameworks")) {
        r := r + [NotAnArray(Skills.Frameworks)];
      }
      assert r == Reported(failed, 6);
      if !IsArray(Chain(read.skills, "tools")) {
        r := r + [NotAnArray(Skills.Tools)];
      }
      assert r == Reported(failed, 7);
      if !IsArray(Chain(read.skills, "cloud")) {
        r := r + [NotAnArray(Skills.Cloud)];
      }
      assert r == Reported(failed, 8);
      if !IsArray(Chain(read.skills, "databases")) {
        r := r + [NotAnArray(Skills.Databases)];
      }
      assert r == Reported(failed, 9);
      if !IsArray(Chain(read.skills, "testing")) {
        r := r + [NotAnArray(Skills.Testing)];
      }
    } else {
      SkillsChecksSkipped(failed);
    }
  }

  /** Without `skills`, none of the six category checks reports. */
  lemma SkillsChecksSkipped(failed: seq<bool>)
    requires |failed| == CheckCount
    requires !failed[4] && !failed[5] && !failed[6] && !failed[7] && !failed[8] && !failed[9]
    ensures Reported(failed, 10) == Reported(failed, 4)
  {
    assert Reported(failed, 5) == Reported(failed, 4);
    assert Reported(failed, 6) == Reported(failed, 4);
    assert Reported(failed, 7) == Reported(failed, 4);
    assert Reported(failed, 8) == Reported(failed, 4);
    assert Reported(failed, 9) == Reported(failed, 4);
  }

  // The issue list.

  /** The reported issues come from checks among the first `n`, in check
      order. */
  lemma {:induction false} ReportedOrder(failed: seq<bool>, n: nat)
    requires n <= |failed| == CheckCount
    ensures forall i :: 0 <= i < |Reported(failed, n)| ==> CheckOf(Reported(failed, n)[i]) < n
    ensures forall i, j :: 0 <= i < j < |Reported(failed, n)| ==> CheckOf(Reported(failed, n)[i]) < CheckOf(Reported(failed, n)[j])
  {
    if n > 0 {
      ReportedOrder(failed, n - 1);
    }
  }

  /** Nothing is reported exactly when no check failed. */
  lemma {:induction false} ReportedEmpty(failed: seq<bool>, n: nat)
    requires n <= |failed| == CheckCount
    ensures Reported(failed, n) == [] <==> forall k :: 0 <= k < n ==> !failed[k]
  {
    if n > 0 {
      ReportedEmpty(failed, n - 1);
      assert |Reported(failed, n)| == |Reported(failed, n - 1)| + (if failed[n - 1] then 1 else 0);
    }
  }

  /** An issue is reported exactly when its check failed. */
  lemma {:induction false} ReportedMembers(failed: seq<bool>, n: nat)
    requires n <= |failed| == CheckCount
    ensures forall k :: 0 <= k < n ==> (CheckIssue(k) in Reported(failed, n) <==> failed[k])
  {
    if n > 0 {
      ReportedMembers(failed, n - 1);
      ReportedOrder(failed, n - 1);
      var p := Reported(failed, n - 1);
      var q := if failed[n - 1] then [CheckIssue(n - 1)] else [];
      assert Reported(failed, n) == p + q;
      forall k | 0 <= k < n
        ensures CheckIssue(k) in p + q <==> failed[k]
      {
        if k < n - 1 {
          assert CheckIssue(k) !in q;
        } else {
          assert CheckIssue(k) !in p;
        }
      }
    }
  }

  /** A record is valid exactly when every check passes; each issue is
      reported exactly when its check fails, and the issues come in check
      order. */
  lemma IssuesSpec(r: Reads)
    ensures IssuesOf(r) == [] <==> forall k :: 0 <= k < CheckCount ==> !FailsOn(r, k)
    ensures forall k :: 0 <= k < CheckCount ==> (CheckIssue(k) in IssuesOf(r) <==> FailsOn(r, k))
    ensures forall i, j :: 0 <= i < j < |IssuesOf(r)| ==> CheckOf(IssuesOf(r)[i]) < CheckOf(IssuesOf(r)[j])
  {
    var failed := Outcomes(r);
    ReportedOrder(failed, CheckCount);
    ReportedEmpty(failed, CheckCount);
    ReportedMembers(failed, CheckCount);
  }

  // Validating a normalised record.

  /** What the checks read from a written standard record. */
  function WrittenReads(c: Migrate.Candidate): Reads
  {
    Reads(Some(Migrate.PersonalInfoJson(c.personalInfo)), Some(JArr(Migrate.EducationItems(c))),
          Some(JArr(Migrate.ExperienceItems(c))), Some(c.skills), Some(c.targetRole),
          Some(c.applicationDate), Some(JNum(c.yearsOfExperience)))
  }

  lemma ReadsOfWritten(c: Migrate.Candidate)
    ensures ReadsOf(Migrate.CandidateJson(c)) == WrittenReads(c)
  {
    Migrate.CandidateLookups(c);
  }

  lemma WrittenFailsOn(c: Migrate.Candidate, k: nat)
    requires k < CheckCount
    ensures Fails(Migrate.CandidateJson(c), k) == FailsOn(WrittenReads(c), k)
  {
    ReadsOfWritten(c);
  }

  /** The checks on a written standard record: personalInfo is always an
      object and yearsOfExperience always a number, so only the remaining
      checks can fail, each on the corresponding field. */
  lemma WrittenFails(c: Migrate.Candidate, k: nat)
    requires k < CheckCount
    ensures Fails(Migrate.CandidateJson(c), k)
        <==> if k == 0 || k == 12 then false
             else if k == 1 then c.education == []
             else if k == 2 then c.experience == []
             else if k == 3 then !Truthy(Some(c.skills))
             else if k < 10 then Truthy(Some(c.skills)) && !IsArray(Chain(Some(c.skills), Skills.Categories[k - 4]))
             else if k == 10 then !Truthy(Some(c.targetRole))
             else !Truthy(Some(c.applicationDate))
  {
    WrittenFailsOn(c, k);
  }

  /** What the checks read from a normalised record, against what they
      read from its input: personalInfo is an object, yearsOfExperience a
      number, education and experience are non-empty arrays exactly when the
      input's are, targetRole and applicationDate are truthy exactly when the
      input's are, and skills are the given ones. */
  lemma NormalizedReads(data: Json, skills: Json)
    requires Migrate.NormalizedWith(data, skills).Ok?
    ensures !data.JNull?
    ensures var w := WrittenReads(Migrate.NormalizedWith(data, skills).value);
            var r := ReadsOf(data);
            && Truthy(w.personalInfo) && IsNumber(w.yearsOfExperience)
            && (NonEmptyArray(w.education) <==> NonEmptyArray(r.education))
            && (NonEmptyArray(w.experience) <==> NonEmptyArray(r.experience))
            && (Truthy(w.targetRole) <==> Truthy(r.targetRole))
            && (Truthy(w.applicationDate) <==> Truthy(r.applicationDate))
            && w.skills == Some(skills)
  {
    Migrate.NormalizedEntries(data, skills);
    Migrate.NormalizedFields(data, skills);
  }

  /** The checks of a record whose skills are an object with the six
      categories: the personalInfo, skills and yearsOfExperience checks
      never fail; category `m` fails exactly when it is not an array. */
  lemma SkillsObjectFails(w: Reads, k: nat)
    requires k < CheckCount && w.skills.Some? && w.skills.value.JObj?
    requires 4 <= k < 10
    ensures FailsOn(w, k) <==> !IsArray(Lookup(w.skills.value.fields, Skills.Categories[k - 4]))
  {
  }

  /** The record written by the corrected normalisation fails exactly those
      of the education, experience, targetRole and applicationDate checks
      that the input fails; the personalInfo, skills and yearsOfExperience
      checks never fire. */
  lemma StrictNormalizedIssues(data: Json, k: nat)
    requires Migrate.NormalizedStrict(data).Ok? && k < CheckCount
    ensures !data.JNull?
    ensures var written := Migrate.CandidateJson(Migrate.NormalizedStrict(data).value);
            Fails(written, k) <==> (k == 1 || k == 2 || k == 10 || k == 11) && Fails(data, k)
  {
    var skills := Skills.FlattenedStrict(Migrate.SkillsOf(data));
    var c := Migrate.NormalizedStrict(data).value;
    NormalizedReads(data, skills);
    WrittenFailsOn(c, k);
    if 3 <= k < 10 {
      Skills.FlattenedStrictArrays(Prop(data, "skills"), if k == 3 then 0 else k - 4);
    }
    if 4 <= k < 10 {
      SkillsObjectFails(WrittenReads(c), k);
    }
  }

  /** As written, the normalised record also fails a skills check for each
      category that a flat `skills` input holds as a truthy non-array. */
  lemma NormalizedIssues(data: Json, k: nat)
    requires Migrate.Normalized(data).Ok? && k < CheckCount
    ensures !data.JNull?
    ensures var written := Migrate.CandidateJson(Migrate.Normalized(data).value);
            Fails(written, k)
            <==> ((k == 1 || k == 2 || k == 10 || k == 11) && Fails(data, k))
                 || (4 <= k < 10 && Skills.Malformed(Prop(data, "skills"), k - 4))
  {
    var skills := Skills.Flattened(Migrate.SkillsOf(data));
    var c := Migrate.Normalized(data).value;
    NormalizedReads(data, skills);
    WrittenFailsOn(c, k);
    if 3 <= k < 10 {
      Skills.FlattenedArrays(Prop(data, "skills"), if k == 3 then 0 else k - 4);
    }
    if 4 <= k < 10 {
      SkillsObjectFails(WrittenReads(c), k);
    }
  }

  /** `{"skills": {"programming": [], "frameworks": s}}`: flat skills with a
      string where the `frameworks` array belongs. */
  function FlatWithString(s: string): Json
  {
    JObj([Field("skills", JObj([Field("programming", JArr([])), Field("frameworks", JStr(s))]))])
  }

  /** A category that a flat `skills` input holds as a truthy non-array is
      reported after normalisation as written, and not after the corrected
      one. */
  lemma MalformedStaysInvalid(data: Json, m: Category)
    requires Migrate.Normalized(data).Ok? && Migrate.NormalizedStrict(data).Ok?
    requires !data.JNull? && Skills.Malformed(Prop(data, "skills"), m)
    ensures NotAnArray(m) in Issues(Migrate.CandidateJson(Migrate.Normalized(data).value))
    ensures Message(NotAnArray(m)) in Messages(Issues(Migrate.CandidateJson(Migrate.Normalized(data).value)))
    ensures NotAnArray(m) !in Issues(Migrate.CandidateJson(Migrate.NormalizedStrict(data).value))
  {
    NormalizedIssues(data, 4 + m);
    StrictNormalizedIssues(data, 4 + m);
    var written := Migrate.CandidateJson(Migrate.Normalized(data).value);
    var strict := Migrate.CandidateJson(Migrate.NormalizedStrict(data).value);
    IssuesSpec(ReadsOf(written));
    IssuesSpec(ReadsOf(strict));
    assert CheckIssue(4 + m) == NotAnArray(m);
    var i :| 0 <= i < |Issues(written)| && Issues(written)[i] == NotAnArray(m);
    assert Messages(Issues(written))[i] == Message(NotAnArray(m));
  }

  lemma FrameworksMessage()
    ensures Message(NotAnArray(Skills.Frameworks)) == "skills.frameworks must be an array"
  {
  }

  /** Such a record normalises, and its `frameworks` category is a malformed
      one. */
  lemma FlatWithStringNormalizes(s: string)
    requires s != ""
    ensures Migrate.Normalized(FlatWithString(s)).Ok?
    ensures Migrate.NormalizedStrict(FlatWithString(s)).Ok?
    ensures Skills.Malformed(Prop(FlatWithString(s), "skills"), Skills.Frameworks)
  {
    var data := FlatWithString(s);
    assert Lookup(data.fields[1..], "education") == None && Lookup(data.fields[1..], "experience") == None;
    assert data.fields[0].key != "education" && data.fields[0].key != "experience";
    var skills := Prop(data, "skills");
    var f := skills.value.fields;
    assert DistinctKeys(f);
    LookupDistinct(f, 0);
    LookupDistinct(f, 1);
    Migrate.NormalizedRaises(data, Skills.Flattened(Migrate.SkillsOf(data)));
    Migrate.NormalizedRaises(data, Skills.FlattenedStrict(Migrate.SkillsOf(data)));
  }

  /** Such a record, with a non-empty string, is still reported as
      "skills.frameworks must be an array" after normalisation as written, and
      no longer after the corrected one. */
  lemma FlatWithStringStaysInvalid(s: string)
    requires s != ""
    ensures Migrate.Normalized(FlatWithString(s)).Ok?
    ensures Migrate.NormalizedStrict(FlatWithString(s)).Ok?
    ensures var written := Migrate.CandidateJson(Migrate.Normalized(FlatWithString(s)).value);
            NotAnArray(Skills.Frameworks) in Issues(written)
            && "skills.frameworks must be an array" in Messages(Issues(written))
    ensures var written := Migrate.CandidateJson(Migrate.NormalizedStrict(FlatWithString(s)).value);
            NotAnArray(Skills.Frameworks) !in Issues(written)
  {
    FlatWithStringNormalizes(s);
    MalformedStaysInvalid(FlatWithString(s), Skills.Frameworks);
    FrameworksMessage();
  }
}

/** `normalizeCandidate` of the migration script: rewrites a loosely shaped
    candidate record into the standard candidate application record, every
    missing field given its default. */
module Migrate {
  import opened Json
  import opened Js
  import Skills

  datatype Location = Location(city: Json, state: Json, country: Json)

  datatype PersonalInfo = PersonalInfo(
    firstName: Json, lastName: Json, email: Json, phone: Json,
    location: Location,
    dateOfBirth: Json, linkedin: Json, github: Json,
    portfolio: Option<Json>)

  datatype Education = Education(
    degree: Json, field: Json, institution: Json, startDate: Json, endDate: Json,
    gpa: Json, honors: seq<Json>)

  datatype Experience = Experience(
    title: Json, company: Json, startDate: Json, endDate: Json, description: Json)

  /** The standard candidate application record. Text fields hold whatever
      truthy value the input had, and "" otherwise. */
  datatype Candidate = Candidate(
    personalInfo: PersonalInfo,
    education: seq<Education>,
    experience: seq<Experience>,
    skills: Json,
    certifications: seq<Json>,
    targetRole: Json,
    applicationDate: Json,
    status: Json,
    yearsOfExperience: int,
    projects: Option<seq<Json>>)

  // The record as a JSON object, fields in the order they are written.

  function LocationJson(l: Location): Json
  {
    JObj([Field("city", l.city), Field("state", l.state), Field("country", l.country)])
  }

  function PersonalInfoJson(p: PersonalInfo): Json
  {
    JObj([Field("firstName", p.firstName), Field("lastName", p.lastName),
          Field("email", p.email), Field("phone", p.phone),
          Field("location", LocationJson(p.location)),
          Field("dateOfBirth", p.dateOfBirth), Field("linkedin", p.linkedin),
          Field("github", p.github)]
         + (if p.portfolio.Some? then [Field("portfolio", p.portfolio.value)] else []))
  }

  function EducationJson(e: Education): Json
  {
    JObj([Field("degree", e.degree), Field("field", e.field), Field("institution", e.institution),
          Field("startDate", e.startDate), Field("endDate", e.endDate), Field("gpa", e.gpa),
          Field("honors", JArr(e.honors))])
  }

  function ExperienceJson(e: Experience): Json
  {
    JObj([Field("title", e.title), Field("company", e.company), Field("startDate", e.startDate),
          Field("endDate", e.endDate), Field("description", e.description)])
  }

  function EducationItems(c: Candidate): (r: seq<Json>)
    ensures |r| == |c.education|
  {
    seq(|c.education|, i requires 0 <= i < |c.education| => EducationJson(c.education[i]))
  }

  function ExperienceItems(c: Candidate): (r: seq<Json>)
    ensures |r| == |c.experience|
  {
    seq(|c.experience|, i requires 0 <= i < |c.experience| => ExperienceJson(c.experience[i]))
  }

  function CandidateFields(c: Candidate): Dict
  {
    [Field("personalInfo", PersonalInfoJson(c.personalInfo)),
     Field("education", JArr(EducationItems(c))),
     Field("experience", JArr(ExperienceItems(c))),
     Field("skills", c.skills),
     Field("certifications", JArr(c.certifications)),
     Field("targetRole", c.targetRole),
     Field("applicationDate", c.applicationDate),
     Field("status", c.status),
     Field("yearsOfExperience", JNum(c.yearsOfExperience))]
    + (if c.projects.Some? then [Field("projects", JArr(c.projects.value))] else [])
  }

  function CandidateJson(c: Candidate): Json
  {
    JObj(CandidateFields(c))
  }

  /** Reading the written record's fields gives the record's values. */
  lemma CandidateLookups(c: Candidate)
    ensures var d := CandidateFields(c);
            && Lookup(d, "personalInfo") == Some(PersonalInfoJson(c.personalInfo))
            && Lookup(d, "education") == Some(JArr(EducationItems(c)))
            && Lookup(d, "experience") == Some(JArr(ExperienceItems(c)))
            && Lookup(d, "skills") == Some(c.skills)
            && Lookup(d, "targetRole") == Some(c.targetRole)
            && Lookup(d, "applicationDate") == Some(c.applicationDate)
            && Lookup(d, "yearsOfExperience") == Some(JNum(c.yearsOfExperience))
  {
    var d := CandidateFields(c);
    LookupFirst(d, 0);
    LookupFirst(d, 1);
    LookupFirst(d, 2);
    LookupFirst(d, 3);
    LookupFirst(d, 5);
    LookupFirst(d, 6);
    LookupFirst(d, 8);
  }

  // Normalising.

  /** `x || ''`. */
  function Text(x: Value): Json
  {
    Or(x, JStr(""))
  }

  function LocationOf(personal: Value): Location
  {
    var location := Chain(personal, "location");
    Location(Text(Chain(location, "city")), Text(Chain(location, "state")), Text(Chain(location, "country")))
  }

  /** The personal details, read with optional chaining (a missing or null
      `personalInfo` gives all defaults). The portfolio is kept only when
      truthy. */
  function PersonalInfoOf(personal: Value): PersonalInfo
  {
    PersonalInfo(
      Text(Chain(personal, "firstName")), Text(Chain(personal, "lastName")),
      Text(Chain(personal, "email")), Text(Chain(personal, "phone")),
      LocationOf(personal),
      Text(Chain(personal, "dateOfBirth")), Text(Chain(personal, "linkedin")),
      Text(Chain(personal, "github")),
      if Truthy(Chain(personal, "portfolio")) then Some(Chain(personal, "portfolio").value) else None)
  }

  /** The value of a field when it is truthy, and "" otherwise. */
  function TruthyOrEmpty(v: Value): Json
  {
    if Truthy(v) then v.value else JStr("")
  }

  /** The value of a field when it is truthy, and `null` otherwise. */
  function TruthyOrNull(v: Value): Json
  {
    if Truthy(v) then v.value else JNull
  }

  /** One education entry; reading a property of a `null` entry throws. Each
      text field is the entry's when truthy and "" otherwise, `gpa` is the
      entry's when truthy and `null` otherwise, and `honors` is the entry's
      array or `[]`. */
  function EducationOf(edu: Json): (r: Result<Education>)
    ensures r.Ok? <==> !edu.JNull?
    ensures r.Ok? ==>
      && r.value.degree == TruthyOrEmpty(Prop(edu, "degree"))
      && r.value.field == TruthyOrEmpty(Prop(edu, "field"))
      && r.value.institution == TruthyOrEmpty(Prop(edu, "institution"))
      && r.value.startDate == TruthyOrEmpty(Prop(edu, "startDate"))
      && r.value.endDate == TruthyOrEmpty(Prop(edu, "endDate"))
      && r.value.gpa == TruthyOrNull(Prop(edu, "gpa"))
      && r.value.honors == (if IsArray(Prop(edu, "honors")) then Prop(edu, "honors").value.items else [])
  {
    if edu.JNull? then Raised
    else Ok(Education(
      Text(Prop(edu, "degree")), Text(Prop(edu, "field")), Text(Prop(edu, "institution")),
      Text(Prop(edu, "startDate")), Text(Prop(edu, "endDate")),
      Or(Prop(edu, "gpa"), JNull), ItemsOr(Prop(edu, "honors"))))
  }

  /** One experience entry; reading a property of a `null` entry throws.
      Each text field is the entry's when truthy and "" otherwise; a falsy
      end date becomes `null`. */
  function ExperienceOf(exp: Json): (r: Result<Experience>)
    ensures r.Ok? <==> !exp.JNull?
    ensures r.Ok? ==>
      && r.value.title == TruthyOrEmpty(Prop(exp, "title"))
      && r.value.company == TruthyOrEmpty(Prop(exp, "company"))
      && r.value.startDate == TruthyOrEmpty(Prop(exp, "startDate"))
      && r.value.endDate == TruthyOrNull(Prop(exp, "endDate"))
      && r.value.description == TruthyOrEmpty(Prop(exp, "description"))
  {
    if exp.JNull? then Raised
    else Ok(Experience(
      Text(Prop(exp, "title")), Text(Prop(exp, "company")), Text(Prop(exp, "startDate")),
      Or(Prop(exp, "endDate"), JNull), Text(Prop(exp, "description"))))
  }

  /** `x.map(f)` when `x` is an array, `[]` otherwise. */
  function EntriesOf<T>(x: Value, f: Json -> Result<T>): Result<seq<T>>
  {
    if IsArray(x) then MapAll(x.value.items, f) else Ok([])
  }

  /** The record built from `data` around the already flattened `skills`,
      before the optional fields are added. */
  function Build(data: Json, skills: Json): (r: Result<Candidate>)
    requires !data.JNull?
  {
    match EntriesOf(Prop(data, "education"), EducationOf)
    case Raised => Raised
    case Ok(education) =>
      match EntriesOf(Prop(data, "experience"), ExperienceOf)
      case Raised => Raised
      case Ok(experience) =>
        var personal := Prop(data, "personalInfo");
        var years := Prop(data, "yearsOfExperience");
        Ok(Candidate(
          PersonalInfoOf(personal).(portfolio := None),
          education, experience, skills,
          ItemsOr(Prop(data, "certifications")),
          Text(Prop(data, "targetRole")), Text(Prop(data, "applicationDate")),
          Or(Prop(data, "status"), JStr("pending")),
          if IsNumber(years) then years.value.n else 0,
          None))
  }

  /** The optional fields: `personalInfo.portfolio` when truthy and
      `projects` when an array. */
  function WithOptional(data: Json, c: Candidate): Candidate
    requires !data.JNull?
  {
    var personal := Prop(data, "personalInfo");
    var projects := Prop(data, "projects");
    c.(personalInfo := c.personalInfo.(portfolio := PersonalInfoOf(personal).portfolio),
       projects := if IsArray(projects) then Some(projects.value.items) else None)
  }

  /** `normalizeCandidate(data)`, given how skills are flattened. Reading a
      property of a `null` record throws. */
  function NormalizedWith(data: Json, skills: Json): Result<Candidate>
  {
    if data.JNull? then Raised
    else match Build(data, skills)
      case Raised => Raised
      case Ok(c) => Ok(WithOptional(data, c))
  }

  function SkillsOf(data: Json): Value
  {
    if data.JNull? then None else Prop(data, "skills")
  }

  /** `normalizeCandidate(data)` as written. */
  function Normalized(data: Json): Result<Candidate>
  {
    NormalizedWith(data, Skills.Flattened(SkillsOf(data)))
  }

  /** `normalizeCandidate(data)` with the flat skills path checked category by
      category. */
  function NormalizedStrict(data: Json): Result<Candidate>
  {
    NormalizedWith(data, Skills.FlattenedStrict(SkillsOf(data)))
  }

  /** `normalizeCandidate`: builds the record, then adds the optional fields
      to it in place. */
  method NormalizeCandidate(data: Json) returns (r: Result<Candidate>)
    ensures r == Normalized(data)
  {
    if data.JNull? {
      return Raised;
    }
    var skills := Skills.FlattenSkills(Prop(data, "skills"));
    var built := Build(data, skills);
    if built.Raised? {
      return Raised;
    }
    var normalized := built.value;
    var portfolio := Chain(Prop(data, "personalInfo"), "portfolio");
    if Truthy(portfolio) {
      normalized := normalized.(personalInfo := normalized.personalInfo.(portfolio := Some(portfolio.value)));
    }
    var projects := Prop(data, "projects");
    if IsArray(projects) {
      normalized := normalized.(projects := Some(projects.value.items));
    }
    return Ok(normalized);
  }

  // Properties of the normalised record.

  /** Mapping over an array throws exactly when one entry throws. */
  lemma EducationRaises(x: Value)
    ensures EntriesOf(x, EducationOf).Raised? <==> IsArray(x) && JNull in x.value.items
  {
    if IsArray(x) && JNull in x.value.items {
      var i :| 0 <= i < |x.value.items| && x.value.items[i] == JNull;
      assert EducationOf(x.value.items[i]).Raised?;
    }
  }

  lemma ExperienceRaises(x: Value)
    ensures EntriesOf(x, ExperienceOf).Raised? <==> IsArray(x) && JNull in x.value.items
  {
    if IsArray(x) && JNull in x.value.items {
      var i :| 0 <= i < |x.value.items| && x.value.items[i] == JNull;
      assert ExperienceOf(x.value.items[i]).Raised?;
    }
  }

  /** Normalising throws exactly when the record is `null` or an entry of its
      `education` or `experience` array is `null`. */
  lemma NormalizedRaises(data: Json, skills: Json)
    ensures NormalizedWith(data, skills).Raised?
        <==> data.JNull?
             || (IsArray(Prop(data, "education")) && JNull in Prop(data, "education").value.items)
             || (IsArray(Prop(data, "experience")) && JNull in Prop(data, "experience").value.items)
  {
    if !data.JNull? {
      EducationRaises(Prop(data, "education"));
      ExperienceRaises(Prop(data, "experience"));
      assert Build(data, skills).Raised?
         <==> EntriesOf(Prop(data, "education"), EducationOf).Raised?
              || EntriesOf(Prop(data, "experience"), ExperienceOf).Raised?;
    }
  }

  /** The entries of the normalised record: one education and one
      experience entry per input entry, each normalised on its own (none
      when the input is not an array). */
  lemma NormalizedEntries(data: Json, skills: Json)
    requires NormalizedWith(data, skills).Ok?
    ensures !data.JNull?
    ensures var c := NormalizedWith(data, skills).value;
            && |c.education| == |ItemsOr(Prop(data, "education"))|
            && |c.experience| == |ItemsOr(Prop(data, "experience"))|
            && (forall i :: 0 <= i < |c.education| ==>
                  EducationOf(ItemsOr(Prop(data, "education"))[i]) == Ok(c.education[i]))
            && (forall i :: 0 <= i < |c.experience| ==>
                  ExperienceOf(ItemsOr(Prop(data, "experience"))[i]) == Ok(c.experience[i]))
  {
  }

  /** The defaults of the normalised record: certifications only from an
      array, `targetRole` and `applicationDate` the input's when truthy and
      "" otherwise, `status` "pending" unless given, `yearsOfExperience` the
      input number or 0, the flattened skills, and `projects` the input's
      array, present only when the input has one. */
  lemma NormalizedFields(data: Json, skills: Json)
    requires NormalizedWith(data, skills).Ok?
    ensures !data.JNull?
    ensures var c := NormalizedWith(data, skills).value;
            && c.skills == skills
            && c.certifications == ItemsOr(Prop(data, "certifications"))
            && c.status == (if Truthy(Prop(data, "status")) then Prop(data, "status").value else JStr("pending"))
            && c.yearsOfExperience
               == (if IsNumber(Prop(data, "yearsOfExperience")) then Prop(data, "yearsOfExperience").value.n else 0)
            && c.targetRole == TruthyOrEmpty(Prop(data, "targetRole"))
            && c.applicationDate == TruthyOrEmpty(Prop(data, "applicationDate"))
            && (Truthy(Prop(data, "targetRole")) <==> Truthy(Some(c.targetRole)))
            && (Truthy(Prop(data, "applicationDate")) <==> Truthy(Some(c.applicationDate)))
            && c.personalInfo == PersonalInfoOf(Prop(data, "personalInfo"))
            && c.projects == (if IsArray(Prop(data, "projects")) then Some(Prop(data, "projects").value.items) else None)
  {
  }

  /** Each personal detail, the three location parts included, is the
      input's when truthy and "" otherwise; the portfolio is present only when
      the input has a truthy one. A falsy `personalInfo` gives all defaults. */
  lemma PersonalDefaults(personal: Value)
    ensures var p := PersonalInfoOf(personal);
            var location := Chain(personal, "location");
            && p.firstName == TruthyOrEmpty(Chain(personal, "firstName"))
            && p.lastName == TruthyOrEmpty(Chain(personal, "lastName"))
            && p.email == TruthyOrEmpty(Chain(personal, "email"))
            && p.phone == TruthyOrEmpty(Chain(personal, "phone"))
            && p.location.city == TruthyOrEmpty(Chain(location, "city"))
            && p.location.state == TruthyOrEmpty(Chain(location, "state"))
            && p.location.country == TruthyOrEmpty(Chain(location, "country"))
            && p.dateOfBirth == TruthyOrEmpty(Chain(personal, "dateOfBirth"))
            && p.linkedin == TruthyOrEmpty(Chain(personal, "linkedin"))
            && p.github == TruthyOrEmpty(Chain(personal, "github"))
            && (p.portfolio.Some? <==> Truthy(Chain(personal, "portfolio")))
            && (p.portfolio.Some? ==> p.portfolio.value == Chain(personal, "portfolio").value)
            && (!Truthy(personal) ==> p == PersonalInfo(JStr(""), JStr(""), JStr(""), JStr(""),
                                                     Location(JStr(""), JStr(""), JStr("")),
                                                     JStr(""), JStr(""), JStr(""), None))
  {
  }

  /** The skills of the normalised record always have the six categories;
      with the corrected flattening each is an array. */
  lemma NormalizedSkills(data: Json, k: nat)
    requires !data.JNull? && k < 6
    ensures var s := Skills.Flattened(Prop(data, "skills"));
            s.JObj? && Keys(s.fields) == Skills.Categories
    ensures IsArray(Lookup(Skills.FlattenedStrict(Prop(data, "skills")).fields, Skills.Categories[k]))
  {
    Skills.FlattenedArrays(Prop(data, "skills"), k);
    Skills.FlattenedStrictArrays(Prop(data, "skills"), k);
  }
}

/** `format_candidate_info`: the text fields of a candidate that the
    screening prompt shows. */
module CandidateInfo {
  import opened Json
  import Python

  /** The returned dict. `targetRole` is passed through as it is stored; the
      other fields are text. */
  datatype Info = Info(name: string, targetRole: Json, yearsExperience: string,
                       education: string, skills: string, experience: string,
                       certifications: string)

  const NotSpecified := "Not specified"

  /** The skill categories read, in order; `testing` is not among them. */
  const SkillCategories: seq<string> := ["programming", "frameworks", "tools", "cloud", "databases"]

  /** The f-string "{a}<s1>{b}<s2>{c}" over three `.get(key, '')` reads of a
      dict entry. */
  function EntryText(e: Dict, a: string, s1: string, b: string, s2: string, c: string): string
  {
    Python.Str(Python.Get(e, a, JStr(""))) + s1 +
    Python.Str(Python.Get(e, b, JStr(""))) + s2 +
    Python.Str(Python.Get(e, c, JStr("")))
  }

  /** "<degree> in <field> from <institution>"; raises when the entry is not a
      dict. */
  function EducationLine(edu: Json): (r: Result<string>)
    ensures r.Ok? <==> edu.JObj?
  {
    if edu.JObj? then Ok(EntryText(edu.fields, "degree", " in ", "field", " from ", "institution"))
    else Raised
  }

  /** "<title> at <company>: <description>"; raises when the entry is not a
      dict. */
  function ExperienceLine(exp: Json): (r: Result<string>)
    ensures r.Ok? <==> exp.JObj?
  {
    if exp.JObj? then Ok(EntryText(exp.fields, "title", " at ", "company", ": ", "description"))
    else Raised
  }

  /** The lines for the entries of `candidate.get(key, [])`, one per entry. */
  function Lines(candidate: Dict, key: string, line: Json -> Result<string>): Result<seq<string>>
  {
    match Python.Iterate(Python.Get(candidate, key, JArr([])))
    case Raised => Raised
    case Ok(entries) => MapAll(entries, line)
  }

  /** `"; ".join(lines) if lines else "Not specified"`. */
  function ListText(lines: seq<string>): string
  {
    if lines != [] then Join(lines, "; ") else NotSpecified
  }

  /** The skills of one category: the list stored under it, or nothing when
      the category is absent or not a list. `category in skills` raises for a
      value that is not a container, and `skills[category]` for a list or a
      string that contains it. */
  function CategorySkills(skills: Json, category: string): Result<seq<Json>>
  {
    match Python.Contains(skills, category)
    case Raised => Raised
    case Ok(present) =>
      if !present then Ok([])
      else match Python.Subscript(skills, category)
        case Raised => Raised
        case Ok(v) => Ok(if v.JArr? then v.items else [])
  }

  /** All skills of the given categories, category by category. */
  function CollectSkills(skills: Json, categories: seq<string>): Result<seq<Json>>
  {
    if categories == [] then Ok([])
    else match CategorySkills(skills, categories[0])
      case Raised => Raised
      case Ok(first) => Prepend(first, CollectSkills(skills, categories[1..]))
  }

  /** `", ".join(all_skills) if all_skills else "Not specified"`; the join
      raises on a skill that is not a string. */
  function SkillsText(all: seq<Json>): Result<string>
  {
    if all == [] then Ok(NotSpecified)
    else if Python.AllStrings(all) then Ok(Join(Python.Texts(all), ", "))
    else Raised
  }

  /** `", ".join(certifications) if certifications else "None"`. */
  function CertificationsText(certifications: Json): Result<string>
  {
    if Python.Truthy(certifications) then Python.JoinOf(certifications, ", ") else Ok("None")
  }

  /** "<firstName> <lastName>", each '' when absent; `personalInfo` must be a
      dict. */
  function NameText(personal: Json): Result<string>
  {
    match personal
    case JObj(p) =>
      Ok(Python.Str(Python.Get(p, "firstName", JStr(""))) + " " +
         Python.Str(Python.Get(p, "lastName", JStr(""))))
    case _ => Raised
  }

  /** `format_candidate_info(candidate)` as a whole. */
  function InfoOf(candidate: Dict): Result<Info>
  {
    var education := Lines(candidate, "education", EducationLine);
    var experience := Lines(candidate, "experience", ExperienceLine);
    var collected := CollectSkills(Python.Get(candidate, "skills", JObj([])), SkillCategories);
    if education.Raised? || experience.Raised? || collected.Raised? then Raised
    else
      var skills := SkillsText(collected.value);
      var certifications := CertificationsText(Python.Get(candidate, "certifications", JArr([])));
      var name := NameText(Python.Get(candidate, "personalInfo", JObj([])));
      if skills.Raised? || certifications.Raised? || name.Raised? then Raised
      else Ok(Info(name.value,
                   Python.Get(candidate, "targetRole", JStr(NotSpecified)),
                   Python.Str(Python.Get(candidate, "yearsOfExperience", JNum(0))),
                   ListText(education.value),
                   skills.value,
                   ListText(experience.value),
                   certifications.value))
  }

  /** The education or experience loop: one line per entry, in order. */
  method FormatLines(candidate: Dict, key: string, line: Json -> Result<string>) returns (r: Result<seq<string>>)
    ensures r == Lines(candidate, key, line)
  {
    var entries := Python.Iterate(Python.Get(candidate, key, JArr([])));
    if entries.Raised? {
      return Raised;
    }
    var lines: seq<string> := [];
    var i := 0;
    assert entries.value[i..] == entries.value;
    PrependNothing(MapAll(entries.value, line));
    while i < |entries.value|
      invariant 0 <= i <= |entries.value|
      invariant MapAll(entries.value, line) == Prepend(lines, MapAll(entries.value[i..], line))
    {
      MapAllStep(entries.value, i, line);
      var text := line(entries.value[i]);
      if text.Raised? {
        return Raised;
      }
      PrependPrepend(lines, [text.value], MapAll(entries.value[i + 1..], line));
      lines := lines + [text.value];
      i := i + 1;
    }
    assert entries.value[i..] == [];
    PrependAll(lines);
    return Ok(lines);
  }

  /** The skills loop: extends the list with each category's skills. */
  method GatherSkills(skills: Json) returns (r: Result<seq<Json>>)
    ensures r == CollectSkills(skills, SkillCategories)
  {
    var all: seq<Json> := [];
    var i := 0;
    assert SkillCategories[i..] == SkillCategories;
    PrependNothing(CollectSkills(skills, SkillCategories));
    while i < |SkillCategories|
      invariant 0 <= i <= |SkillCategories|
      invariant CollectSkills(skills, SkillCategories)
             == Prepend(all, CollectSkills(skills, SkillCategories[i..]))
    {
      assert SkillCategories[i..][1..] == SkillCategories[i + 1..];
      var category := SkillCategories[i];
      var present := Python.Contains(skills, category);
      if present.Raised? {
        return Raised;
      }
      var added: seq<Json> := [];
      if present.value {
        var v := Python.Subscript(skills, category);
        if v.Raised? {
          return Raised;
        }
        if v.value.JArr? {
          added := v.value.items;
        }
      }
      PrependPrepend(all, added, CollectSkills(skills, SkillCategories[i + 1..]));
      all := all + added;
      i := i + 1;
    }
    assert SkillCategories[i..] == [];
    PrependAll(all);
    return Ok(all);
  }

  /** `format_candidate_info(candidate)`. */
  method FormatCandidateInfo(candidate: Dict) returns (r: Result<Info>)
    ensures r == InfoOf(candidate)
  {
    var education := FormatLines(candidate, "education", EducationLine);
    var experience := FormatLines(candidate, "experience", ExperienceLine);
    var all := GatherSkills(Python.Get(candidate, "skills", JObj([])));
    if education.Raised? || experience.Raised? || all.Raised? {
      return Raised;
    }
    var skills := SkillsText(all.value);
    var certifications := CertificationsText(Python.Get(candidate, "certifications", JArr([])));
    var name := NameText(Python.Get(candidate, "personalInfo", JObj([])));
    if skills.Raised? || certifications.Raised? || name.Raised? {
      return Raised;
    }
    return Ok(Info(name.value,
                   Python.Get(candidate, "targetRole", JStr(NotSpecified)),
                   Python.Str(Python.Get(candidate, "yearsOfExperience", JNum(0))),
                   ListText(education.value),
                   skills.value,
                   ListText(experience.value),
                   certifications.value));
  }

  // Properties of the formatted text.

  /** The first part of a join is a prefix of it. */
  lemma JoinStartsWith(parts: seq<string>, sep: string)
    requires parts != []
    ensures parts[0] <= Join(parts, sep)
  {
  }

  /** The only space in "Not specified" is followed by 's'. */
  lemma NoSpaceBeforeLetter(k: nat)
    requires k + 2 <= |NotSpecified|
    ensures NotSpecified[k..k + 2] != " i" && NotSpecified[k..k + 2] != " a"
  {
    if k == 3 {
      assert NotSpecified[k..k + 2][1] == 's';
    } else {
      assert NotSpecified[k..k + 2][0] == NotSpecified[k] != ' ';
    }
  }

  /** "Not specified" contains neither " in " nor " at ". */
  lemma NotSpecifiedLacks(a: string, marker: string, b: string)
    requires marker == " in " || marker == " at "
    ensures a + marker + b != NotSpecified
  {
    var s := a + marker + b;
    if |s| == |NotSpecified| {
      assert s[|a|..|a| + 2] == marker[..2];
      NoSpaceBeforeLetter(|a|);
    }
  }

  /** A non-empty list of lines, the first of which has the marker in it,
      never joins to "Not specified". */
  lemma ListTextMarked(lines: seq<string>, a: string, marker: string, b: string)
    requires marker == " in " || marker == " at "
    requires lines != [] && lines[0] == a + marker + b
    ensures ListText(lines) != NotSpecified
  {
    JoinStartsWith(lines, "; ");
    var j := Join(lines, "; ");
    if j == NotSpecified {
      var rest := j[|lines[0]|..];
      assert j == lines[0] + rest;
      assert j == a + marker + (b + rest);
      NotSpecifiedLacks(a, marker, b + rest);
    }
  }

  /** How each field of a formatted record comes about. */
  lemma InfoFields(candidate: Dict)
    requires InfoOf(candidate).Ok?
    ensures var info := InfoOf(candidate).value;
            var education := Lines(candidate, "education", EducationLine);
            var experience := Lines(candidate, "experience", ExperienceLine);
            var collected := CollectSkills(Python.Get(candidate, "skills", JObj([])), SkillCategories);
            var name := NameText(Python.Get(candidate, "personalInfo", JObj([])));
            && education.Ok? && info.education == ListText(education.value)
            && experience.Ok? && info.experience == ListText(experience.value)
            && collected.Ok? && SkillsText(collected.value) == Ok(info.skills)
            && name == Ok(info.name)
            && info.targetRole == Python.Get(candidate, "targetRole", JStr(NotSpecified))
            && info.yearsExperience == Python.Str(Python.Get(candidate, "yearsOfExperience", JNum(0)))
  {
  }

  /** Formatting succeeds only when `personalInfo` is a dict (or absent). */
  lemma InfoNeedsPersonalDict(candidate: Dict)
    requires InfoOf(candidate).Ok?
    ensures Python.Get(candidate, "personalInfo", JObj([])).JObj?
  {
    InfoFields(candidate);
  }

  /** Lines made from education entries join to "Not specified" exactly when there
      are none. */
  lemma EducationLinesText(entries: seq<Json>)
    requires MapAll(entries, EducationLine).Ok?
    ensures ListText(MapAll(entries, EducationLine).value) == NotSpecified <==> entries == []
  {
    var lines := MapAll(entries, EducationLine).value;
    if entries != [] {
      assert EducationLine(entries[0]) == Ok(lines[0]);
      var e := entries[0].fields;
      var a := Python.Str(Python.Get(e, "degree", JStr("")));
      var b := Python.Str(Python.Get(e, "field", JStr(""))) + " from " + Python.Str(Python.Get(e, "institution", JStr("")));
      assert lines[0] == a + " in " + b;
      ListTextMarked(lines, a, " in ", b);
    }
  }

  /** `education` is "Not specified" exactly when there are no education
      entries; otherwise it is one "<degree> in <field> from <institution>"
      line per entry, in order, joined by "; ". */
  lemma EducationText(candidate: Dict)
    requires InfoOf(candidate).Ok?
    ensures Python.Iterate(Python.Get(candidate, "education", JArr([]))).Ok?
    ensures var entries := Python.Iterate(Python.Get(candidate, "education", JArr([]))).value;
            var lines := MapAll(entries, EducationLine);
            && lines.Ok?
            && (InfoOf(candidate).value.education == NotSpecified <==> entries == [])
            && (entries != [] ==> InfoOf(candidate).value.education == Join(lines.value, "; "))
  {
    InfoFields(candidate);
    EducationLinesText(Python.Iterate(Python.Get(candidate, "education", JArr([]))).value);
  }

  /** Lines made from experience entries join to "Not specified" exactly when there
      are none. */
  lemma ExperienceLinesText(entries: seq<Json>)
    requires MapAll(entries, ExperienceLine).Ok?
    ensures ListText(MapAll(entries, ExperienceLine).value) == NotSpecified <==> entries == []
  {
    var lines := MapAll(entries, ExperienceLine).value;
    if entries != [] {
      assert ExperienceLine(entries[0]) == Ok(lines[0]);
      var e := entries[0].fields;
      var a := Python.Str(Python.Get(e, "title", JStr("")));
      var b := Python.Str(Python.Get(e, "company", JStr(""))) + ": " + Python.Str(Python.Get(e, "description", JStr("")));
      assert lines[0] == a + " at " + b;
      ListTextMarked(lines, a, " at ", b);
    }
  }

  /** `experience` is "Not specified" exactly when there are no experience
      entries; otherwise it is one "<title> at <company>: <description>" line
      per entry, in order, joined by "; ". */
  lemma ExperienceText(candidate: Dict)
    requires InfoOf(candidate).Ok?
    ensures Python.Iterate(Python.Get(candidate, "experience", JArr([]))).Ok?
    ensures var entries := Python.Iterate(Python.Get(candidate, "experience", JArr([]))).value;
            var lines := MapAll(entries, ExperienceLine);
            && lines.Ok?
            && (InfoOf(candidate).value.experience == NotSpecified <==> entries == [])
            && (entries != [] ==> InfoOf(candidate).value.experience == Join(lines.value, "; "))
  {
    InfoFields(candidate);
    ExperienceLinesText(Python.Iterate(Python.Get(candidate, "experience", JArr([]))).value);
  }

  /** The list stored under `k`, or nothing when it is absent or not a list. */
  function ListUnder(f: Dict, k: string): seq<Json>
  {
    match Lookup(f, k)
    case Some(JArr(items)) => items
    case _ => []
  }

  lemma CategoryOfDict(f: Dict, k: string)
    ensures CategorySkills(JObj(f), k) == Ok(ListUnder(f, k))
  {
    LookupFound(f, k);
  }

  /** The lists under the given keys, concatenated in order. */
  function ListsUnder(f: Dict, keys: seq<string>): seq<Json>
  {
    if keys == [] then [] else ListUnder(f, keys[0]) + ListsUnder(f, keys[1..])
  }

  /** For a skills dict, collecting never raises and yields the lists under
      the categories, in order; a category that holds something other than a
      list adds nothing, and no other key is read. */
  lemma {:induction false} CollectFromDict(f: Dict, categories: seq<string>)
    ensures CollectSkills(JObj(f), categories) == Ok(ListsUnder(f, categories))
  {
    if categories != [] {
      CategoryOfDict(f, categories[0]);
      CollectFromDict(f, categories[1..]);
    }
  }

  /** Writing a key that is not among `keys` leaves their lists as they
      were: `testing`, or any other key outside the categories, has no
      effect on the collected skills. */
  lemma {:induction false} ListsUnderPut(f: Dict, k: string, v: Json, keys: seq<string>)
    requires k !in keys
    ensures ListsUnder(Put(f, k, v), keys) == ListsUnder(f, keys)
  {
    if keys != [] {
      PutLookup(f, k, v, keys[0]);
      ListsUnderPut(f, k, v, keys[1..]);
    }
  }

  /** `skills` is "Not specified" when no skill was collected, and otherwise
      the collected skills joined by ", ". (The text is also "Not specified"
      when the only skill is that very string.) */
  lemma SkillsTextOf(all: seq<Json>)
    requires SkillsText(all).Ok?
    ensures all == [] ==> SkillsText(all).value == NotSpecified
    ensures all != [] ==> Python.AllStrings(all) && SkillsText(all).value == Join(Python.Texts(all), ", ")
    ensures SkillsText([JStr(NotSpecified)]) == Ok(NotSpecified)
  {
    assert Python.Texts([JStr(NotSpecified)]) == [NotSpecified];
  }

  /** For a list of certifications: "None" when it is empty, otherwise the
      names joined by ", " (raising on a name that is not a string). */
  lemma CertificationsOfList(items: seq<Json>)
    ensures CertificationsText(JArr(items))
         == if items == [] then Ok("None")
            else if Python.AllStrings(items) then Ok(Join(Python.Texts(items), ", "))
            else Raised
  {
  }

  /** For a skills dict, `skills` is "Not specified" when its five
      categories hold no list items, and otherwise their items, category by
      category, joined by ", "; without a `skills` key it is "Not
      specified". */
  lemma SkillsField(candidate: Dict)
    requires InfoOf(candidate).Ok?
    ensures "skills" !in Keys(candidate) ==> InfoOf(candidate).value.skills == NotSpecified
    ensures forall f :: Python.Get(candidate, "skills", JObj([])) == JObj(f) ==>
      var all := ListsUnder(f, SkillCategories);
      && (all == [] ==> InfoOf(candidate).value.skills == NotSpecified)
      && (all != [] ==> Python.AllStrings(all) && InfoOf(candidate).value.skills == Join(Python.Texts(all), ", "))
  {
    InfoFields(candidate);
    var s := Python.Get(candidate, "skills", JObj([]));
    if s.JObj? {
      CollectFromDict(s.fields, SkillCategories);
      SkillsTextOf(ListsUnder(s.fields, SkillCategories));
    }
    if "skills" !in Keys(candidate) {
      assert ListsUnder([], SkillCategories) == [] by {
        CollectFromDict([], SkillCategories);
        assert CollectSkills(JObj([]), SkillCategories) == Ok([]);
      }
    }
  }

  /** `certifications` is "None" when the stored value is falsy (absent, an
      empty list, ...); otherwise it is the certifications joined by ", ".
      For a list, that is "None" when it is empty and the names joined by
      ", " when it is not. */
  lemma CertificationsField(candidate: Dict)
    requires InfoOf(candidate).Ok?
    ensures var c := Python.Get(candidate, "certifications", JArr([]));
      && (!Python.Truthy(c) ==> InfoOf(candidate).value.certifications == "None")
      && (Python.Truthy(c) ==>
            && Python.Iterate(c).Ok? && Python.AllStrings(Python.Iterate(c).value)
            && InfoOf(candidate).value.certifications == Join(Python.Texts(Python.Iterate(c).value), ", "))
    ensures "certifications" !in Keys(candidate) ==> InfoOf(candidate).value.certifications == "None"
    ensures forall items :: Lookup(candidate, "certifications") == Some(JArr(items)) ==>
      && (items == [] ==> InfoOf(candidate).value.certifications == "None")
      && (items != [] ==> Python.AllStrings(items)
                          && InfoOf(candidate).value.certifications == Join(Python.Texts(items), ", "))
  {
    InfoFields(candidate);
    var c := Python.Get(candidate, "certifications", JArr([]));
    if c.JArr? {
      CertificationsOfList(c.items);
    }
    LookupFound(candidate, "certifications");
  }

  /** The name is first and last name with one space between, each '' when
      absent; `target_role` defaults to "Not specified" and
      `years_experience` is the text of the stored number, "0" when absent. */
  lemma NameAndDefaults(candidate: Dict)
    requires InfoOf(candidate).Ok?
    ensures var info := InfoOf(candidate).value;
            var personal := Python.Get(candidate, "personalInfo", JObj([]));
            && personal.JObj?
            && info.name == Python.Str(Python.Get(personal.fields, "firstName", JStr(""))) + " "
                            + Python.Str(Python.Get(personal.fields, "lastName", JStr("")))
            && ("firstName" !in Keys(personal.fields) && "lastName" !in Keys(personal.fields) ==> info.name == " ")
            && ("targetRole" !in Keys(candidate) ==> info.targetRole == JStr(NotSpecified))
            && ("yearsOfExperience" !in Keys(candidate) ==> info.yearsExperience == "0")
            && (forall n :: Lookup(candidate, "yearsOfExperience") == Some(JNum(n))
                  ==> info.yearsExperience == IntToString(n))
  {
    InfoFields(candidate);
  }

  /** The record shape the formatter expects: `personalInfo` a dict,
      `education` and `experience` lists of dicts, `skills` a dict whose
      listed categories hold only strings, `certifications` a list of
      strings; each may also be absent. */
  predicate WellShaped(candidate: Dict)
  {
    && (match Lookup(candidate, "personalInfo") case None => true case Some(p) => p.JObj?)
    && EntriesAreDicts(Lookup(candidate, "education"))
    && EntriesAreDicts(Lookup(candidate, "experience"))
    && (match Lookup(candidate, "skills")
        case None => true
        case Some(s) => s.JObj? && forall k :: k in SkillCategories ==> Python.AllStrings(ListUnder(s.fields, k)))
    && (match Lookup(candidate, "certifications")
        case None => true
        case Some(c) => c.JArr? && Python.AllStrings(c.items))
  }

  predicate EntriesAreDicts(v: Option<Json>)
  {
    match v
    case None => true
    case Some(x) => x.JArr? && forall i :: 0 <= i < |x.items| ==> x.items[i].JObj?
  }

  lemma AllStringsConcat(a: seq<Json>, b: seq<Json>)
    requires Python.AllStrings(a) && Python.AllStrings(b)
    ensures Python.AllStrings(a + b)
  {
    assert forall i :: 0 <= i < |a + b| ==> (a + b)[i] == if i < |a| then a[i] else b[i - |a|];
  }

  lemma {:induction false} ListsUnderStrings(f: Dict, keys: seq<string>)
    requires forall k :: k in keys ==> Python.AllStrings(ListUnder(f, k))
    ensures Python.AllStrings(ListsUnder(f, keys))
  {
    if keys != [] {
      ListsUnderStrings(f, keys[1..]);
      AllStringsConcat(ListUnder(f, keys[0]), ListsUnder(f, keys[1..]));
    }
  }

  lemma EntriesFormat(candidate: Dict, key: string, line: Json -> Result<string>)
    requires EntriesAreDicts(Lookup(candidate, key))
    requires forall x: Json :: x.JObj? ==> line(x).Ok?
    ensures Lines(candidate, key, line).Ok?
  {
  }

  /** The record is produced when every part of it is. */
  lemma InfoFromParts(candidate: Dict)
    requires Lines(candidate, "education", EducationLine).Ok?
    requires Lines(candidate, "experience", ExperienceLine).Ok?
    requires CollectSkills(Python.Get(candidate, "skills", JObj([])), SkillCategories).Ok?
    requires SkillsText(CollectSkills(Python.Get(candidate, "skills", JObj([])), SkillCategories).value).Ok?
    requires CertificationsText(Python.Get(candidate, "certifications", JArr([]))).Ok?
    requires NameText(Python.Get(candidate, "personalInfo", JObj([]))).Ok?
    ensures InfoOf(candidate).Ok?
  {
  }

  lemma WellShapedSkills(candidate: Dict)
    requires WellShaped(candidate)
    ensures CollectSkills(Python.Get(candidate, "skills", JObj([])), SkillCategories).Ok?
    ensures SkillsText(CollectSkills(Python.Get(candidate, "skills", JObj([])), SkillCategories).value).Ok?
  {
    var skills := Python.Get(candidate, "skills", JObj([]));
    CollectFromDict(skills.fields, SkillCategories);
    ListsUnderStrings(skills.fields, SkillCategories);
  }

  lemma WellShapedCertifications(candidate: Dict)
    requires WellShaped(candidate)
    ensures CertificationsText(Python.Get(candidate, "certifications", JArr([]))).Ok?
  {
    CertificationsOfList(Python.Get(candidate, "certifications", JArr([])).items);
  }

  /** A candidate of the expected shape is always formatted. */
  lemma WellShapedFormats(candidate: Dict)
    requires WellShaped(candidate)
    ensures InfoOf(candidate).Ok?
  {
    EntriesFormat(candidate, "education", EducationLine);
    EntriesFormat(candidate, "experience", ExperienceLine);
    WellShapedSkills(candidate);
    WellShapedCertifications(candidate);
    InfoFromParts(candidate);
  }
}

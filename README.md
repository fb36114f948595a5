# HR onboarding agent: recruiting pipeline and candidate-record migration

This project models the core of an HR recruiting pipeline in Dafny. The
pipeline has three agents and one data migration script.

- **Intake agent.** Extracts the requirements of a job from its
  description. The backfill guarantees that `required_skills` and
  `role_type` are present. It also renders a one-line summary of the
  requirements.
- **Resume screener agent.** Screens each candidate against the
  requirements. It formats the candidate record as text
  (`format_candidate_info`) and formats the requirements as text. The
  reply to the screening request is then enriched with the candidate's
  contact details. A screening that fails becomes a placeholder entry
  with score 0.
- **Evaluator agent.** Filters the screenings with a positive score and
  summarises them for a ranking request. From the reply it builds a
  shortlist: candidates that reach `min_score`, with contact details,
  sorted by score and ranked 1..n. When any step of that raises, a
  fallback ranking is computed from the screenings alone: the top ten
  that reach `min_score`, each with at most three strengths.
- **Migration script** (`migrateData.js`). Has three parts:
  - `flattenSkills` turns flat or theme-nested skills into six flat
    arrays;
  - `normalizeCandidate` rewrites a loosely shaped record into the
    standard candidate record;
  - `validateStructure` lists, in a fixed order, the ways a record falls
    short of that standard.

## How the model is built

- **JSON values.** Python and JavaScript values are one `Json` datatype.
  Objects are ordered association lists, which keep insertion order the
  way Python dicts and JS objects do.
  - `Lookup` returns the first match.
  - `Put` replaces a key in place or appends it, like `d[k] = v`.
- **Python and JavaScript semantics.** The modules `Python` and `Js`
  model the parts of each language the code relies on:
  - `.get` on a value that is not a dict raises;
  - `in` on dicts, lists and strings;
  - slicing;
  - `join` over any iterable;
  - comparisons with non-numbers raise;
  - JS truthiness, `||`, optional chaining, `Array.isArray`, `typeof`;
  - `Object.keys` and `Object.values`.
- **Exceptions** are a `Result` value (`Ok` or `Raised`).
- **The language-model requests** are inputs. Each agent's request
  (prompt, network call and JSON extraction) is a parameter
  `response: Result<Json>`, where `Raised` means the call or the parse
  failed.
- **Functions and methods.** Each source loop is a method with loop
  invariants. Its `ensures` ties it to a specification function.
  Properties of the specification functions are proved as lemmas.
- **Sorting.** `list.sort(key=..., reverse=True)` is specified as a
  stable sort with the highest key first (`StableSort`). The model proves
  that the result is ordered, a permutation of the input, and stable.

## Model

| member | source | states |
|---|---|---|
| Evaluator.AtLeast | src/agents/evaluator_agent.py:96 | the filter succeeds exactly when every screening is a dict whose score is a number; its entries are exactly the screenings whose score is at least the bound, and each keeps its score |
| Evaluator.PositionsFrom | src/agents/evaluator_agent.py:96 | the positions of the entries that reach the bound, strictly increasing, holding exactly the qualifying positions |
| Evaluator.AtLeastInOrder | src/agents/evaluator_agent.py:96 | the comprehension keeps order and multiplicity: entry k of the result is the screening at the k-th qualifying position |
| Evaluator.ValidResultsPositive | src/agents/evaluator_agent.py:33 | every screening passed on to ranking has a `match_score`, and it is positive; an entry without a score counts as 0 and is dropped |
| Evaluator.ValidNotEmpty | src/agents/evaluator_agent.py:33 | a valid screening is never the empty dict, so `if original:` holds for any match that is found |
| Evaluator.EvaluateNoValid | src/agents/evaluator_agent.py:35-44 | when no screening has a positive score, the result is a success with an empty shortlist that counts every screening as reviewed, whatever the reply |
| Evaluator.ScreeningSummary | src/agents/evaluator_agent.py:127-136 | a summary is produced exactly when `skills_match` and `experience_match` (defaulting to `{}`) are dicts |
| Evaluator.SummaryFields | src/agents/evaluator_agent.py:127-136 | a summary has the eight keys in source order; `name` defaults to "Unknown" and `assessment` is `overall_assessment` |
| Evaluator.SummaryScores | src/agents/evaluator_agent.py:130-131 | the summary's two scores are `skills_match.match_percentage` and `experience_match.relevance_score`, each 0 when absent |
| Evaluator.FormatScreeningResults | src/agents/evaluator_agent.py:122-139 | the loop yields one summary per screening, in order, and raises when one summary raises |
| Evaluator.FindOriginal | src/agents/evaluator_agent.py:66-69 | `next(...)` finds the first screening with the same `candidate_name`, or none when no screening matches |
| Evaluator.ContactDetails | src/agents/evaluator_agent.py:70-72 | the entry matching a screening gets that screening's `email` and `phone` (each '' when absent); every other key and the score are kept; an entry with no match is unchanged |
| Evaluator.ShortlistOf | src/agents/evaluator_agent.py:62-73 | the filter of the reply raises exactly when an entry is not a dict or its score is not a number; otherwise it is no longer than the reply (its contents and order are stated by the next two rows) |
| Evaluator.ShortlistMapped | src/agents/evaluator_agent.py:62-73 | the shortlist raises exactly when the `min_score` filter of the reply raises, and is otherwise that filter with contact details attached to each entry |
| Evaluator.ShortlistInOrder | src/agents/evaluator_agent.py:62-73 | entry k of the shortlist is the reply entry at the k-th position that reaches `min_score`, with its contact details: the filter in reply order, with multiplicity |
| Evaluator.ShortlistMembers | src/agents/evaluator_agent.py:63-73 | every shortlisted entry reaches `min_score` and is a reply entry that reaches it, with contact details; every entry of the reply that reaches it is shortlisted with its contact details |
| Evaluator.CollectShortlist | src/agents/evaluator_agent.py:62-73 | the loop computes `ShortlistOf` |
| Evaluator.RanksConsecutive | src/agents/evaluator_agent.py:79-80 | entry i gets `rank` i+1; no other key changes, and the score does not change |
| Evaluator.AssignRanks | src/agents/evaluator_agent.py:79-80 | the rank loop writes rank i+1 into entry i, in place |
| Evaluator.RankedInOrder | src/agents/evaluator_agent.py:79-80 | writing ranks into an ordered list keeps it ordered by score and keeps each entry above `min_score` |
| Evaluator.SortedAndRanked | src/agents/evaluator_agent.py:76-80 | sorting and ranking: ordered highest score first, ranked 1..n, same entries as before (a permutation), and entries with equal scores in their earlier order |
| Evaluator.MainShortlist | src/agents/evaluator_agent.py:31-92 | when the main path succeeds, the result is the sorted, ranked shortlist with the reply's `summary` and the two counts; the shortlist before sorting is the reply's qualifying entries in reply order, each with its contact details |
| Evaluator.RankedShortlist | src/agents/evaluator_agent.py:62-92 | whatever the reply, a ranked result reaches `min_score` throughout, is ordered by score, is ranked 1..n, and counts every screening and its own length |
| Evaluator.FallbackEntry | src/agents/evaluator_agent.py:101-109 | a fallback entry is built exactly when `strengths[:3]` can be taken (a list or a string) |
| Evaluator.EntryOfLookups | src/agents/evaluator_agent.py:101-109 | a fallback entry reads back its score, rank and strengths |
| Evaluator.FallbackEntryFields | src/agents/evaluator_agent.py:101-109 | a fallback entry carries its rank and the score of its screening, and at most three strengths |
| Evaluator.TopTen | src/agents/evaluator_agent.py:97-100 | the top ten holds min(10, n) entries |
| Evaluator.TopTenOrdered | src/agents/evaluator_agent.py:96-100 | the top ten is the start of the sorted list, ordered by score, each entry reaching `min_score` |
| Evaluator.FallbackEntryAt | src/agents/evaluator_agent.py:100-109 | the i-th fallback entry comes from the i-th of the top ten and has rank i+1 |
| Evaluator.FallbackEntriesOrdered | src/agents/evaluator_agent.py:99-109 | the fallback entries keep the top ten's order and scores, are ranked 1..k and hold at most three strengths each |
| Evaluator.TopTenEntries | src/agents/evaluator_agent.py:96-109 | the fallback entries are min(10, n) entries built from the best qualifying screenings, ordered and ranked |
| Evaluator.FallbackShortlist | src/agents/evaluator_agent.py:94-120 | the fallback result has at most ten entries: the first of the qualifying screenings sorted by score; ordered, ranked 1..k, each reaching `min_score` with at most three strengths, and counted |
| Evaluator.FallbackRanking | src/agents/evaluator_agent.py:94-120 | the `except` block's loop computes the fallback result |
| Evaluator.RankMain | src/agents/evaluator_agent.py:31-92 | the `try` block, step by step, computes the main path |
| Evaluator.EvaluateAndRank | src/agents/evaluator_agent.py:14-120 | `evaluate_and_rank` is the main path, or the fallback when the main path raises |
| Scores.ScoreOf | src/agents/evaluator_agent.py:64 | `get('match_score', 0)` in a comparison: 0 when absent; raises exactly when the score is not a number (a bool counts as 0/1) |
| Scores.ScoreAfterPut | src/agents/evaluator_agent.py:71-72 | writing `email`, `phone` or `rank` leaves the score unchanged |
| StableSort.SortDescOrdered | src/agents/evaluator_agent.py:76 | the sort's result is ordered highest key first and is a permutation of its input |
| StableSort.SortDescStable | src/agents/evaluator_agent.py:97 | the sort is stable: for each key, the entries with that key keep their relative order |
| StableSort.InsertSorted | src/agents/evaluator_agent.py:76 | inserting into an ordered list keeps it ordered and adds exactly the inserted entry |
| Screener.FormatJobRequirements | src/agents/resume_screener_agent.py:105-124 | the requirements text: one line per present key, the lines joined by newlines |
| Screener.RequirementLines | src/agents/resume_screener_agent.py:107-124 | for a dict, one line per key present among role_type, required_skills, preferred_skills, experience_required and education_required, in that order, each "<heading>: <value>"; an empty dict gives "" |
| Screener.Failure | src/agents/resume_screener_agent.py:65-71 | the `except` record is always a failure record |
| Screener.EnrichedLookup | src/agents/resume_screener_agent.py:54-58 | the five keys written get the candidate's details, and every other key of the reply is kept |
| Screener.Screen | src/agents/resume_screener_agent.py:13-71 | `screen_candidate`, step by step, computes the screening |
| Screener.ScreenedIsEnriched | src/agents/resume_screener_agent.py:28-63 | a successful screening comes from a dict candidate whose details format and a dict reply; the result is that reply enriched with the details |
| Screener.ScreenedFields | src/agents/resume_screener_agent.py:54-58 | a successful screening holds name, email, phone, target role and years (email and phone '' when missing), and every other reply key unchanged |
| Screener.FailedName | src/agents/resume_screener_agent.py:69 | a failure record names `personalInfo.firstName`, or 'Unknown' when there is none |
| Screener.ScreenRaises | src/agents/resume_screener_agent.py:28-71 | screening raises exactly when the candidate, or its `personalInfo`, is not a dict |
| Screener.ScreenedWhenFormatted | src/agents/resume_screener_agent.py:28-63 | once the details and the requirements format, every dict reply gives a successful, enriched screening |
| Screener.ScreenedWhenWellShaped | src/agents/resume_screener_agent.py:28-63 | a candidate of the expected shape, requirements that format and a dict reply always give a successful screening |
| Screener.PlaceholderFields | src/agents/resume_screener_agent.py:96-101 | the batch entry of a failed screening has the name, score 0 and recommendation 'error' |
| Screener.ScreenCandidatesBatch | src/agents/resume_screener_agent.py:73-103 | the batch loop computes the batch |
| Screener.BatchOnePerCandidate | src/agents/resume_screener_agent.py:88-103 | the batch has one entry per candidate, in input order: the screening or its placeholder |
| Screener.PlaceholderNotRanked | src/agents/resume_screener_agent.py:98 | a placeholder (score 0) never passes the evaluator's filter for positive scores |
| Requirements.PartText | src/agents/resume_screener_agent.py:110 | a requirement line starts with its heading and ": " |
| Requirements.AppendPart | src/agents/resume_screener_agent.py:109-122 | one `if key in req: parts.append(...)` step appends at most that key's line, or raises |
| Requirements.FormatParts | src/agents/resume_screener_agent.py:105-124 | the sequence of checks followed by the join computes the text |
| Requirements.LinesOfDict | src/agents/resume_screener_agent.py:107-124 | for a dict, exactly one line per part whose key is present, in part order, made from the stored value |
| Requirements.LinesOfDictRaise | src/agents/resume_screener_agent.py:109-122 | for a dict, formatting raises exactly when a present value cannot be shown (a join over non-strings) |
| Requirements.EmptyText | src/agents/resume_screener_agent.py:124 | an empty dict gives the empty string |
| Requirements.FirstListedText | src/agents/intake_agent.py:60 | `", ".join(v[:n])` on a list joins its first n items at most, all strings |
| Intake.ProcessJobDescription | src/agents/intake_agent.py:13-50 | `process_job_description`, with the backfill loop, computes the intake |
| Intake.FillDict | src/agents/intake_agent.py:35-37 | filling one field: it is present afterwards, with its old value or its default; nothing else changes; a missing key goes at the end |
| Intake.BackfillTwo | src/agents/intake_agent.py:34-37 | the backfill fills `required_skills`, then `role_type` |
| Intake.BackfillDict | src/agents/intake_agent.py:34-37 | for a dict reply, both fields are present afterwards: `[]` and "Not specified" when missing, the old value otherwise; other keys unchanged; key order kept |
| Intake.ExtractedDict | src/agents/intake_agent.py:34-43 | a dict reply always gives a successful intake with both fields and the description as given |
| Intake.NonDictReply | src/agents/intake_agent.py:34-37 | a reply that is not a dict is never written to: it passes only when it already contains both names, and fails otherwise |
| Intake.RenderedOutcome | src/agents/intake_agent.py:39-50 | a failed request gives `success` False and `job_requirements` None; a successful intake gives `success` True and the requirements |
| Intake.GetRequirementSummary | src/agents/intake_agent.py:52-66 | the summary method computes the summary |
| Intake.SummaryOfDict | src/agents/intake_agent.py:52-66 | for a dict, one part per key present among role_type, required_skills and experience_required, in that order, joined by " \| "; an empty dict gives "" |
| Intake.SummarySkills | src/agents/intake_agent.py:59-61 | the skills part shows at most the first five skills |
| CandidateInfo.EducationLine | src/utils/helpers.py:31 | an education line is made exactly when the entry is a dict |
| CandidateInfo.ExperienceLine | src/utils/helpers.py:38 | an experience line is made exactly when the entry is a dict |
| CandidateInfo.FormatLines | src/utils/helpers.py:29-40 | the education and experience loops yield one line per entry, in order |
| CandidateInfo.GatherSkills | src/utils/helpers.py:43-47 | the skills loop collects the categories' lists, category by category |
| CandidateInfo.FormatCandidateInfo | src/utils/helpers.py:24-62 | `format_candidate_info`, step by step, computes the record |
| CandidateInfo.InfoNeedsPersonalDict | src/utils/helpers.py:55 | formatting succeeds only when `personalInfo` is a dict or absent |
| CandidateInfo.EducationLinesText | src/utils/helpers.py:33 | education lines join to "Not specified" exactly when there are no entries |
| CandidateInfo.EducationText | src/utils/helpers.py:29-33 | `education` is "Not specified" exactly when there are no entries; otherwise it is the lines joined by "; " |
| CandidateInfo.ExperienceLinesText | src/utils/helpers.py:40 | experience lines join to "Not specified" exactly when there are no entries |
| CandidateInfo.ExperienceText | src/utils/helpers.py:36-40 | `experience` is "Not specified" exactly when there are no entries; otherwise it is the lines joined by "; " |
| CandidateInfo.CategoryOfDict | src/utils/helpers.py:46-47 | a category of a skills dict gives its list, or nothing when it is absent or not a list |
| CandidateInfo.CollectFromDict | src/utils/helpers.py:43-47 | for a skills dict, collection never raises and concatenates the categories' lists in order |
| CandidateInfo.ListsUnderPut | src/utils/helpers.py:45 | a key outside the five categories (`testing`, for example) has no effect on the collected skills |
| CandidateInfo.SkillsTextOf | src/utils/helpers.py:48 | the skills text is "Not specified" when nothing is collected, and otherwise the skills joined by ", " |
| CandidateInfo.CertificationsOfList | src/utils/helpers.py:51-52 | certifications are "None" for an empty list, and otherwise the names joined by ", "; a name that is not a string raises |
| CandidateInfo.SkillsField | src/utils/helpers.py:43-48 | the record's `skills`: for a skills dict, "Not specified" when the five categories hold no list items, otherwise their items in category order joined by ", "; "Not specified" without a `skills` key |
| CandidateInfo.CertificationsField | src/utils/helpers.py:51-52 | the record's `certifications`: "None" when the stored value is falsy or absent, otherwise its strings joined by ", "; for a list, "None" when empty and the join when not |
| CandidateInfo.NameAndDefaults | src/utils/helpers.py:55-57 | the name is the first and last name joined by a space; the target role defaults to "Not specified"; the years default to "0" and are otherwise the number's text |
| CandidateInfo.EntriesFormat | src/utils/helpers.py:29-40 | a list of dict entries always formats |
| CandidateInfo.InfoFromParts | src/utils/helpers.py:24-62 | the record is produced when every part is |
| CandidateInfo.WellShapedSkills | src/utils/helpers.py:43-48 | skills of the expected shape always collect and join |
| CandidateInfo.WellShapedCertifications | src/utils/helpers.py:51-52 | a list of string certifications always joins |
| CandidateInfo.WellShapedFormats | src/utils/helpers.py:24-62 | a candidate of the expected shape is always formatted |
| Skills.Target | migrateData.js:86-96 | arrays nested in a theme go to cloud, programming or tools, by the theme's name |
| Skills.ObjectLookup | migrateData.js:47-54 | the output object has the six categories in order, each reading back its array |
| Skills.CleanAll | migrateData.js:103-107 | every category is de-duplicated and filtered |
| Skills.PassedThrough | migrateData.js:59-67 | on the flat path each category is the input's value when truthy, and `[]` otherwise |
| Skills.FlattenSkills | migrateData.js:46-110 | `flattenSkills`, with its loops, computes the flattening |
| Skills.AddTheme | migrateData.js:83-98 | each array nested in a theme object is appended to the theme's target |
| Skills.CleanEach | migrateData.js:103-107 | the final loop replaces each category by its cleaned array |
| Skills.FalsyGivesEmpty | migrateData.js:56 | falsy skills give six empty arrays |
| Skills.FlatPassesThrough | migrateData.js:59-67 | a flat skills object is returned as given, category by category, with no de-duplication or filtering; a falsy category becomes `[]` |
| Skills.FlatIsObject | migrateData.js:59 | only an object can take the flat path |
| Skills.NestedPath | migrateData.js:71-109 | on the nested path each category is the cleaned concatenation of what was routed to it; frameworks, databases and testing stay empty |
| Skills.GatherKeeps | migrateData.js:71-100 | nothing is ever routed to frameworks, databases or testing |
| Skills.AddNestedKeeps | migrateData.js:83-98 | a theme object adds nothing to frameworks, databases or testing |
| Skills.AddNestedMembers | migrateData.js:83-98 | a theme adds to category k exactly the items of its nested arrays, and only when k is its target |
| Skills.AddEntryMembers | migrateData.js:72-99 | one top-level entry adds to category k exactly what it routes there |
| Skills.GatherMembers | migrateData.js:71-100 | a skill lands in category k exactly when some entry routes it there |
| Skills.DedupSpec | migrateData.js:104 | `[...new Set(xs)]` holds every value of xs once, in order of first occurrence |
| Skills.KeepNonBlankMembers | migrateData.js:104-106 | the filter keeps exactly the non-blank strings |
| Skills.KeepNonBlankUnique | migrateData.js:104-106 | filtering keeps an array free of duplicates |
| Skills.KeepNonBlankSpec | migrateData.js:104-106 | filtering keeps the order of first occurrence |
| Skills.CleanSpec | migrateData.js:103-107 | a cleaned array holds each non-blank string of the input exactly once, in order of first occurrence, and nothing else |
| Skills.NestedObject | migrateData.js:71-109 | for a nested skills object, each category holds exactly the non-blank strings some entry routes to it, once each, in order of first appearance |
| Skills.FlattenedArrays | migrateData.js:46-110 | as written, the output has the six categories, and a category is an array unless it is a truthy non-array of a flat input |
| Skills.PassedThroughStrict | migrateData.js:59-67 | corrected flat path: every category is an array, namely the input's array or `[]` |
| Skills.FlattenedStrictArrays | migrateData.js:59-67 | the corrected flattening always gives six arrays, and it equals the one as written on inputs without a malformed category |
| Migrate.EducationOf | migrateData.js:131-139 | an education entry normalises exactly when it is not null; degree, field, institution and both dates are the entry's when truthy and "" otherwise, `gpa` the entry's when truthy and null otherwise, `honors` the entry's array or [] |
| Migrate.ExperienceOf | migrateData.js:140-146 | an experience entry normalises exactly when it is not null; title, company, start date and description are the entry's when truthy and "" otherwise, and the end date is the entry's when truthy and null otherwise |
| Migrate.NormalizeCandidate | migrateData.js:115-164 | `normalizeCandidate`: builds the record, then adds the optional fields in place |
| Migrate.CandidateLookups | migrateData.js:116-153 | the written record reads back each of its fields |
| Migrate.EducationRaises | migrateData.js:131-139 | mapping education throws exactly when the array holds a null |
| Migrate.ExperienceRaises | migrateData.js:140-146 | mapping experience throws exactly when the array holds a null |
| Migrate.NormalizedRaises | migrateData.js:115-153 | normalising throws exactly when the record is null, or when an education or experience array holds a null |
| Migrate.NormalizedEntries | migrateData.js:131-146 | one normalised education or experience entry per input entry, in order; none when the input is not an array |
| Migrate.NormalizedFields | migrateData.js:147-161 | the defaults: flattened skills; certifications only from an array; status "pending"; years the input number or 0; targetRole and applicationDate the input's when truthy and "" otherwise; personalInfo as `PersonalDefaults` states; `projects` the input's array when it is one and absent otherwise |
| Migrate.PersonalDefaults | migrateData.js:117-130 | each of the ten personal details (first and last name, email, phone, city, state, country, date of birth, linkedin, github) is the input's when truthy, and "" otherwise; portfolio only when truthy, with the input's value; a falsy personalInfo gives all defaults |
| Migrate.NormalizedSkills | migrateData.js:147 | the normalised skills always have the six categories; with the corrected flattening each is an array |
| Validate.Messages | migrateData.js:172-189 | one message per issue, in order |
| Validate.ValidateStructure | migrateData.js:169-192 | `validateStructure` throws exactly on null; otherwise it reports the messages of the failing checks in order, and `valid` holds exactly when there is no issue |
| Validate.CheckProperties | migrateData.js:170-189 | the checks in order push exactly the issues of the failing checks |
| Validate.CheckSkillsStructure | migrateData.js:178-185 | with truthy skills, each category that is not an array pushes its issue, in category order |
| Validate.SkillsChecksSkipped | migrateData.js:178 | without skills, no category check reports |
| Validate.ReportedOrder | migrateData.js:172-189 | issues come in check order |
| Validate.ReportedEmpty | migrateData.js:191 | nothing is reported exactly when no check failed |
| Validate.ReportedMembers | migrateData.js:172-189 | an issue is reported exactly when its check fails |
| Validate.IssuesSpec | migrateData.js:169-192 | valid exactly when every check passes; each issue is reported exactly when its check fails; issues come in check order |
| Validate.WrittenFails | migrateData.js:172-189 | on a standard record, the personalInfo and yearsOfExperience checks never fail; each other check fails on its field |
| Validate.NormalizedReads | migrateData.js:116-153 | a normalised record has an object personalInfo and a number for years; its education, experience, targetRole and applicationDate pass exactly when the input's do |
| Validate.SkillsObjectFails | migrateData.js:179-184 | when skills is an object, category m fails exactly when it is not an array |
| Validate.NormalizedIssues | migrateData.js:169-192 | as written, a normalised record fails the checks of the input's education, experience, targetRole and applicationDate, plus one skills check per malformed flat category |
| Validate.StrictNormalizedIssues | migrateData.js:169-192 | with the corrected flattening, a normalised record fails exactly the input's education, experience, targetRole and applicationDate checks |
| Validate.MalformedStaysInvalid | migrateData.js:59-67 | a truthy non-array category of flat skills is still reported after normalisation as written, and not after the corrected one |
| Validate.FrameworksMessage | migrateData.js:180 | the frameworks issue reads "skills.frameworks must be an array" |
| Validate.FlatWithStringNormalizes | migrateData.js:59-67 | `{"skills": {"programming": [], "frameworks": s}}` normalises both ways, and its frameworks category is malformed |
| Validate.FlatWithStringStaysInvalid | migrateData.js:59-67 | for that record (s non-empty), "skills.frameworks must be an array" is still reported after normalisation as written, and not after the corrected one |

## Left out

- The language-model calls are not modelled: the prompts
  (`src/prompts/agent_prompts.py`), the provider, and
  `extract_json_from_response`. Each reply is an input `Result<Json>`.
- `calculate_overall_score` is not modelled. It uses floating-point
  weights, and nothing in the core calls it.
- The Flask application (`app.py`), the browser scripts under `static/`,
  and the driver `processAllCandidates` are not modelled. The driver does
  file I/O, backups and console output. `candidateInterface.js` serves
  only as the shape of the standard record.
- Exception text (`str(e)`) is not modelled:
  - Screener.PlaceholderFields: the `error` field of a placeholder is
    left empty.
  - Intake.RenderedOutcome: the `error` field of a failure is left
    empty.
  - The fallback result carries no `error`.
- Evaluator.EvaluateAndRank: the constant summary texts are not modelled
  ('No valid candidates found for evaluation', 'Fallback ranking used
  due to evaluation error'), and neither is the debug `print`. Only the
  counts and lists are modelled.
- Evaluator.FormatScreeningResults: returns the list of summary dicts,
  not its `json.dumps` text.
- Numbers are integers. JSON fractions, NaN and float comparisons are
  not modelled, so a fractional `match_score` cannot be expressed. A bool
  compares as 0/1.
- Python.Repr: `str()` of a non-string value is a fixed rendering.
  Strings inside it always take single quotes with no escaping. Python
  switches to double quotes for a string that contains `'` and escapes
  special characters; neither is reproduced. Every user of `Python.Str`
  inherits this:
  - CandidateInfo.NameAndDefaults (the name and years text);
  - CandidateInfo.EducationLine and CandidateInfo.ExperienceLine (the
    f-string lines);
  - the plain requirement lines of Requirements.PartText.
- Skills.DedupSpec: `new Set` compares objects by identity. The model
  compares by value. Only strings survive the filter that follows, so
  the cleaned arrays are the same.
- Js.Entries: keeps every key of an object in insertion order. JavaScript
  lists integer-like keys first, in ascending order, and that reordering
  is not modelled. An object parsed with a duplicate key keeps only the
  last value in JavaScript. The model reads the first occurrence.
- Evaluator.FindOriginal: the match uses structural equality of JSON
  values in place of Python `==`. Python also finds a match where
  `True == 1`, or where two dicts hold the same keys in a different order.
  Both differ from the model only for names that are not strings.
- Python.Get: reads the first occurrence of a key. `json.loads` keeps
  the last value of a duplicate key, so a reply parsed from text with a
  repeated key is read differently. The model takes the parsed reply as
  an input and does not model the parse.
- Validate.ValidateStructure: the issues are an `Issue` datatype, mapped
  to the source's exact strings by `Message`.

## Findings

| source | as written | input that shows it | evidently intended | confidence | as-written member | corrected member |
|---|---|---|---|---|---|---|
| migrateData.js:59-67 | when `skills.programming` is an array, the other categories are passed through with `x \|\| []`, so a truthy category that is not an array (a string, an object) survives normalisation, and `validateStructure` still reports "skills.<category> must be an array" for the migrated record | `{"skills": {"programming": [], "frameworks": "react"}}` | a category that is not an array becomes `[]`, so every normalised record passes the six skills checks | not executed | Validate.FlatWithStringStaysInvalid | Validate.StrictNormalizedIssues |

The corrected flattening is `Skills.FlattenedStrict`, with
`Skills.FlattenedStrictArrays` proved about it: it always yields six
arrays, and it agrees with the code as written on every input without a
malformed category. `Migrate.NormalizedStrict` normalises with it, and
`Validate.StrictNormalizedIssues` proves that a record normalised this
way fails only the checks its input fails on education, experience,
targetRole and applicationDate. `Migrate.NormalizeCandidate` still models
the script as written.

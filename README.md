# Resume parser pipeline — a verified Dafny model

This project models the data pipeline of an AI resume parser and builder. The
system has three parts:

- **The upload page.** It extracts the text of a PDF page by page and rejects
  text that is blank or does not look like a resume. It then sends the file to
  a parsing service and checks the shape of the reply before it opens the
  builder.
- **The builder page.** It maps the service's untyped JSON payload onto a
  resume record and lets the user edit tags and entries. It derives the first
  job year, the total experience and the current company. It scores the record
  against an eight-criterion rubric and prepares an email with a padded summary
  table and tag-stripped text.
- **The Python formatter.** It normalises loosely typed fields into text:
  skills given as a string, list or dict, work experience, certifications and
  education. It then substitutes ten `{PLACEHOLDER}`s in a text or docx
  template.

The files:

- `wrappers.dfy`: `Option` and `Result`.
- `json.dfy`: JSON values, key lookup and JavaScript truthiness.
- `text.dfy`: trim and strip, lower-casing, splitting, joining, padding.
- `resume_record.dfy`: the record, its tag lists and entry lists.
- `field_mapping.dfy`: the payload mapping.
- `record_edits.dfy`: the tag and entry edits.
- `scoring.dfy`: the rubric.
- `derived_metrics.dfy`: the year scan, the experience and the current company.
- `upload_gate.dfy`: the keyword test, page concatenation and the decision chain.
- `email_helpers.dfy`: the tag stripper, the cells, the subject and the body.
- `resume_formatter.dfy`: the backend formatter.

Each `*Properties` module holds the lemmas about its module.

Where the source changes state step by step, the model is a method proved equal to a specification
function: `calculateScore` (`Scoring.CalculateScore`), the page loop
(`UploadGate.ExtractText`), the early-return chain of `handleProceed`, the
skills loop, the nested `+=` loops of `_format_work_experience` and the
replacement loop of `format_resume_txt`. The list edits `deleteItem` and
`handleNestedChange`, which copy a list and change the copy, are methods
that state the new record outright. The rest are functions.

## Model

| member | source | states |
|---|---|---|
| FieldMapping.TextField | frontend/src/ResumeBuilder.jsx:44-50 | `v[key] \|\| ''`: a falsy or missing value gives `""`, a string gives itself, and it fails exactly when the value is truthy and not a string |
| FieldMapping.CommaTokens | frontend/src/ResumeBuilder.jsx:51-52 | one trimmed token per comma-separated piece, in order, with empty tokens kept: there are as many tokens as commas plus one |
| FieldMapping.TagsField | frontend/src/ResumeBuilder.jsx:51-52 | a missing or falsy value gives `[]`; a string gives one trimmed token per comma piece, as many as commas plus one; it fails, naming the key, exactly when the value is truthy and not a string |
| FieldMapping.EducationField | frontend/src/ResumeBuilder.jsx:53-55 | never fails: a missing or falsy value gives `[]`; any truthy value, a string or the parser's list of objects alike, gives exactly one entry whose `school` is that value and whose `degree`, `gpa`, `date` and `info` are `''`, with no other keys |
| FieldMapping.WorkEntry | frontend/src/ResumeBuilder.jsx:56-61 | a work element becomes an entry with exactly the keys company, title, date and description, each a string taken from `company_name`, `role_name`, `project_duration` and `project_description` (missing or falsy ones `''`); it fails exactly on a null element or a truthy non-string field |
| FieldMapping.WorkEntries | frontend/src/ResumeBuilder.jsx:56-61 | the element-wise map: the same length as the input, entry `i` is the mapping of element `i`, and a failure names an element that fails |
| FieldMapping.WorkField | frontend/src/ResumeBuilder.jsx:56-61 | anything but an array gives `[]`; an array gives one entry per element, entry `i` the mapping of element `i`, and fails exactly when some element is null or has a non-text field |
| FieldMapping.MapPayload | frontend/src/ResumeBuilder.jsx:43-63 | every record field is the mapping of its aliased payload key (`full_name`→name, `designation`→title, …), `education` whatever its value, and `projects` is always empty |
| FieldMappingProperties.MapEmptyPayload | frontend/src/ResumeBuilder.jsx:43-63 | an empty payload, or one that is not an object, maps to the empty record: scalars `''`, all lists empty |
| FieldMappingProperties.MapTextualPayloadSucceeds | frontend/src/ResumeBuilder.jsx:43-63 | the mapping never fails on a payload whose text, tag and work fields are absent, falsy or strings and whose work elements are not null; `education` may hold anything |
| FieldMappingProperties.WorkEntriesSucceed | frontend/src/ResumeBuilder.jsx:56-61 | the element-wise map succeeds when every element is a non-null object of text fields |
| FieldMappingProperties.MapTagTokens | frontend/src/ResumeBuilder.jsx:51-52 | a non-empty skills or certifications string maps to its comma pieces, trimmed and in order, one more than its commas, whatever the other fields hold; a successful mapping stores exactly those tags; joining the pieces with commas gives the string back |
| FieldMappingProperties.MapTagsAbsent | frontend/src/ResumeBuilder.jsx:51-52 | an absent or falsy skills or certifications value gives `[]` without failing, and a successful mapping stores no tags |
| FieldMappingProperties.MapEducationEntry | frontend/src/ResumeBuilder.jsx:53-55 | any truthy education value gives exactly one entry: `school` is that value; `degree`, `gpa`, `date` and `info` are `''`; there are no other keys; a successful mapping stores that entry |
| FieldMappingProperties.MapParsedEducation | frontend/src/ResumeBuilder.jsx:53-55 | the parser's shape, a list of education objects, maps without error to the empty record with one education entry whose `school` is that list |
| FieldMappingProperties.MapWorkEntries | frontend/src/ResumeBuilder.jsx:56-61 | an array `work_experience` fails exactly when some element is null or holds a truthy non-string field; otherwise it maps to a list of the same length whose entry `i` holds the four aliased strings of element `i`, and a successful mapping stores that list as the record's work |
| FieldMappingProperties.MapWorkNotArray | frontend/src/ResumeBuilder.jsx:56 | a `work_experience` that is not an array gives no entries without failing, and a successful mapping stores no work |
| ResumeRecord.WithTags | frontend/src/ResumeBuilder.jsx:89 | `{ ...prev, [type]: s }`: that tag list becomes `s`, and every other list and scalar field is kept |
| ResumeRecord.WithItems | frontend/src/ResumeBuilder.jsx:99 | `{ ...prev, [field]: s }`: that entry list becomes `s`, and every other list and scalar field is kept |
| RecordEdits.AddTag | frontend/src/ResumeBuilder.jsx:87-92 | a blank input leaves the record unchanged; otherwise the trimmed, non-empty input is appended to that list only |
| RecordEdits.RemoveTag | frontend/src/ResumeBuilder.jsx:94-96 | every element equal to the value is gone, every other element's count is unchanged, the result is a subsequence (order kept), and only that list changes |
| RecordEdits.AddItem | frontend/src/ResumeBuilder.jsx:98-100 | the entry is appended to that list only |
| RecordEdits.DeleteItem | frontend/src/ResumeBuilder.jsx:102-106 | `splice(index, 1)` on a copy: only that list changes; a valid index removes exactly one element; an index past the end changes nothing (negative indices count from the end, as in `Sequences.Spliced`) |
| RecordEdits.HandleNestedChange | frontend/src/ResumeBuilder.jsx:108-112 | for an index inside the list, only key `key` of entry `index` changes, to the typed string (added if missing); all other entries, keys and fields are kept; an index outside the list is the page's TypeError (`None`) |
| RecordEditProperties.RemoveUndoesAdd | frontend/src/ResumeBuilder.jsx:87-96 | removing a freshly added tag that was not already listed restores the record |
| RecordEditProperties.RemoveTagIdempotent | frontend/src/ResumeBuilder.jsx:94-96 | removing a tag twice is removing it once |
| RecordEditProperties.DeleteUndoesAdd | frontend/src/ResumeBuilder.jsx:98-106 | the record `deleteItem` stores for the index of the entry `addItem` just appended is the record before the append |
| Scoring.Award | frontend/src/ResumeBuilder.jsx:186-222 | a criterion never awards more than its maximum, and it adds a suggestion exactly when it falls short of that maximum |
| Scoring.TipOf | frontend/src/ResumeBuilder.jsx:186-222 | each criterion adds at most one suggestion, and none exactly when it awards full points |
| Scoring.Score | frontend/src/ResumeBuilder.jsx:182-226 | the total lies in [0, 100], there are at most eight suggestions, and the total is 100 exactly when there are none |
| Scoring.ScoreCriterion | frontend/src/ResumeBuilder.jsx:186-222 | one block of the accumulator adds that criterion's points to `total` and appends its suggestion, if any, to `tips` |
| Scoring.CalculateScore | frontend/src/ResumeBuilder.jsx:182-226 | the accumulator ends with the rubric's total and its suggestions in the order name, title, summary, skills, certifications, education, work, photo |
| ScoringProperties.EmptyRecordScore | frontend/src/ResumeBuilder.jsx:182-226 | the empty record without a photo scores 0 and gets all eight suggestions in rubric order |
| ScoringProperties.SkillSteps | frontend/src/ResumeBuilder.jsx:200-207 | skills give 0 for none, 8 for one to four and 15 from five on; going from four to five adds 7, and a sixth adds nothing |
| ScoringProperties.SkillsOnlyChange | frontend/src/ResumeBuilder.jsx:200-207 | changing only the skills list changes the total only by the change in the skills criterion |
| ScoringProperties.FifthSkillAddsSeven | frontend/src/ResumeBuilder.jsx:200-207 | adding a fifth skill through `addTag` raises the score by 7 |
| ScoringProperties.SixthSkillAddsNothing | frontend/src/ResumeBuilder.jsx:200-207 | with five or more skills, `addTag` on skills leaves the score unchanged |
| ScoringProperties.SummaryThresholds | frontend/src/ResumeBuilder.jsx:192-198 | the summary gives 0 when empty, 10 below 250 raw characters and 20 from 250 on |
| ScoringProperties.WorkCriterion | frontend/src/ResumeBuilder.jsx:215-219 | the work criterion gives 20 exactly when some description is longer than 100 raw characters, and 0 exactly when none is |
| DerivedMetrics.YearValue | frontend/src/ResumeBuilder.jsx:138 | `parseInt` of a matched `19dd`/`20dd` token lies in [1900, 2099] |
| DerivedMetrics.MatchYear | frontend/src/ResumeBuilder.jsx:137 | the leftmost index where `\b(19\|20)\d{2}\b` matches, or none when it matches nowhere |
| DerivedMetrics.JobYear | frontend/src/ResumeBuilder.jsx:136-139 | the first year token in an entry's date, as a number in [1900, 2099], or none |
| DerivedMetrics.JobYears | frontend/src/ResumeBuilder.jsx:135-139 | the `map`: one found year (or none) per entry, in order |
| DerivedMetrics.Earliest | frontend/src/ResumeBuilder.jsx:140-141 | `filter(Boolean)` then `Math.min`: none exactly when every entry is none; otherwise a found year that is no larger than any other found year |
| DerivedMetrics.FirstJobYear | frontend/src/ResumeBuilder.jsx:134-142 | none exactly when no date holds a year; otherwise the year of some entry, no later than any entry's year |
| DerivedMetrics.Earlier | frontend/src/ResumeBuilder.jsx:141 | the smaller of two possibly missing years, missing only when both are |
| DerivedMetrics.TotalExperience | frontend/src/ResumeBuilder.jsx:144-146 | `currentYear − firstJobYear` when a first year exists, else `'N/A'` |
| DerivedMetrics.FindCurrent | frontend/src/ResumeBuilder.jsx:147 | `find`: the first entry whose lower-cased date contains `present`, or none when no entry's does |
| DerivedMetrics.CurrentCompany | frontend/src/ResumeBuilder.jsx:147 | the company of the first current entry; `'N/A'` when there is none or its company is empty (a later current entry is not used) |
| DerivedMetricsProperties.FirstJobYearAppend | frontend/src/ResumeBuilder.jsx:134-142 | appending an entry combines its year with the earlier first year by `Math.min`, so the first year never gets later |
| DerivedMetricsProperties.GluedYearIgnored | frontend/src/ResumeBuilder.jsx:137 | a year glued to a letter (`Q2020`) is not a word-bounded token and is not found |
| DerivedMetricsProperties.LeadingYear | frontend/src/ResumeBuilder.jsx:137-138 | a date that starts with a year token yields that year |
| DerivedMetricsProperties.AcmeYear | frontend/src/ResumeBuilder.jsx:137-138 | `2020-Present` yields 2020 |
| DerivedMetricsProperties.InitechYear | frontend/src/ResumeBuilder.jsx:137-138 | `2015-2019` yields 2015 (the first token, not the second) |
| DerivedMetricsProperties.FirstOfTwo | frontend/src/ResumeBuilder.jsx:134-142 | for two entries with years 2020 and 2015, the first year is 2015 |
| DerivedMetricsProperties.TwoJobsFirstYear | frontend/src/ResumeBuilder.jsx:134-146 | the two sample entries start in 2015, which is ten years of experience in 2025 |
| DerivedMetricsProperties.TwoJobsCurrentCompany | frontend/src/ResumeBuilder.jsx:147 | the current company of the two sample entries is the one dated `Present` |
| UploadGate.Found | frontend/src/ResumeUpload.jsx:37 | the filter keeps only keywords that occur in the text |
| UploadGate.PagesText | frontend/src/ResumeUpload.jsx:48-54 | zero pages give `''` |
| UploadGate.ExtractText | frontend/src/ResumeUpload.jsx:48-55 | the loop produces each page's items joined with `' '`, each followed by `'\n'`, with pages in order |
| UploadGate.ResponseOutcome | frontend/src/ResumeUpload.jsx:96-109 | navigation happens exactly for an ok reply whose body is an object, and with that body; a non-ok status is a server error; a non-object body is an invalid response; a failed request or an undecodable body is a failure |
| UploadGate.HandleProceed | frontend/src/ResumeUpload.jsx:69-109 | in this order: no file does nothing; failed extraction fails; blank text is reported empty; a non-resume is rejected. The request is issued exactly when the text is non-blank and resume-like, and then the reply decides the outcome |
| UploadGateProperties.CaseInsensitive | frontend/src/ResumeUpload.jsx:37 | the test judges a text and its lower-cased form alike |
| UploadGateProperties.FoundCount | frontend/src/ResumeUpload.jsx:37-38 | the filter keeps exactly as many keywords as there are keyword indices occurring in the text |
| UploadGateProperties.ThreeOfNine | frontend/src/ResumeUpload.jsx:32-39 | `isResumeText` (`UploadGate.IsResumeText`) holds exactly when at least three of the nine keywords occur in the lower-cased text |
| UploadGateProperties.FoundMonotone | frontend/src/ResumeUpload.jsx:37-38 | if every keyword found in one text is also found in a second, the second keeps at least as many |
| UploadGateProperties.Monotone | frontend/src/ResumeUpload.jsx:37-38 | matching is by substring, so a text that contains a resume-like text is resume-like |
| UploadGateProperties.PagesTextAppend | frontend/src/ResumeUpload.jsx:48-54 | the text of two runs of pages is the text of the first followed by the text of the second |
| UploadGateProperties.PagesTextSplit | frontend/src/ResumeUpload.jsx:48-54 | the text of the pages splits at any page boundary |
| UploadGateProperties.PagesTextAt | frontend/src/ResumeUpload.jsx:48-54 | the extracted text is the text before page `i`, then page `i` and a newline, then the text after it |
| UploadGateProperties.PageInText | frontend/src/ResumeUpload.jsx:48-54 | every page's text occurs in the extracted text |
| UploadGateProperties.ResumePageSuffices | frontend/src/ResumeUpload.jsx:32-55 | one resume-like page makes the whole document pass the test |
| EmailHelpers.AfterTag | frontend/src/utils/downloadAndPrepareEmail.js:6 | what follows the `>` that closes a tag, or nothing when no `>` follows (the `>` is optional in the pattern) |
| EmailHelpers.StripTags | frontend/src/utils/downloadAndPrepareEmail.js:6 | the result contains no `<` |
| EmailHelpers.StripHtmlTags | frontend/src/utils/downloadAndPrepareEmail.js:4-7 | a falsy input gives `''`; no result contains `<` |
| EmailHelpers.FormatCell | frontend/src/utils/downloadAndPrepareEmail.js:17-20 | the label padded with spaces to width 20 (a longer label is kept whole), then `": "`, then the value; the same helper appears at frontend/src/ResumeBuilder.jsx:152-155 |
| EmailHelpers.Subject | frontend/src/utils/downloadAndPrepareEmail.js:22 | `Resume of ` then the name, or `Candidate` when the name is empty |
| EmailHelpers.SkillsCell | frontend/src/utils/downloadAndPrepareEmail.js:33 | the skills joined with `', '`, uncut when at most 100 characters long and otherwise exactly its first 100 characters |
| EmailHelpers.ExperienceText | frontend/src/utils/downloadAndPrepareEmail.js:34 | `totalExperience + ' years'`: always ends in ` years` after a non-empty count; a year count is written as its decimal digits (`Text.IntToStringDecimal`) followed by ` years`; it reads `N/A years` when there is no first year |
| EmailHelpers.EmailLines | frontend/src/utils/downloadAndPrepareEmail.js:23-42 | the body template has eighteen lines |
| EmailHelpers.EmailBody | frontend/src/utils/downloadAndPrepareEmail.js:23-42 | the body opens with the greeting line `Hi,`; `BodyLines` states that it is the template lines joined with newlines |
| EmailHelpersProperties.StripPlain | frontend/src/utils/downloadAndPrepareEmail.js:6 | text without `<` is returned unchanged |
| EmailHelpersProperties.StripIdempotent | frontend/src/utils/downloadAndPrepareEmail.js:4-7 | stripping twice is stripping once |
| EmailHelpersProperties.StripSubsequence | frontend/src/utils/downloadAndPrepareEmail.js:6 | the output is a subsequence of the input, so it is no longer |
| EmailHelpersProperties.UnterminatedTag | frontend/src/utils/downloadAndPrepareEmail.js:6 | an unterminated `<` deletes the rest of the string |
| EmailHelpersProperties.StripPlainPrefix | frontend/src/utils/downloadAndPrepareEmail.js:6 | a prefix without `<` is kept as it is in front of the stripped rest |
| EmailHelpersProperties.ClosedTag | frontend/src/utils/downloadAndPrepareEmail.js:6 | a closed tag `<…>` is removed whole |
| EmailHelpersProperties.AfterTagPast | frontend/src/utils/downloadAndPrepareEmail.js:6 | the tag scan resumes right after the first `>` |
| EmailHelpersProperties.StripExample | frontend/src/utils/downloadAndPrepareEmail.js:4-7 | `<p>Hello <b>World</b></p>` becomes `Hello World` |
| EmailHelpersProperties.BodyLines | frontend/src/utils/downloadAndPrepareEmail.js:23-42 | when no line holds a newline, splitting `EmailBody` at newlines gives back the eighteen template lines in order |
| EmailHelpersProperties.ExperienceCellWithoutYear | frontend/src/utils/downloadAndPrepareEmail.js:34 | with no year in any date, the experience cell reads `N/A years` |
| ResumeFormatter.PyStr | backend/src/formatters/resume_formatter.py:50 | `str` and f-string insertion: a string as it is, `None` as `None` |
| ResumeFormatter.GetOr | backend/src/formatters/resume_formatter.py:88 | `d.get(key, default)`: the stored value when the key is present, else the default |
| ResumeFormatter.Kept | backend/src/formatters/resume_formatter.py:23 | the stripped pieces that are kept are non-empty, with no whitespace at either end, and never more than the pieces; `KeptOne` and `KeptAppend` pin down which are kept and in what order |
| ResumeFormatter.Pieces | backend/src/formatters/resume_formatter.py:22-23 | every kept piece of `s.split` is a non-empty stripped token; `PiecesOfJoin` states that the pieces of joined tokens are those tokens |
| ResumeFormatter.FlatSkills | backend/src/formatters/resume_formatter.py:8-24 | `None` gives `[]`; a list is returned unchanged; a boolean or number gives `[]` |
| ResumeFormatter.FlattenSkills | backend/src/formatters/resume_formatter.py:8-24 | the loop over the dict's values, which extends `flat`, yields the flattened skills |
| ResumeFormatter.JoinSkills | backend/src/formatters/resume_formatter.py:133 | `', '.join` succeeds exactly when every flattened skill is a string; `JoinSkillsStrs` states its value |
| ResumeFormatter.WorkExperienceText | backend/src/formatters/resume_formatter.py:43-62 | the work text has no whitespace at either end; a string is stripped; anything but a list or a string gives `''`; `FormatWorkExperience`, `JobsTextAppend` and `HeaderOnly` state the list case |
| ResumeFormatter.AppendDetails | backend/src/formatters/resume_formatter.py:53-54 | the inner loop appends one `  - {detail}` line per listed detail |
| ResumeFormatter.AppendDetailLines | backend/src/formatters/resume_formatter.py:52-56 | a list of details gives a line each; a string gives one line; anything else gives nothing |
| ResumeFormatter.AppendEntry | backend/src/formatters/resume_formatter.py:49-56 | a dict job appends its `title at company (duration)` header line, then its detail lines |
| ResumeFormatter.AppendJob | backend/src/formatters/resume_formatter.py:48-58 | one pass of the outer loop appends that job's text |
| ResumeFormatter.FormatWorkExperience | backend/src/formatters/resume_formatter.py:43-62 | the nested `+=` loops, then `strip`, yield the work text |
| ResumeFormatter.FormatSection | backend/src/formatters/resume_formatter.py:64-84 | certifications and education: it fails exactly on a list holding a non-string, with the caller's error; a dict always succeeds; a string is stripped; `None`, a boolean or a number gives `''`; `SectionLines` and `SectionDictLines` state the list and dict values |
| ResumeFormatter.PlaceholdersNonEmpty | backend/src/formatters/resume_formatter.py:128-139 | no placeholder is empty, so every `replace` is well defined |
| ResumeFormatter.Replacements | backend/src/formatters/resume_formatter.py:117-139 | the replacement dict has the ten placeholders as keys, in dict order |
| ResumeFormatter.Dict | backend/src/formatters/resume_formatter.py:128-139 | the ten placeholders in dict order; `{NAME}`, `{EMAIL}`, `{SUMMARY}`, `{LINKEDIN}` and `{GITHUB}` map to `str` of the spaced key or else its alias, `{PHONE}` to `str` of `phone`, each `''` when missing; `{PRIMARY_SKILLS}`, `{WORK_EXPERIENCE}`, `{CERTIFICATIONS}` and `{EDUCATION}` map to the normalised texts |
| ResumeFormatter.FormatTxt | backend/src/formatters/resume_formatter.py:117-142 | data that is not a dict makes `data.get` fail; otherwise it fails exactly when building the replacement dict fails, with the same error |
| ResumeFormatter.Substitute | backend/src/formatters/resume_formatter.py:140-141 | the loop that reassigns `template` applies the replacements one after the other, in dict order |
| ResumeFormatter.FormatResumeTxt | backend/src/formatters/resume_formatter.py:117-142 | `format_resume_txt` on a template's text equals the specification `FormatTxt` |
| ResumeFormatter.FormatDocx | backend/src/formatters/resume_formatter.py:86-111 | a non-dict fails; otherwise there is one rewritten text per paragraph |
| ResumeFormatterProperties.KeyPrecedence | backend/src/formatters/resume_formatter.py:88-106 | the spaced or capitalised key wins; the alias is read only when that key is missing; then the default |
| ResumeFormatterProperties.KeptAppend | backend/src/formatters/resume_formatter.py:23 | filtering the pieces distributes over concatenation, so tokens keep their order |
| ResumeFormatterProperties.KeptNoSeparators | backend/src/formatters/resume_formatter.py:23 | stripping never brings a separator back into a piece |
| ResumeFormatterProperties.SkillTokens | backend/src/formatters/resume_formatter.py:22-23 | a skills string gives non-empty stripped string tokens that contain no `,` and no `;` |
| ResumeFormatterProperties.SingleToken | backend/src/formatters/resume_formatter.py:22-23 | a non-blank string without `,` or `;` is one stripped token |
| ResumeFormatterProperties.DictStringSingle | backend/src/formatters/resume_formatter.py:17-18 | a string value of a skills dict is split on `,` only: without a comma it is one stripped token, even when it holds `;` |
| ResumeFormatterProperties.KeptOne | backend/src/formatters/resume_formatter.py:23 | one piece is kept exactly when it is not blank, and then stripped |
| ResumeFormatterProperties.TrimToken | backend/src/formatters/resume_formatter.py:23 | stripping a token leaves it as it is |
| ResumeFormatterProperties.KeptTokens | backend/src/formatters/resume_formatter.py:23 | a list of tokens is kept whole and in order |
| ResumeFormatterProperties.PiecesOfJoin | backend/src/formatters/resume_formatter.py:22-23 | the stripped, non-empty pieces of separator-free tokens joined by a separator are the tokens |
| ResumeFormatterProperties.SkillsRoundTrip | backend/src/formatters/resume_formatter.py:20-23 | flattening a skills string made of tokens joined by `,` or `;` gives the tokens back |
| ResumeFormatterProperties.JoinSkillsStrs | backend/src/formatters/resume_formatter.py:133 | a list of strings joins to those strings separated by `, ` |
| ResumeFormatterProperties.DictSkillsAppend | backend/src/formatters/resume_formatter.py:12-19 | a skills dict concatenates the contributions of its values in dict order |
| ResumeFormatterProperties.DictOfLists | backend/src/formatters/resume_formatter.py:14-16 | a dict whose values are all lists gives the items of those lists, list after list in dict order |
| ResumeFormatterProperties.JobsTextAppend | backend/src/formatters/resume_formatter.py:46-59 | the text of two runs of jobs is the text of the first followed by the text of the second |
| ResumeFormatterProperties.DetailsPreferred | backend/src/formatters/resume_formatter.py:51 | `details` is used when present, whatever `description` holds |
| ResumeFormatterProperties.HeaderOnly | backend/src/formatters/resume_formatter.py:49-51 | a job dict with neither `details` nor `description` contributes (`JobText`) only its `JobHeader` line |
| ResumeFormatterProperties.SectionLines | backend/src/formatters/resume_formatter.py:78-79 | a non-empty list of newline-free strings joins with `'\n'` so that splitting at newlines gives the list back |
| ResumeFormatterProperties.SectionDictLines | backend/src/formatters/resume_formatter.py:80-81 | a non-empty dict of newline-free string values joins so that splitting at newlines gives the values back in dict order |
| ResumeFormatterProperties.ReplacementErrors | backend/src/formatters/resume_formatter.py:117-139 | errors come in the formatter's order: certifications first, then education, then the skills join; the dict is built exactly when none of them fails |
| ResumeFormatterProperties.ReplacementValues | backend/src/formatters/resume_formatter.py:128-136 | `{PRIMARY_SKILLS}` is replaced by the flattened skills joined with `', '`, `{WORK_EXPERIENCE}` by the formatted work text, `{CERTIFICATIONS}` and `{EDUCATION}` by their formatted sections |
| ResumeFormatterProperties.ReplacementScalars | backend/src/formatters/resume_formatter.py:128-139 | `{NAME}`, `{EMAIL}`, `{SUMMARY}`, `{LINKEDIN}` and `{GITHUB}` are replaced by `str` of the spaced key or else its alias, `{PHONE}` by `str` of `phone`, each `''` when missing |
| ResumeFormatterProperties.ReplacePassesPrefix | backend/src/formatters/resume_formatter.py:141 | text before the placeholder's first character passes through `replace` unchanged |
| ResumeFormatterProperties.ReplaceOccurrence | backend/src/formatters/resume_formatter.py:141 | `replace` (`ReplaceAll`): an occurrence becomes the value and the scan continues after it, so every occurrence is replaced, left to right |
| ResumeFormatterProperties.ReplaceAbsent | backend/src/formatters/resume_formatter.py:141 | `replace` (`ReplaceAll`) with an absent placeholder is the identity |
| ResumeFormatterProperties.GuardedIsUnguarded | backend/src/formatters/resume_formatter.py:108-111 | the docx loop with its guard `if key in para.text` (`SubstituteGuarded`) gives the same text as the unguarded `SubstituteAll` |
| ResumeFormatterProperties.NoPlaceholderUnchanged | backend/src/formatters/resume_formatter.py:140-141 | `SubstituteAll` leaves text holding none of the keys unchanged |
| ResumeFormatterProperties.TemplateWithoutPlaceholders | backend/src/formatters/resume_formatter.py:117-142 | a template with none of the ten placeholders is returned as it is |
| ResumeFormatterProperties.ReplaceSelf | backend/src/formatters/resume_formatter.py:141 | replacing a placeholder by itself changes nothing |
| ResumeFormatterProperties.DocxAgreesWithTxt | backend/src/formatters/resume_formatter.py:86-111 | the docx and txt formatters fail alike, and each docx paragraph becomes what the txt formatter makes of its text |
| Sequences.Without | frontend/src/ResumeBuilder.jsx:95 | `filter(item => item !== value)`: the value is gone, the count of every other element is kept, and the order is kept |
| Sequences.SpliceStart | frontend/src/ResumeBuilder.jsx:104 | `splice`'s start: a negative index counts from the end, and the result is clamped to `[0, length]` |
| Sequences.Spliced | frontend/src/ResumeBuilder.jsx:104 | `splice(index, 1)` removes the element at the start index and keeps the elements on either side in order; a start at the end removes nothing |
| Text.Trim | frontend/src/ResumeBuilder.jsx:88 | `trim()`/`strip()`: a slice of the input with only whitespace outside it and no whitespace at either end, never longer, and empty exactly for a blank input |
| Text.Split | frontend/src/ResumeBuilder.jsx:51 | `split(',')`: one piece more than separators, and no piece contains a separator |
| Text.JoinSplit | frontend/src/ResumeBuilder.jsx:51 | joining the pieces of a split with that separator gives the string back |
| Text.SplitJoin | backend/src/formatters/resume_formatter.py:68 | splitting a join on one of the separators gives the parts back when no part holds a separator |
| Text.SplitPlain | backend/src/formatters/resume_formatter.py:22 | a string without separators splits into itself |
| Text.SplitAfterPlain | backend/src/formatters/resume_formatter.py:22 | the piece before the first separator, whichever separator it is, is split off whole |
| Text.Take | frontend/src/utils/downloadAndPrepareEmail.js:33 | `slice(0, n)`: the whole string when it has at most `n` characters, otherwise exactly its first `n` |
| Text.PadEnd | frontend/src/utils/downloadAndPrepareEmail.js:19 | `padEnd(width)`: the string followed by spaces up to `width`, unchanged when already that long |
| Text.NatToStringDecimal | frontend/src/utils/downloadAndPrepareEmail.js:34 | JavaScript's number-to-string for a whole count: only decimal digits, a leading `0` exactly for zero, and the digits read back (most significant first) to the number |
| Text.IntToStringDecimal | backend/src/formatters/resume_formatter.py:50 | an integer renders as its decimal digits, after a `-` when negative, reading back to its magnitude |
| Text.DecimalAppend | frontend/src/utils/downloadAndPrepareEmail.js:34 | appending a digit to a decimal numeral multiplies its value by ten and adds the digit |

## Left out

- PDF reading (`pdfjsLib`, `FileReader`), the HTTP request and `response.json()` are I/O. The model takes as inputs the item strings of each page, whether extraction threw, and the reply.
- The parsing service, docx reading and writing, the header and footer logo, and reading the template file are left out. `FormatTxt` takes the template text, and `FormatDocx` takes the paragraph texts.
- `encodeURIComponent`, the `mailto:` navigation and the `setTimeout` reminder are browser effects. The subject and body are modelled before encoding.
- The clock is a parameter: `TotalExperience` takes the current year.
- The inline email body in frontend/src/ResumeBuilder.jsx:157-177 is not modelled. It duplicates the utility's body and differs only in its third line. The DOM-based `stripHtmlTags` at frontend/src/ResumeBuilder.jsx:81-85 uses the browser's HTML parser and is not modelled.
- FieldMapping.TextField: a truthy value that is not a string, such as a number under `full_name`, fails as `NonText`. The page would store that raw value in the form state; the record's scalar fields here hold text.
- FieldMapping.WorkEntry: a truthy non-string under one of the four work keys fails as `NonText`. The page would store the raw value; work entries here hold strings.
- FieldMappingProperties.MapTextualPayloadSucceeds: it asks for textual scalar, tag and work fields because of the `NonText` admission above; `education` may hold anything.
- ResumeRecord.Field: a key whose value is not a string reads as `''`. Only the `school` of a mapped education entry can hold a non-string, and no modelled operation reads it; only the form and preview rendering, which is not modelled, shows it.
- FieldMapping.MapPayload: a `split` on a truthy non-string, or a property read on a null work element, fails as `NotSplittable` or `NullWorkEntry`. These stand for the page's TypeErrors.
- RecordEdits.HandleNestedChange: the page writes into the element object that it shares with the previous state, and the model produces a new value. Aliasing through that shared object is not captured.
- Lengths are counts of Unicode code points, not UTF-16 code units. This matters for the 250- and 100-character thresholds, `padEnd` and `slice(0, 100)` only with characters outside the Basic Multilingual Plane.
- Text.Trim: it removes only the six ASCII whitespace characters. JavaScript `trim` and Python `strip` also remove other Unicode spaces, and Python also removes `\x1c`-`\x1f`.
- Text.Lower: it lower-cases only ASCII letters.
- ResumeFormatter.PyStr: the `repr` of nested lists and dicts quotes strings with `'` and escapes nothing. Python switches quotes and escapes.
- JSON numbers are integers. Floats and their `str` rendering are not modelled.
- Duplicate keys in a JSON object are not modelled. Lookup uses the first entry, and a parsed object has distinct keys.
- The substitution value cascade is not stated as a lemma. Substitution is sequential, so a value containing a later placeholder, such as a name containing `{EMAIL}`, is replaced again; `SubstituteAll` models exactly that.

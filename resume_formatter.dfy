/**
 * The backend formatter: it normalises the loosely typed fields of a parsed
 * resume (skills, work experience, certifications, education) into text and
 * substitutes ten placeholders of a template with them.
 */
module ResumeFormatter {
  import opened Wrappers
  import opened Json
  import opened Text

  /** Why formatting stops: `data.get` on a non-dict, or a `join` over a list holding a non-string. */
  datatype FormatError = NotAnObject | NonTextCertification | NonTextEducation | NonTextSkill

  /** `repr(v)` for the JSON-shaped Python values; strings are quoted with `'` and not escaped. */
  function PyRepr(v: Json): string
    decreases v
  {
    match v
    case JNull => "None"
    case JBool(b) => if b then "True" else "False"
    case JNum(n) => IntToString(n)
    case JStr(s) => "'" + s + "'"
    case JArr(items) =>
      "[" + Join(seq(|items|, i requires 0 <= i < |items| => PyRepr(items[i])), ", ") + "]"
    case JObj(fields) =>
      "{" + Join(seq(|fields|, i requires 0 <= i < |fields| =>
        "'" + fields[i].0 + "': " + PyRepr(fields[i].1)), ", ") + "}"
  }

  /** `str(v)`, which is also what an f-string inserts: a string as it is, anything else as its `repr`. */
  function PyStr(v: Json): (r: string)
    ensures v.JStr? ==> r == v.s
    ensures v == JNull ==> r == "None"
  {
    if v.JStr? then v.s else PyRepr(v)
  }

  /** `d.get(key, default)`. */
  function GetOr(d: seq<(string, Json)>, key: string, default: Json): (r: Json)
    ensures HasKey(d, key) ==> Some(r) == Get(d, key)
    ensures !HasKey(d, key) ==> r == default
  {
    match Get(d, key)
    case Some(v) => v
    case None => default
  }

  /** `data.get(key, data.get(alias, default))`: the spaced or capitalised key wins over its alias. */
  function Pick(d: seq<(string, Json)>, key: string, alias: string, default: Json): Json {
    GetOr(d, key, GetOr(d, alias, default))
  }

  // ---------------------------------------------------------------- skills

  /** A piece `strip` leaves and the filter keeps: not empty, no whitespace at either end. */
  predicate IsToken(t: string) {
    t != "" && !IsSpace(t[0]) && !IsSpace(t[|t| - 1])
  }

  /** The stripped pieces that are not empty, in order: `[p.strip() for p in parts if p.strip()]`. */
  function Kept(parts: seq<string>): (r: seq<string>)
    ensures |r| <= |parts|
    ensures forall i :: 0 <= i < |r| ==> IsToken(r[i])
    decreases |parts|
  {
    if |parts| == 0 then []
    else
      var front := Kept(parts[..|parts| - 1]);
      var t := Trim(parts[|parts| - 1]);
      if t != "" then front + [t] else front
  }

  /** The stripped, non-empty pieces of `s` between separators. */
  function Pieces(s: string, seps: set<char>): (r: seq<string>)
    ensures forall i :: 0 <= i < |r| ==> IsToken(r[i])
  {
    Kept(Split(s, seps))
  }

  function Strs(ss: seq<string>): (r: seq<Json>)
    ensures |r| == |ss|
    ensures forall i :: 0 <= i < |ss| ==> r[i] == JStr(ss[i])
  {
    seq(|ss|, i requires 0 <= i < |ss| => JStr(ss[i]))
  }

  /** What one value of a skills dict contributes: a list as it is, a string split on `,` only, nothing otherwise. */
  function ValueSkills(v: Json): seq<Json> {
    match v
    case JArr(items) => items
    case JStr(s) => Strs(Pieces(s, {','}))
    case _ => []
  }

  /** The contributions of the values of a skills dict, in order. */
  function DictSkills(values: seq<Json>): seq<Json>
    decreases |values|
  {
    if |values| == 0 then []
    else DictSkills(values[..|values| - 1]) + ValueSkills(values[|values| - 1])
  }

  /** `_flatten_skills`. */
  function FlatSkills(skills: Json): (r: seq<Json>)
    ensures skills == JNull ==> r == []
    ensures skills.JArr? ==> r == skills.items
    ensures skills.JBool? || skills.JNum? ==> r == []
  {
    match skills
    case JNull => []
    case JObj(fields) => DictSkills(Values(fields))
    case JArr(items) => items
    case JStr(s) => Strs(Pieces(s, {',', ';'}))
    case _ => []
  }

  /** `_flatten_skills` as the formatter runs it: `flat` is extended value by value. */
  method FlattenSkills(skills: Json) returns (flat: seq<Json>)
    ensures flat == FlatSkills(skills)
  {
    if skills.JNull? {
      return [];
    }
    if skills.JObj? {
      var values := Values(skills.fields);
      flat := [];
      var i := 0;
      while i < |values|
        invariant 0 <= i <= |values|
        invariant flat == DictSkills(values[..i])
      {
        var v := values[i];
        assert values[..i + 1][..i] == values[..i];
        if v.JArr? {
          flat := flat + v.items;
        } else if v.JStr? {
          flat := flat + Strs(Pieces(v.s, {','}));
        }
        i := i + 1;
      }
      assert values[..i] == values;
      return flat;
    }
    if skills.JArr? {
      return skills.items;
    }
    if skills.JStr? {
      return Strs(Pieces(skills.s, {',', ';'}));
    }
    return [];
  }

  /** `', '.join(flat_skills)`, which raises when an element is not a string. */
  function JoinSkills(flat: seq<Json>): (r: Result<string, FormatError>)
    ensures r.Ok? <==> forall i :: 0 <= i < |flat| ==> flat[i].JStr?
  {
    if forall i :: 0 <= i < |flat| ==> flat[i].JStr? then
      Ok(Join(seq(|flat|, i requires 0 <= i < |flat| => flat[i].s), ", "))
    else Err(NonTextSkill)
  }

  // ------------------------------------------------------- work experience

  /** `{title} at {company} ({duration})` and a newline, each part missing as `''`. */
  function JobHeader(job: seq<(string, Json)>): string {
    PyStr(GetOr(job, "title", JStr(""))) + " at " + PyStr(GetOr(job, "company", JStr("")))
    + " (" + PyStr(GetOr(job, "duration", JStr(""))) + ")\n"
  }

  /** `job.get('details', job.get('description', []))`. */
  function JobDetails(job: seq<(string, Json)>): Json {
    Pick(job, "details", "description", JArr([]))
  }

  /** The strings one after the other. */
  function Concat(parts: seq<string>): string
    decreases |parts|
  {
    if |parts| == 0 then "" else Concat(parts[..|parts| - 1]) + parts[|parts| - 1]
  }

  /** The line a listed detail gives: `  - {detail}`. */
  function DetailLine(detail: Json): string {
    "  - " + PyStr(detail) + "\n"
  }

  function DetailTexts(items: seq<Json>): (r: seq<string>)
    ensures |r| == |items|
    ensures forall i :: 0 <= i < |items| ==> r[i] == DetailLine(items[i])
  {
    seq(|items|, i requires 0 <= i < |items| => DetailLine(items[i]))
  }

  /** One line per listed detail. */
  function DetailList(items: seq<Json>): string {
    Concat(DetailTexts(items))
  }

  /** The detail lines of a job: a list line by line, a string as one line, nothing otherwise. */
  function DetailLines(details: Json): string {
    match details
    case JArr(items) => DetailList(items)
    case JStr(s) => "  - " + s + "\n"
    case _ => ""
  }

  /** The text one element of the work list contributes. */
  function JobText(job: Json): string {
    match job
    case JObj(fields) => JobHeader(fields) + DetailLines(JobDetails(fields))
    case JStr(s) => s + "\n"
    case _ => ""
  }

  function JobTexts(jobs: seq<Json>): (r: seq<string>)
    ensures |r| == |jobs|
    ensures forall i :: 0 <= i < |jobs| ==> r[i] == JobText(jobs[i])
  {
    seq(|jobs|, i requires 0 <= i < |jobs| => JobText(jobs[i]))
  }

  /** The texts of the jobs, in order. */
  function JobsText(jobs: seq<Json>): string {
    Concat(JobTexts(jobs))
  }

  /** The text `_format_work_experience` builds before stripping it. */
  function WorkExperienceRaw(work: Json): string {
    match work
    case JArr(jobs) => JobsText(jobs)
    case JStr(s) => s
    case _ => ""
  }

  /** `_format_work_experience`: the built text, stripped; `''` for anything but a list or a string. */
  function WorkExperienceText(work: Json): (r: string)
    ensures r == [] || (!IsSpace(r[0]) && !IsSpace(r[|r| - 1]))
    ensures work.JStr? ==> r == Trim(work.s)
    ensures !work.JArr? && !work.JStr? ==> r == ""
  {
    Trim(WorkExperienceRaw(work))
  }

  /** One more detail adds its line at the end. */
  lemma DetailListStep(items: seq<Json>, j: nat)
    requires j < |items|
    ensures DetailList(items[..j + 1]) == DetailList(items[..j]) + DetailLine(items[j])
  {
    assert DetailTexts(items[..j + 1])[..j] == DetailTexts(items[..j]);
  }

  /** The inner loop: one `  - {detail}` line per listed detail, appended to `acc`. */
  method AppendDetails(acc: string, items: seq<Json>) returns (out: string)
    ensures out == acc + DetailList(items)
  {
    out := acc;
    var j := 0;
    while j < |items|
      invariant 0 <= j <= |items|
      invariant out == acc + DetailList(items[..j])
    {
      var line := "  - " + PyStr(items[j]) + "\n";
      DetailListStep(items, j);
      AppendAssociates(acc, DetailList(items[..j]), line);
      out := out + line;
      j := j + 1;
    }
    assert items[..j] == items;
  }

  /** The detail part of a dict in the work list, appended to `acc`. */
  method AppendDetailLines(acc: string, details: Json) returns (out: string)
    ensures out == acc + DetailLines(details)
  {
    out := acc;
    if details.JArr? {
      out := AppendDetails(out, details.items);
    } else if details.JStr? {
      var line := "  - " + details.s + "\n";
      out := out + line;
    }
  }

  /** What a dict in the work list adds to `acc`: its header line, then its detail lines. */
  method AppendEntry(acc: string, fields: seq<(string, Json)>) returns (out: string)
    ensures out == acc + (JobHeader(fields) + DetailLines(JobDetails(fields)))
  {
    var header := JobHeader(fields);
    out := acc + header;
    var details := JobDetails(fields);
    out := AppendDetailLines(out, details);
    AppendAssociates(acc, header, DetailLines(details));
  }

  /** The body of the outer loop: what one element of the work list adds to `acc`. */
  method AppendJob(acc: string, job: Json) returns (out: string)
    ensures out == acc + JobText(job)
  {
    out := acc;
    if job.JObj? {
      out := AppendEntry(out, job.fields);
    } else if job.JStr? {
      var line := job.s + "\n";
      out := out + line;
    }
  }

  /** One more job adds its text at the end. */
  lemma JobsTextStep(jobs: seq<Json>, i: nat)
    requires i < |jobs|
    ensures JobsText(jobs[..i + 1]) == JobsText(jobs[..i]) + JobText(jobs[i])
  {
    assert JobTexts(jobs[..i + 1])[..i] == JobTexts(jobs[..i]);
  }

  /** `_format_work_experience` as the formatter runs it: `work_exp_str` grows job by job, detail by detail. */
  method FormatWorkExperience(work: Json) returns (text: string)
    ensures text == WorkExperienceText(work)
  {
    if work.JNull? {
      return "";
    }
    if work.JArr? {
      var jobs := work.items;
      var acc := "";
      var i := 0;
      while i < |jobs|
        invariant 0 <= i <= |jobs|
        invariant acc == JobsText(jobs[..i])
      {
        JobsTextStep(jobs, i);
        acc := AppendJob(acc, jobs[i]);
        i := i + 1;
      }
      assert jobs[..i] == jobs;
      return Trim(acc);
    }
    if work.JStr? {
      return Trim(work.s);
    }
    return "";
  }

  // ------------------------------------------ certifications and education

  /**
   * `_format_certifications` and `_format_education`, which are the same:
   * a list joined with newlines (raising on a non-string element), the
   * values of a dict as `str` joined with newlines, a string stripped, and
   * `''` for anything else. `err` is the error the caller reports.
   */
  function FormatSection(v: Json, err: FormatError): (r: Result<string, FormatError>)
    ensures r.Err? <==> v.JArr? && exists i :: 0 <= i < |v.items| && !v.items[i].JStr?
    ensures r.Err? ==> r.error == err
    ensures v.JStr? ==> r == Ok(Trim(v.s))
    ensures v.JObj? ==> r.Ok?
    ensures v.JNull? || v.JBool? || v.JNum? ==> r == Ok("")
  {
    match v
    case JArr(items) =>
      if forall i :: 0 <= i < |items| ==> items[i].JStr? then
        Ok(Join(seq(|items|, i requires 0 <= i < |items| => items[i].s), "\n"))
      else Err(err)
    case JObj(fields) => Ok(Join(seq(|fields|, i requires 0 <= i < |fields| => PyStr(fields[i].1)), "\n"))
    case JStr(s) => Ok(Trim(s))
    case _ => Ok("")
  }

  // ----------------------------------------------------------- substitution

  /** The ten placeholders, in the order the replacement dict lists them. */
  const Placeholders: seq<string> := [
    "{NAME}", "{EMAIL}", "{PHONE}", "{SUMMARY}", "{PRIMARY_SKILLS}",
    "{WORK_EXPERIENCE}", "{CERTIFICATIONS}", "{EDUCATION}", "{LINKEDIN}", "{GITHUB}"
  ]

  /** The placeholders are not empty, so `replace` with each of them is well defined. */
  lemma PlaceholdersNonEmpty()
    ensures forall i :: 0 <= i < |Placeholders| ==> Placeholders[i] != ""
  {
  }

  /** Pairs of a key and a value, in order. */
  function Zip(keys: seq<string>, values: seq<string>): (r: seq<(string, string)>)
    requires |keys| == |values|
    ensures |r| == |keys|
    ensures forall i :: 0 <= i < |r| ==> r[i] == (keys[i], values[i])
  {
    seq(|keys|, i requires 0 <= i < |keys| => (keys[i], values[i]))
  }

  /**
   * The replacement dict of `format_resume_txt` (and `format_resume_docx`),
   * values already passed through `str`. The normalisers run in the
   * formatter's order, so a bad certifications list is reported before a
   * bad education list, and both before a bad skills list.
   */
  function Replacements(d: seq<(string, Json)>): (r: Result<seq<(string, string)>, FormatError>)
    ensures r.Ok? ==> |r.value| == |Placeholders| && forall i :: 0 <= i < |r.value| ==> r.value[i].0 == Placeholders[i]
  {
    var flat := FlatSkills(Pick(d, "Skills", "skills", JNull));
    var work := WorkExperienceText(Pick(d, "Work Experience", "work_experience", JNull));
    var certs :- FormatSection(Pick(d, "Certifications", "certifications", JNull), NonTextCertification);
    var edu :- FormatSection(Pick(d, "Education", "education", JNull), NonTextEducation);
    var skills :- JoinSkills(flat);
    Ok(Dict(d, skills, work, certs, edu))
  }

  /** The replacement dict once the normalised values are known; the other fields go through `str`. */
  function Dict(d: seq<(string, Json)>, skills: string, work: string, certs: string, edu: string): (r: seq<(string, string)>)
    ensures |r| == |Placeholders| && forall i :: 0 <= i < |r| ==> r[i].0 == Placeholders[i]
    ensures r[0].1 == PyStr(Pick(d, "full name", "full_name", JStr("")))
    ensures r[1].1 == PyStr(Pick(d, "email id", "email_id", JStr("")))
    ensures r[2].1 == PyStr(GetOr(d, "phone", JStr("")))
    ensures r[3].1 == PyStr(Pick(d, "professional summary", "professional_summary", JStr("")))
    ensures r[4].1 == skills && r[5].1 == work && r[6].1 == certs && r[7].1 == edu
    ensures r[8].1 == PyStr(Pick(d, "linkedin id", "linkedin_id", JStr("")))
    ensures r[9].1 == PyStr(Pick(d, "github portfolio", "github_portfolio", JStr("")))
  {
    Zip(Placeholders, ReplacementStrings(
      PyStr(Pick(d, "full name", "full_name", JStr(""))),
      PyStr(Pick(d, "email id", "email_id", JStr(""))),
      PyStr(GetOr(d, "phone", JStr(""))),
      PyStr(Pick(d, "professional summary", "professional_summary", JStr(""))),
      skills, work, certs, edu,
      PyStr(Pick(d, "linkedin id", "linkedin_id", JStr(""))),
      PyStr(Pick(d, "github portfolio", "github_portfolio", JStr("")))))
  }

  /** The values of the replacement dict, in the order of `Placeholders`. */
  function ReplacementStrings(name: string, email: string, phone: string, summary: string, skills: string,
                              work: string, certs: string, edu: string, linkedin: string, github: string): (vs: seq<string>)
    ensures |vs| == |Placeholders|
    ensures vs[0] == name && vs[1] == email && vs[2] == phone && vs[3] == summary
    ensures vs[4] == skills && vs[5] == work && vs[6] == certs && vs[7] == edu
    ensures vs[8] == linkedin && vs[9] == github
  {
    [name, email, phone, summary, skills, work, certs, edu, linkedin, github]
  }

  /** `s.replace(pat, rep)`: every non-overlapping occurrence, left to right, in one pass. */
  function ReplaceAll(s: string, pat: string, rep: string): string
    requires pat != ""
    decreases |s|
  {
    if |s| < |pat| then s
    else if pat <= s then rep + ReplaceAll(s[|pat|..], pat, rep)
    else [s[0]] + ReplaceAll(s[1..], pat, rep)
  }

  predicate NonEmptyKeys(reps: seq<(string, string)>) {
    forall i :: 0 <= i < |reps| ==> reps[i].0 != ""
  }

  /** The replacements applied one after the other, each to the result of the previous ones. */
  function SubstituteAll(s: string, reps: seq<(string, string)>): string
    requires NonEmptyKeys(reps)
    decreases |reps|
  {
    if |reps| == 0 then s
    else SubstituteAll(ReplaceAll(s, reps[0].0, reps[0].1), reps[1..])
  }

  /** `format_resume_txt` on a template already read from its file. */
  function FormatTxt(data: Json, template: string): (r: Result<string, FormatError>)
    ensures !data.JObj? ==> r == Err(NotAnObject)
    ensures data.JObj? ==> (r.Ok? <==> Replacements(data.fields).Ok?)
    ensures data.JObj? && r.Err? ==> r == Replacements(data.fields).PropagateFailure()
  {
    if !data.JObj? then Err(NotAnObject)
    else
      var reps :- Replacements(data.fields);
      PlaceholdersNonEmpty();
      Ok(SubstituteAll(template, reps))
  }

  /** The substitution loop of `format_resume_txt`: `template` is reassigned once per placeholder. */
  method Substitute(template: string, reps: seq<(string, string)>) returns (text: string)
    requires NonEmptyKeys(reps)
    ensures text == SubstituteAll(template, reps)
  {
    text := template;
    var i := 0;
    while i < |reps|
      invariant 0 <= i <= |reps|
      invariant SubstituteAll(text, reps[i..]) == SubstituteAll(template, reps)
    {
      assert reps[i..][1..] == reps[i + 1..];
      text := ReplaceAll(text, reps[i].0, reps[i].1);
      i := i + 1;
    }
    assert |reps[i..]| == 0;
  }

  /** `format_resume_txt` on a template already read from its file. */
  method FormatResumeTxt(data: Json, template: string) returns (r: Result<string, FormatError>)
    ensures r == FormatTxt(data, template)
  {
    if !data.JObj? {
      return Err(NotAnObject);
    }
    var replacements := Replacements(data.fields);
    if replacements.Err? {
      return Err(replacements.error);
    }
    PlaceholdersNonEmpty();
    var text := Substitute(template, replacements.value);
    return Ok(text);
  }

  /** One docx paragraph: each placeholder is replaced only when the paragraph text holds it. */
  function SubstituteGuarded(s: string, reps: seq<(string, string)>): string
    requires NonEmptyKeys(reps)
    decreases |reps|
  {
    if |reps| == 0 then s
    else
      var next := if Contains(s, reps[0].0) then ReplaceAll(s, reps[0].0, reps[0].1) else s;
      SubstituteGuarded(next, reps[1..])
  }

  /**
   * The paragraph texts `format_resume_docx` leaves in the document: every
   * paragraph goes through the same replacement dict, with the guard.
   */
  function FormatDocx(data: Json, paragraphs: seq<string>): (r: Result<seq<string>, FormatError>)
    ensures !data.JObj? ==> r == Err(NotAnObject)
    ensures r.Ok? ==> |r.value| == |paragraphs|
  {
    if !data.JObj? then Err(NotAnObject)
    else
      var reps :- Replacements(data.fields);
      PlaceholdersNonEmpty();
      Ok(seq(|paragraphs|, i requires 0 <= i < |paragraphs| => SubstituteGuarded(paragraphs[i], reps)))
  }
}

module ResumeFormatterProperties {
  import opened Wrappers
  import opened Json
  import opened Text
  import opened ResumeFormatter

  /** The spaced or capitalised key wins; the alias is read only when it is missing; then the default. */
  lemma KeyPrecedence(d: seq<(string, Json)>, key: string, alias: string, default: Json)
    ensures HasKey(d, key) ==> Some(Pick(d, key, alias, default)) == Get(d, key)
    ensures !HasKey(d, key) && HasKey(d, alias) ==> Some(Pick(d, key, alias, default)) == Get(d, alias)
    ensures !HasKey(d, key) && !HasKey(d, alias) ==> Pick(d, key, alias, default) == default
  {
  }

  /** Filtering distributes over concatenation, so pieces keep their order. */
  lemma {:induction false} KeptAppend(a: seq<string>, b: seq<string>)
    ensures Kept(a + b) == Kept(a) + Kept(b)
    decreases |b|
  {
    if |b| == 0 {
      assert a + b == a;
    } else {
      var n := |b| - 1;
      assert (a + b)[..|a + b| - 1] == a + b[..n];
      assert (a + b)[|a + b| - 1] == b[n];
      KeptAppend(a, b[..n]);
      if Trim(b[n]) != "" {
        AppendAssociates(Kept(a), Kept(b[..n]), [Trim(b[n])]);
      }
    }
  }

  lemma {:induction false} KeptNoSeparators(parts: seq<string>, seps: set<char>)
    requires forall i :: 0 <= i < |parts| ==> NoneIn(parts[i], seps)
    ensures forall i :: 0 <= i < |Kept(parts)| ==> NoneIn(Kept(parts)[i], seps)
    decreases |parts|
  {
    if |parts| > 0 {
      KeptNoSeparators(parts[..|parts| - 1], seps);
      var p := parts[|parts| - 1];
      var t := Trim(p);
      forall i | 0 <= i < |t|
        ensures t[i] !in seps
      {
        assert t[i] in t;
        var k :| 0 <= k < |p| && p[k] == t[i];
      }
    }
  }

  /** A skills string gives non-empty, stripped tokens free of `,` and `;`. */
  lemma SkillTokens(s: string)
    ensures var r := FlatSkills(JStr(s));
      forall i :: 0 <= i < |r| ==>
        r[i].JStr? && IsToken(r[i].s) && ',' !in r[i].s && ';' !in r[i].s
  {
    KeptNoSeparators(Split(s, {',', ';'}), {',', ';'});
    var p := Pieces(s, {',', ';'});
    assert forall i :: 0 <= i < |p| ==> NoneIn(p[i], {',', ';'});
  }

  /** A string without separators and not blank is a single token, stripped. */
  lemma SingleToken(s: string)
    requires ',' !in s && ';' !in s && !AllSpace(s)
    ensures FlatSkills(JStr(s)) == [JStr(Trim(s))]
  {
    SplitPlain(s, {',', ';'});
    assert Split(s, {',', ';'}) == [s];
    assert [s][..0] == [];
  }

  /**
   * A string value of a skills dict is split on `,` only: without a comma it
   * is one stripped token, even when it holds a `;`.
   */
  lemma DictStringSingle(s: string)
    requires ',' !in s && !AllSpace(s)
    ensures ValueSkills(JStr(s)) == [JStr(Trim(s))]
  {
    SplitPlain(s, {','});
    assert Split(s, {','}) == [s];
    assert [s][..0] == [];
  }

  /** A skills dict concatenates the contributions of its values in order. */
  lemma {:induction false} DictSkillsAppend(a: seq<Json>, b: seq<Json>)
    ensures DictSkills(a + b) == DictSkills(a) + DictSkills(b)
    decreases |b|
  {
    if |b| == 0 {
      assert a + b == a;
    } else {
      var n := |b| - 1;
      assert (a + b)[..|a + b| - 1] == a + b[..n];
      assert (a + b)[|a + b| - 1] == b[n];
      DictSkillsAppend(a, b[..n]);
      AppendAssociates(DictSkills(a), DictSkills(b[..n]), ValueSkills(b[n]));
    }
  }

  /** A dict whose values are all lists gives those lists spliced together. */
  lemma {:induction false} DictOfLists(values: seq<Json>)
    requires forall i :: 0 <= i < |values| ==> values[i].JArr?
    ensures DictSkills(values) == ListItems(values)
    decreases |values|
  {
    if |values| > 0 {
      var v := values[0];
      DictOfLists(values[1..]);
      DictSkillsAppend([v], values[1..]);
      assert [v] + values[1..] == values;
      assert DictSkills([v]) == v.items by {
        assert [v][..0] == [];
      }
    }
  }

  /** The items of the lists, one list after the other. */
  function ListItems(lists: seq<Json>): seq<Json>
    requires forall i :: 0 <= i < |lists| ==> lists[i].JArr?
    decreases |lists|
  {
    if |lists| == 0 then [] else lists[0].items + ListItems(lists[1..])
  }

  lemma {:induction false} ConcatAppend(a: seq<string>, b: seq<string>)
    ensures Concat(a + b) == Concat(a) + Concat(b)
    decreases |b|
  {
    if |b| == 0 {
      assert a + b == a;
    } else {
      var n := |b| - 1;
      assert (a + b)[..|a + b| - 1] == a + b[..n];
      ConcatAppend(a, b[..n]);
    }
  }

  /** The text of two runs of jobs is the text of the first followed by the text of the second. */
  lemma JobsTextAppend(a: seq<Json>, b: seq<Json>)
    ensures JobsText(a + b) == JobsText(a) + JobsText(b)
  {
    assert JobTexts(a + b) == JobTexts(a) + JobTexts(b);
    ConcatAppend(JobTexts(a), JobTexts(b));
  }

  /** `details` is used when present, whatever `description` holds. */
  lemma DetailsPreferred(job: seq<(string, Json)>, v: Json)
    requires Get(job, "details") == Some(v)
    ensures JobDetails(job) == v
  {
  }

  /** A job with neither `details` nor `description` emits only its header line. */
  lemma HeaderOnly(job: seq<(string, Json)>)
    requires !HasKey(job, "details") && !HasKey(job, "description")
    ensures JobText(JObj(job)) == JobHeader(job)
  {
  }

  /** A list of strings without newlines comes back from the joined section by splitting at newlines. */
  lemma SectionLines(lines: seq<string>)
    requires lines != []
    requires forall i :: 0 <= i < |lines| ==> NoneIn(lines[i], {'\n'})
    ensures var r := FormatSection(JArr(Strs(lines)), NonTextEducation);
      r.Ok? && Split(r.value, {'\n'}) == lines
  {
    var items := Strs(lines);
    assert seq(|items|, i requires 0 <= i < |items| => items[i].s) == lines;
    SplitJoin(lines, '\n', {'\n'});
  }

  /** A dict section with string values free of newlines gives those values back line by line. */
  lemma SectionDictLines(fields: seq<(string, Json)>)
    requires fields != []
    requires forall i :: 0 <= i < |fields| ==> fields[i].1.JStr? && NoneIn(fields[i].1.s, {'\n'})
    ensures var r := FormatSection(JObj(fields), NonTextEducation);
      r.Ok? && Split(r.value, {'\n'}) == seq(|fields|, i requires 0 <= i < |fields| => fields[i].1.s)
  {
    var lines := seq(|fields|, i requires 0 <= i < |fields| => fields[i].1.s);
    assert seq(|fields|, i requires 0 <= i < |fields| => PyStr(fields[i].1)) == lines;
    SplitJoin(lines, '\n', {'\n'});
  }

  /** One piece is kept exactly when it is not blank, and then stripped. */
  lemma KeptOne(p: string)
    ensures Kept([p]) == if Trim(p) == "" then [] else [Trim(p)]
  {
    assert [p][..0] == [];
  }

  /** Stripping a token leaves it as it is. */
  lemma TrimToken(t: string)
    requires IsToken(t)
    ensures Trim(t) == t
  {
  }

  /** Tokens are kept as they are, all of them. */
  lemma {:induction false} KeptTokens(ts: seq<string>)
    requires forall i :: 0 <= i < |ts| ==> IsToken(ts[i])
    ensures Kept(ts) == ts
    decreases |ts|
  {
    if |ts| > 0 {
      KeptTokens(ts[..|ts| - 1]);
      TrimToken(ts[|ts| - 1]);
      assert ts[..|ts| - 1] + [ts[|ts| - 1]] == ts;
    }
  }

  /**
   * Joining stripped tokens free of `,` and `;` with either separator and
   * flattening the string gives the tokens back.
   */
  lemma SkillsRoundTrip(ts: seq<string>, c: char)
    requires ts != [] && (c == ',' || c == ';')
    requires forall i :: 0 <= i < |ts| ==> IsToken(ts[i]) && NoneIn(ts[i], {',', ';'})
    ensures FlatSkills(JStr(Join(ts, [c]))) == Strs(ts)
  {
    PiecesOfJoin(ts, c, {',', ';'});
  }

  /** The pieces of a join of separator-free tokens are the tokens. */
  lemma PiecesOfJoin(ts: seq<string>, c: char, seps: set<char>)
    requires ts != [] && c in seps
    requires forall i :: 0 <= i < |ts| ==> IsToken(ts[i]) && NoneIn(ts[i], seps)
    ensures Pieces(Join(ts, [c]), seps) == ts
  {
    SplitJoin(ts, c, seps);
    KeptTokens(ts);
  }

  /** A list of strings is joined with `, `. */
  lemma JoinSkillsStrs(ts: seq<string>)
    ensures JoinSkills(Strs(ts)) == Ok(Join(ts, ", "))
  {
    var flat := Strs(ts);
    assert seq(|flat|, i requires 0 <= i < |flat| => flat[i].s) == ts;
  }

  /**
   * The normalisers that can raise do so in the formatter's order:
   * certifications first, then education, then the skills join.
   */
  lemma ReplacementErrors(d: seq<(string, Json)>)
    ensures var certs := FormatSection(Pick(d, "Certifications", "certifications", JNull), NonTextCertification);
      var edu := FormatSection(Pick(d, "Education", "education", JNull), NonTextEducation);
      var skills := JoinSkills(FlatSkills(Pick(d, "Skills", "skills", JNull)));
      && (certs.Err? ==> Replacements(d) == Err(NonTextCertification))
      && (certs.Ok? && edu.Err? ==> Replacements(d) == Err(NonTextEducation))
      && (certs.Ok? && edu.Ok? && skills.Err? ==> Replacements(d) == Err(NonTextSkill))
      && (Replacements(d).Ok? <==> certs.Ok? && edu.Ok? && skills.Ok?)
  {
  }

  /**
   * What the placeholders are replaced with: `{NAME}`, `{EMAIL}`,
   * `{SUMMARY}`, `{LINKEDIN}` and `{GITHUB}` by the spaced key or its alias,
   * `{PHONE}` by `phone`, each through `str` and `''` when missing.
   */
  lemma ReplacementScalars(d: seq<(string, Json)>)
    requires Replacements(d).Ok?
    ensures var reps := Replacements(d).value;
      && reps[0] == ("{NAME}", PyStr(Pick(d, "full name", "full_name", JStr(""))))
      && reps[1] == ("{EMAIL}", PyStr(Pick(d, "email id", "email_id", JStr(""))))
      && reps[2] == ("{PHONE}", PyStr(GetOr(d, "phone", JStr(""))))
      && reps[3] == ("{SUMMARY}", PyStr(Pick(d, "professional summary", "professional_summary", JStr(""))))
      && reps[8] == ("{LINKEDIN}", PyStr(Pick(d, "linkedin id", "linkedin_id", JStr(""))))
      && reps[9] == ("{GITHUB}", PyStr(Pick(d, "github portfolio", "github_portfolio", JStr(""))))
  {
    var certs := FormatSection(Pick(d, "Certifications", "certifications", JNull), NonTextCertification).value;
    var edu := FormatSection(Pick(d, "Education", "education", JNull), NonTextEducation).value;
    var skills := JoinSkills(FlatSkills(Pick(d, "Skills", "skills", JNull))).value;
    var work := WorkExperienceText(Pick(d, "Work Experience", "work_experience", JNull));
    assert Replacements(d).value == Dict(d, skills, work, certs, edu);
  }

  /**
   * What the normalised placeholders are replaced with: `{PRIMARY_SKILLS}`
   * by the flattened skills joined with `, `, `{WORK_EXPERIENCE}` by the
   * formatted work text, `{CERTIFICATIONS}` and `{EDUCATION}` by their
   * formatted sections.
   */
  lemma ReplacementValues(d: seq<(string, Json)>)
    requires Replacements(d).Ok?
    ensures var reps := Replacements(d).value;
      && reps[4].0 == "{PRIMARY_SKILLS}" && Ok(reps[4].1) == JoinSkills(FlatSkills(Pick(d, "Skills", "skills", JNull)))
      && reps[5] == ("{WORK_EXPERIENCE}", WorkExperienceText(Pick(d, "Work Experience", "work_experience", JNull)))
      && reps[6].0 == "{CERTIFICATIONS}" && Ok(reps[6].1) == FormatSection(Pick(d, "Certifications", "certifications", JNull), NonTextCertification)
      && reps[7].0 == "{EDUCATION}" && Ok(reps[7].1) == FormatSection(Pick(d, "Education", "education", JNull), NonTextEducation)
  {
  }

  /** Text before the placeholder's first character passes through `replace` unchanged. */
  lemma {:induction false} ReplacePassesPrefix(x: string, y: string, pat: string, rep: string)
    requires pat != "" && pat[0] !in x
    ensures ReplaceAll(x + y, pat, rep) == x + ReplaceAll(y, pat, rep)
    decreases |x|
  {
    if x == [] {
      assert x + y == y;
    } else {
      ReplacePassesPrefix(x[1..], y, pat, rep);
      assert (x + y)[1..] == x[1..] + y;
      if |x + y| < |pat| {
        assert |y| < |pat|;
      } else {
        assert (x + y)[0] != pat[0];
        assert [x[0]] + x[1..] == x;
        AppendAssociates([x[0]], x[1..], ReplaceAll(y, pat, rep));
      }
    }
  }

  /**
   * Every occurrence is replaced, left to right: an occurrence preceded by
   * text without the placeholder's first character becomes the value, and
   * the scan goes on after it.
   */
  lemma ReplaceOccurrence(x: string, pat: string, rep: string, y: string)
    requires pat != "" && pat[0] !in x
    ensures ReplaceAll(x + pat + y, pat, rep) == x + rep + ReplaceAll(y, pat, rep)
  {
    assert x + pat + y == x + (pat + y);
    ReplacePassesPrefix(x, pat + y, pat, rep);
    assert (pat + y)[|pat|..] == y;
    AppendAssociates(x, rep, ReplaceAll(y, pat, rep));
  }

  /** A template without the placeholder is left as it is by `replace`. */
  lemma {:induction false} ReplaceAbsent(s: string, pat: string, rep: string)
    requires pat != "" && !Contains(s, pat)
    ensures ReplaceAll(s, pat, rep) == s
    decreases |s|
  {
    if |s| >= |pat| {
      assert !(pat <= s[0..]);
      assert s[0..] == s;
      ContainsInTail(s, pat);
      ReplaceAbsent(s[1..], pat, rep);
      assert s == [s[0]] + s[1..];
    }
  }

  /** An occurrence in the tail is an occurrence in the whole. */
  lemma ContainsInTail(s: string, pat: string)
    requires s != []
    ensures Contains(s[1..], pat) ==> Contains(s, pat)
  {
    if Contains(s[1..], pat) {
      var i :| 0 <= i <= |s[1..]| && pat <= s[1..][i..];
      assert s[1..][i..] == s[i + 1..];
    }
  }

  /** A string holding the placeholder holds its first character. */
  lemma ContainsFirstChar(s: string, pat: string)
    requires pat != ""
    ensures Contains(s, pat) ==> pat[0] in s
  {
    if Contains(s, pat) {
      var i :| 0 <= i <= |s| && pat <= s[i..];
      assert s[i] == pat[0];
    }
  }

  /** The docx guard changes nothing: replacing an absent placeholder is the identity. */
  lemma {:induction false} GuardedIsUnguarded(s: string, reps: seq<(string, string)>)
    requires NonEmptyKeys(reps)
    ensures SubstituteGuarded(s, reps) == SubstituteAll(s, reps)
    decreases |reps|
  {
    if |reps| > 0 {
      if !Contains(s, reps[0].0) {
        ReplaceAbsent(s, reps[0].0, reps[0].1);
      }
      var next := ReplaceAll(s, reps[0].0, reps[0].1);
      assert NonEmptyKeys(reps[1..]);
      GuardedIsUnguarded(next, reps[1..]);
    }
  }

  /** With no placeholder in it the template is returned unchanged. */
  lemma {:induction false} NoPlaceholderUnchanged(s: string, reps: seq<(string, string)>)
    requires NonEmptyKeys(reps)
    requires forall i :: 0 <= i < |reps| ==> !Contains(s, reps[i].0)
    ensures SubstituteAll(s, reps) == s
    decreases |reps|
  {
    if |reps| > 0 {
      ReplaceAbsent(s, reps[0].0, reps[0].1);
      NoPlaceholderUnchanged(s, reps[1..]);
    }
  }

  /** A template holding none of the ten placeholders comes back as it is. */
  lemma TemplateWithoutPlaceholders(data: Json, template: string)
    requires data.JObj? && Replacements(data.fields).Ok?
    requires forall i :: 0 <= i < |Placeholders| ==> !Contains(template, Placeholders[i])
    ensures FormatTxt(data, template) == Ok(template)
  {
    var reps := Replacements(data.fields).value;
    PlaceholdersNonEmpty();
    NoPlaceholderUnchanged(template, reps);
  }

  /** Replacing a placeholder by itself changes nothing. */
  lemma {:induction false} ReplaceSelf(s: string, pat: string)
    requires pat != ""
    ensures ReplaceAll(s, pat, pat) == s
    decreases |s|
  {
    if |s| >= |pat| {
      if pat <= s {
        ReplaceSelf(s[|pat|..], pat);
        assert s == pat + s[|pat|..];
      } else {
        ReplaceSelf(s[1..], pat);
        assert s == [s[0]] + s[1..];
      }
    }
  }

  /**
   * The docx and the txt formatter agree: each paragraph of the document
   * ends up as the txt formatter would turn that paragraph's text, and both
   * fail alike.
   */
  lemma DocxAgreesWithTxt(data: Json, paragraphs: seq<string>)
    ensures FormatDocx(data, paragraphs).Err? ==> FormatDocx(data, paragraphs) == FormatTxt(data, "").PropagateFailure()
    ensures FormatDocx(data, paragraphs).Ok? <==> FormatTxt(data, "").Ok?
    ensures FormatDocx(data, paragraphs).Ok? ==>
      forall i :: 0 <= i < |paragraphs| ==> FormatTxt(data, paragraphs[i]) == Ok(FormatDocx(data, paragraphs).value[i])
  {
    if data.JObj? && Replacements(data.fields).Ok? {
      var reps := Replacements(data.fields).value;
      PlaceholdersNonEmpty();
      forall i | 0 <= i < |paragraphs|
        ensures FormatTxt(data, paragraphs[i]) == Ok(FormatDocx(data, paragraphs).value[i])
      {
        GuardedIsUnguarded(paragraphs[i], reps);
      }
    }
  }
}

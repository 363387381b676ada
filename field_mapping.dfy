/**
 * The mapping the builder page applies to the parser's JSON payload when it
 * is opened with `parsedData`: fixed key aliases, comma-split tag lists, a
 * single education entry and an element-wise work list.
 */
module FieldMapping {
  import opened Wrappers
  import opened Json
  import opened Text
  import opened ResumeRecord

  datatype MapError =
    /** `payload[key].split` on a truthy value that is not a string (a TypeError in the page). */
    | NotSplittable(key: string)
    /** `w.company_name` on a `null` element of `work_experience` (a TypeError in the page). */
    | NullWorkEntry(index: nat)
    /** A truthy value that is not a string, which the page would store as is; the record holds text only. */
    | NonText(key: string)

  /** `v[key] || ''`. */
  function TextField(v: Json, key: string): (r: Result<string, MapError>)
    ensures !Truthy(Prop(v, key)) ==> r == Ok("")
    ensures Prop(v, key).Some? && Prop(v, key).value.JStr? ==> r == Ok(Prop(v, key).value.s)
    ensures r.Err? <==> !Textual(Prop(v, key))
  {
    var x := Prop(v, key);
    if !Truthy(x) then Ok("")
    else if x.value.JStr? then Ok(x.value.s)
    else Err(NonText(key))
  }

  /** The comma-separated tokens of a tag string, each trimmed, empty ones kept. */
  function CommaTokens(s: string): (r: seq<string>)
    ensures |r| == CountIn(s, {','}) + 1
    ensures forall i :: 0 <= i < |r| ==> r[i] == Trim(Split(s, {','})[i])
  {
    var parts := Split(s, {','});
    seq(|parts|, i requires 0 <= i < |parts| => Trim(parts[i]))
  }

  /** `payload[key] ? payload[key].split(',').map(t => t.trim()) : []`. */
  function TagsField(p: Json, key: string): (r: Result<seq<string>, MapError>)
    ensures !Truthy(Prop(p, key)) ==> r == Ok([])
    ensures r.Err? <==> !Textual(Prop(p, key))
    ensures r.Err? ==> r.error == NotSplittable(key)
    ensures r.Ok? && Truthy(Prop(p, key)) ==>
      var s := Prop(p, key).value.s;
      |r.value| == CountIn(s, {','}) + 1 && forall i :: 0 <= i < |r.value| ==> r.value[i] == Trim(Split(s, {','})[i])
  {
    var x := Prop(p, key);
    if !Truthy(x) then Ok([])
    else if x.value.JStr? then Ok(CommaTokens(x.value.s))
    else Err(NotSplittable(key))
  }

  /**
   * `payload.education ? [{ school: payload.education, degree: '', gpa: '', date: '', info: '' }] : []`:
   * any truthy value, a string or the parser's list of objects alike, becomes
   * the `school` of the one entry.
   */
  function EducationField(p: Json): (r: seq<Item>)
    ensures !Truthy(Prop(p, "education")) ==> r == []
    ensures Truthy(Prop(p, "education")) ==>
      && |r| == 1
      && r[0].Keys == {"school", "degree", "gpa", "date", "info"}
      && Some(r[0]["school"]) == Prop(p, "education")
      && r[0]["degree"] == r[0]["gpa"] == r[0]["date"] == r[0]["info"] == JStr("")
  {
    var x := Prop(p, "education");
    if !Truthy(x) then []
    else [map["school" := x.value, "degree" := JStr(""), "gpa" := JStr(""), "date" := JStr(""), "info" := JStr("")]]
  }

  /** One element of `work_experience`, mapped to `{ company, title, date, description }`. */
  function WorkEntry(w: Json, index: nat): (r: Result<Item, MapError>)
    ensures r.Ok? ==> r.value.Keys == {"company", "title", "date", "description"}
    ensures r.Ok? ==> forall k :: k in r.value ==> r.value[k].JStr?
    ensures r.Ok? ==>
      && TextField(w, "company_name") == Ok(Field(r.value, "company"))
      && TextField(w, "role_name") == Ok(Field(r.value, "title"))
      && TextField(w, "project_duration") == Ok(Field(r.value, "date"))
      && TextField(w, "project_description") == Ok(Field(r.value, "description"))
    ensures r.Err? <==> !TextualWorkEntry(w)
  {
    if w == JNull then Err(NullWorkEntry(index))
    else
      var company :- TextField(w, "company_name");
      var title :- TextField(w, "role_name");
      var date :- TextField(w, "project_duration");
      var description :- TextField(w, "project_description");
      Ok(map["company" := JStr(company), "title" := JStr(title), "date" := JStr(date), "description" := JStr(description)])
  }

  /** `ws.map(...)` from index `from` on, stopping at the first element that throws. */
  function WorkEntries(ws: seq<Json>, from: nat): (r: Result<seq<Item>, MapError>)
    ensures r.Ok? ==> |r.value| == |ws|
    ensures r.Ok? ==> forall i :: 0 <= i < |ws| ==> WorkEntry(ws[i], from + i) == Ok(r.value[i])
    ensures r.Err? ==> exists i :: 0 <= i < |ws| && WorkEntry(ws[i], from + i).Err?
    decreases |ws|
  {
    if |ws| == 0 then Ok([])
    else
      var w :- WorkEntry(ws[0], from);
      var rest := WorkEntries(ws[1..], from + 1);
      if rest.Err? then
        assert exists i :: 1 <= i < |ws| && WorkEntry(ws[i], from + i).Err? by {
          var j :| 0 <= j < |ws| - 1 && WorkEntry(ws[1..][j], from + 1 + j).Err?;
          assert ws[j + 1] == ws[1..][j];
        }
        Err(rest.error)
      else
        Ok([w] + rest.value)
  }

  /** `Array.isArray(payload.work_experience) ? payload.work_experience.map(...) : []`. */
  function WorkField(p: Json): (r: Result<seq<Item>, MapError>)
    ensures !(Prop(p, "work_experience").Some? && Prop(p, "work_experience").value.JArr?) ==> r == Ok([])
    ensures Prop(p, "work_experience").Some? && Prop(p, "work_experience").value.JArr? ==>
      var ws := Prop(p, "work_experience").value.items;
      && (r.Ok? ==> |r.value| == |ws| && forall i :: 0 <= i < |ws| ==> WorkEntry(ws[i], i) == Ok(r.value[i]))
      && (r.Err? <==> exists i :: 0 <= i < |ws| && !TextualWorkEntry(ws[i]))
  {
    match Prop(p, "work_experience")
    case Some(JArr(ws)) => WorkEntries(ws, 0)
    case _ => Ok([])
  }

  /** The record built from a parsed payload; fields are evaluated in the page's order. */
  function MapPayload(p: Json): (r: Result<Resume, MapError>)
    ensures r.Ok? ==> r.value.projects == []
    ensures r.Ok? ==>
      && TextField(p, "full_name") == Ok(r.value.name)
      && TextField(p, "designation") == Ok(r.value.title)
      && TextField(p, "professional_summary") == Ok(r.value.summary)
      && TextField(p, "email_id") == Ok(r.value.email)
      && TextField(p, "phone") == Ok(r.value.phone)
      && TextField(p, "linkedin_id") == Ok(r.value.linkedin)
      && TextField(p, "github_portfolio") == Ok(r.value.github)
    ensures r.Ok? ==>
      && TagsField(p, "certifications") == Ok(r.value.certifications)
      && TagsField(p, "skills") == Ok(r.value.skills)
      && EducationField(p) == r.value.education
      && WorkField(p) == Ok(r.value.work)
  {
    var name :- TextField(p, "full_name");
    var title :- TextField(p, "designation");
    var summary :- TextField(p, "professional_summary");
    var email :- TextField(p, "email_id");
    var phone :- TextField(p, "phone");
    var linkedin :- TextField(p, "linkedin_id");
    var github :- TextField(p, "github_portfolio");
    var certifications :- TagsField(p, "certifications");
    var skills :- TagsField(p, "skills");
    var education := EducationField(p);
    var work :- WorkField(p);
    Ok(Resume(name, title, summary, email, phone, linkedin, github, work, education, [], skills, certifications))
  }

  /** A value the record can hold: absent, falsy, or a string. */
  predicate Textual(v: Option<Json>) {
    !Truthy(v) || v.value.JStr?
  }

  predicate TextualWorkEntry(w: Json) {
    w != JNull
    && Textual(Prop(w, "company_name")) && Textual(Prop(w, "role_name"))
    && Textual(Prop(w, "project_duration")) && Textual(Prop(w, "project_description"))
  }

  /**
   * Every text field the mapping reads is absent, falsy or a string, and no
   * work element is null; `education` may be anything.
   */
  predicate TextualPayload(p: Json) {
    && Textual(Prop(p, "full_name")) && Textual(Prop(p, "designation"))
    && Textual(Prop(p, "professional_summary")) && Textual(Prop(p, "email_id"))
    && Textual(Prop(p, "phone")) && Textual(Prop(p, "linkedin_id"))
    && Textual(Prop(p, "github_portfolio")) && Textual(Prop(p, "certifications"))
    && Textual(Prop(p, "skills"))
    && (Prop(p, "work_experience").Some? && Prop(p, "work_experience").value.JArr? ==>
          forall i :: 0 <= i < |Prop(p, "work_experience").value.items| ==>
            TextualWorkEntry(Prop(p, "work_experience").value.items[i]))
  }
}

module FieldMappingProperties {
  import opened Wrappers
  import opened Json
  import opened Text
  import opened ResumeRecord
  import opened FieldMapping

  /** An empty payload (or one that is not an object) maps to the empty record. */
  lemma MapEmptyPayload(p: Json)
    requires !p.JObj? || p.fields == []
    ensures MapPayload(p) == Ok(EmptyResume)
  {
  }

  /** Mapping never fails on a payload whose fields are all text. */
  lemma MapTextualPayloadSucceeds(p: Json)
    requires TextualPayload(p)
    ensures MapPayload(p).Ok?
  {
    match Prop(p, "work_experience")
    case Some(JArr(ws)) => WorkEntriesSucceed(ws, 0);
    case _ =>
  }

  lemma {:induction false} WorkEntriesSucceed(ws: seq<Json>, from: nat)
    requires forall i :: 0 <= i < |ws| ==> TextualWorkEntry(ws[i])
    ensures WorkEntries(ws, from).Ok?
    decreases |ws|
  {
    if |ws| > 0 {
      WorkEntriesSucceed(ws[1..], from + 1);
    }
  }

  /**
   * A non-empty skills (or certifications) string maps to its comma-separated
   * pieces, trimmed and in order: one token per comma plus one, empty tokens
   * kept; joining the pieces with commas gives the string back. The record,
   * when the mapping succeeds, holds those tokens.
   */
  lemma MapTagTokens(p: Json, t: TagList, s: string)
    requires Prop(p, if t == SkillTags then "skills" else "certifications") == Some(JStr(s))
    requires s != ""
    ensures var tags := TagsField(p, if t == SkillTags then "skills" else "certifications");
      && tags.Ok?
      && |tags.value| == CountIn(s, {','}) + 1
      && (forall i :: 0 <= i < |tags.value| ==> tags.value[i] == Trim(Split(s, {','})[i]))
      && (MapPayload(p).Ok? ==> Tags(MapPayload(p).value, t) == tags.value)
    ensures Join(Split(s, {','}), ",") == s
  {
    var key := if t == SkillTags then "skills" else "certifications";
    assert TagsField(p, key) == Ok(CommaTokens(s));
    JoinSplit(s, ',');
  }

  /** An absent or falsy tag value maps to an empty list, and never fails. */
  lemma MapTagsAbsent(p: Json, t: TagList)
    requires !Truthy(Prop(p, if t == SkillTags then "skills" else "certifications"))
    ensures TagsField(p, if t == SkillTags then "skills" else "certifications") == Ok([])
    ensures MapPayload(p).Ok? ==> Tags(MapPayload(p).value, t) == []
  {
  }

  /**
   * A truthy education value, a string or the parser's list of objects
   * alike, becomes exactly one entry holding it as `school`, the other keys
   * empty; a successful mapping stores that list as the record's education.
   */
  lemma MapEducationEntry(p: Json, v: Json)
    requires Prop(p, "education") == Some(v) && Truthy(Some(v))
    ensures var ed := EducationField(p);
      && |ed| == 1
      && ed[0].Keys == {"school", "degree", "gpa", "date", "info"}
      && ed[0]["school"] == v
      && Field(ed[0], "degree") == "" && Field(ed[0], "gpa") == ""
      && Field(ed[0], "date") == "" && Field(ed[0], "info") == ""
    ensures MapPayload(p).Ok? ==> MapPayload(p).value.education == EducationField(p)
  {
  }

  /** The parser's shape: a list of education objects maps without error to one entry holding that list. */
  lemma MapParsedEducation()
    ensures var ed := JArr([JObj([("school", JStr("MIT"))])]);
      MapPayload(JObj([("education", ed)])) == Ok(EmptyResume.(education := EducationField(JObj([("education", ed)]))))
    ensures var ed := JArr([JObj([("school", JStr("MIT"))])]);
      EducationField(JObj([("education", ed)]))[0]["school"] == ed
  {
    var ed := JArr([JObj([("school", JStr("MIT"))])]);
    var p := JObj([("education", ed)]);
    assert Prop(p, "education") == Some(ed);
    MapTextualPayloadSucceeds(p);
  }

  /**
   * An array `work_experience` maps element by element to a list of the same
   * length; each entry takes its four keys from the aliased keys, missing ones
   * as ''. The mapping fails on it exactly when some element is null or holds
   * a non-text field.
   */
  lemma MapWorkEntries(p: Json, ws: seq<Json>)
    requires Prop(p, "work_experience") == Some(JArr(ws))
    ensures WorkField(p).Err? <==> exists i :: 0 <= i < |ws| && !TextualWorkEntry(ws[i])
    ensures WorkField(p).Ok? ==>
      var work := WorkField(p).value;
      && |work| == |ws|
      && forall i :: 0 <= i < |ws| ==>
           && work[i].Keys == {"company", "title", "date", "description"}
           && Ok(Field(work[i], "company")) == TextField(ws[i], "company_name")
           && Ok(Field(work[i], "title")) == TextField(ws[i], "role_name")
           && Ok(Field(work[i], "date")) == TextField(ws[i], "project_duration")
           && Ok(Field(work[i], "description")) == TextField(ws[i], "project_description")
    ensures MapPayload(p).Ok? ==> WorkField(p) == Ok(MapPayload(p).value.work)
  {
    if WorkField(p).Ok? {
      var work := WorkField(p).value;
      assert WorkEntries(ws, 0) == Ok(work);
      forall i | 0 <= i < |ws|
        ensures work[i].Keys == {"company", "title", "date", "description"}
        ensures Ok(Field(work[i], "company")) == TextField(ws[i], "company_name")
        ensures Ok(Field(work[i], "title")) == TextField(ws[i], "role_name")
        ensures Ok(Field(work[i], "date")) == TextField(ws[i], "project_duration")
        ensures Ok(Field(work[i], "description")) == TextField(ws[i], "project_description")
      {
        assert WorkEntry(ws[i], i) == Ok(work[i]);
      }
    }
  }

  /** A `work_experience` that is not an array gives no work entries, and never fails. */
  lemma MapWorkNotArray(p: Json)
    requires !(Prop(p, "work_experience").Some? && Prop(p, "work_experience").value.JArr?)
    ensures WorkField(p) == Ok([])
    ensures MapPayload(p).Ok? ==> MapPayload(p).value.work == []
  {
  }
}

/**
 * The canonical resume record the builder page holds as its form state.
 * Work, education and project entries are plain objects (keys such as
 * `company`, `date`, `description`); their values are strings, except the
 * `school` of a mapped education entry, which holds whatever the payload's
 * `education` was.
 */
module ResumeRecord {
  import opened Json

  /** A nested entry: a JavaScript object, as JSON values. */
  type Item = map<string, Json>

  datatype Resume = Resume(
    name: string,
    title: string,
    summary: string,
    email: string,
    phone: string,
    linkedin: string,
    github: string,
    work: seq<Item>,
    education: seq<Item>,
    projects: seq<Item>,
    skills: seq<string>,
    certifications: seq<string>)

  /** The initial form state of the builder page. */
  const EmptyResume: Resume := Resume("", "", "", "", "", "", "", [], [], [], [], [])

  /** The two tag lists the page edits with `addTag` / `removeTag`. */
  datatype TagList = SkillTags | CertificationTags

  /** The three entry lists the page edits with `addItem` / `deleteItem` / `handleNestedChange`. */
  datatype ItemList = WorkItems | EducationItems | ProjectItems

  function Tags(r: Resume, t: TagList): seq<string> {
    match t
    case SkillTags => r.skills
    case CertificationTags => r.certifications
  }

  /** `{ ...r, [t]: s }`: the record with tag list `t` replaced and every other field kept. */
  function WithTags(r: Resume, t: TagList, s: seq<string>): (r': Resume)
    ensures Tags(r', t) == s
    ensures forall u :: u != t ==> Tags(r', u) == Tags(r, u)
    ensures forall f :: Items(r', f) == Items(r, f)
    ensures r'.name == r.name && r'.title == r.title && r'.summary == r.summary
    ensures r'.email == r.email && r'.phone == r.phone && r'.linkedin == r.linkedin && r'.github == r.github
  {
    match t
    case SkillTags => r.(skills := s)
    case CertificationTags => r.(certifications := s)
  }

  function Items(r: Resume, f: ItemList): seq<Item> {
    match f
    case WorkItems => r.work
    case EducationItems => r.education
    case ProjectItems => r.projects
  }

  /** `{ ...r, [f]: s }`: the record with entry list `f` replaced and every other field kept. */
  function WithItems(r: Resume, f: ItemList, s: seq<Item>): (r': Resume)
    ensures Items(r', f) == s
    ensures forall g :: g != f ==> Items(r', g) == Items(r, g)
    ensures forall t :: Tags(r', t) == Tags(r, t)
    ensures r'.name == r.name && r'.title == r.title && r'.summary == r.summary
    ensures r'.email == r.email && r'.phone == r.phone && r'.linkedin == r.linkedin && r'.github == r.github
  {
    match f
    case WorkItems => r.(work := s)
    case EducationItems => r.(education := s)
    case ProjectItems => r.(projects := s)
  }

  /**
   * `item.key` as text: a missing key reads as undefined, which every
   * consumer treats like `''`. The keys consumers read (`date`, `company`,
   * `description` of work entries) only ever hold strings.
   */
  function Field(item: Item, key: string): string {
    if key in item && item[key].JStr? then item[key].s else ""
  }
}

/** The résumé data model (types.ts), the editor's step order (App.tsx) and
    the built-in default résumé. */
module ResumeTypes {

  datatype Option<T> = None | Some(value: T)

  datatype ContactInfo = ContactInfo(
    fullName: string,
    email: string,
    phone: string,
    location: string,
    website: string,
    linkedin: string)

  /** A job; an empty `endDate` means the job is ongoing. */
  datatype Experience = Experience(
    id: string,
    company: string,
    position: string,
    startDate: string,
    endDate: string,
    description: string,
    highlights: seq<string>)

  /** A credential; `gpa` is the one optional field of the model. */
  datatype Education = Education(
    id: string,
    school: string,
    degree: string,
    fieldOfStudy: string,
    graduationDate: string,
    gpa: Option<string>)

  /** The four proficiency levels. `Unset` is the level the application stores
      as the string 'None' and labels "Level: Unset". */
  datatype SkillLevel = Beginner | Intermediate | Expert | Unset

  datatype Skill = Skill(id: string, name: string, level: SkillLevel)

  datatype TemplateType = Classic | Modern | Standard | Minimal

  /** The aggregate that the editor changes and every preview and export reads. */
  datatype ResumeData = ResumeData(
    contact: ContactInfo,
    summary: string,
    experiences: seq<Experience>,
    education: seq<Education>,
    skills: seq<Skill>,
    template: TemplateType)

  /** The five editor steps. */
  datatype Section = ContactSection | SummarySection | ExperienceSection | EducationSection | SkillsSection

  /** The string the application stores for a skill level: the `value` of its `<option>`. */
  function LevelId(l: SkillLevel): string {
    match l
    case Beginner => "Beginner"
    case Intermediate => "Intermediate"
    case Expert => "Expert"
    case Unset => "None"
  }

  /** The level a stored string denotes, if it is one of the four. */
  function ParseLevel(s: string): (r: Option<SkillLevel>)
    ensures r.Some? <==> s in {"Beginner", "Intermediate", "Expert", "None"}
    ensures r.Some? ==> LevelId(r.value) == s
    ensures forall l :: s == LevelId(l) ==> r == Some(l)
  {
    if s == "Beginner" then Some(Beginner)
    else if s == "Intermediate" then Some(Intermediate)
    else if s == "Expert" then Some(Expert)
    else if s == "None" then Some(Unset)
    else None
  }

  /** The string the application stores for a template. */
  function TemplateId(t: TemplateType): string {
    match t
    case Classic => "classic"
    case Modern => "modern"
    case Standard => "standard"
    case Minimal => "minimal"
  }

  /** The template a stored string denotes, if it is one of the four. */
  function ParseTemplate(s: string): (r: Option<TemplateType>)
    ensures r.Some? <==> s in {"classic", "modern", "standard", "minimal"}
    ensures r.Some? ==> TemplateId(r.value) == s
    ensures forall t :: s == TemplateId(t) ==> r == Some(t)
  {
    if s == "classic" then Some(Classic)
    else if s == "modern" then Some(Modern)
    else if s == "standard" then Some(Standard)
    else if s == "minimal" then Some(Minimal)
    else None
  }

  /** The navigation list: the order in which Previous and Continue walk the steps. */
  const SectionOrder: seq<Section> := [ContactSection, SummarySection, ExperienceSection, EducationSection, SkillsSection]

  /** `sections.findIndex(s => s.id === section)`: every step is in the list, at exactly one position. */
  function IndexOf(section: Section): (i: nat)
    ensures i < |SectionOrder| && SectionOrder[i] == section
    ensures forall j :: 0 <= j < |SectionOrder| && SectionOrder[j] == section ==> j == i
  {
    match section
    case ContactSection => 0
    case SummarySection => 1
    case ExperienceSection => 2
    case EducationSection => 3
    case SkillsSection => 4
  }

  /** Every highlight of every experience, in order: what a renderer that
      filters nothing lists as bullets. */
  function AllHighlights(es: seq<Experience>): seq<string> {
    if es == [] then [] else es[0].highlights + AllHighlights(es[1..])
  }

  /** `skills.map(s => s.name)`. */
  function SkillNames(skills: seq<Skill>): (r: seq<string>)
    ensures |r| == |skills| && forall i :: 0 <= i < |skills| ==> r[i] == skills[i].name
  {
    seq(|skills|, i requires 0 <= i < |skills| => skills[i].name)
  }

  /** The built-in résumé the editor starts from when nothing was saved. */
  const InitialData: ResumeData := ResumeData(
    ContactInfo("Alexander Sterling", "a.sterling@exec.com", "+1 415 555 0123",
                "San Francisco, CA", "sterling.design", "linkedin.com/in/alexsterling"),
    "Strategic technology leader with 10+ years of experience in architecting high-performance distributed systems. Proven track record of scaling engineering teams from 5 to 50 while maintaining agile excellence and product-market fit.",
    [Experience("1", "Quantum Systems", "VP of Engineering", "2021-06", "Present",
                "Overseeing the technical roadmap for the core cloud infrastructure.",
                ["Reduced infrastructure costs by 35% through strategic migration to serverless architecture.",
                 "Implemented AI-driven code review processes that increased deployment velocity by 50%."])],
    [Education("1", "Stanford University", "Master of Science", "Computer Science", "2019-05", None)],
    [Skill("1", "Strategic Planning", Expert), Skill("2", "Cloud Architecture", Expert),
     Skill("3", "Team Leadership", Expert)],
    Classic)

  /** Identifiers are only unique within one list: the default résumé uses
      "1" for an experience, an education entry and a skill at once. */
  lemma InitialIdsShared()
    ensures InitialData.experiences[0].id == InitialData.education[0].id == InitialData.skills[0].id
  {
  }
}

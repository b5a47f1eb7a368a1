/** The editor's updates of the résumé aggregate: each `setData(prev => ...)`
    of App.tsx is a function from the previous value to the next one. New
    identifiers (from `Date.now()` or `Math.random()`) and the texts returned
    by the writing assistant are parameters. */
module Edits {
  import opened ResumeTypes
  import opened Lists

  // ---------------------------------------------------------------- contact

  /** The six inputs of the contact form, each bound to one field. */
  datatype ContactField = FullName | Email | Phone | Location | Website | LinkedIn

  function ContactFieldOf(c: ContactInfo, f: ContactField): string {
    match f
    case FullName => c.fullName
    case Email => c.email
    case Phone => c.phone
    case Location => c.location
    case Website => c.website
    case LinkedIn => c.linkedin
  }

  /** `updateContact(field, value)`: the one contact field takes the new value;
      the other contact fields and the rest of the aggregate stay as they were. */
  function UpdateContact(d: ResumeData, f: ContactField, value: string): (r: ResumeData)
    ensures r == d.(contact := r.contact)
    ensures ContactFieldOf(r.contact, f) == value
    ensures forall g :: g != f ==> ContactFieldOf(r.contact, g) == ContactFieldOf(d.contact, g)
  {
    var c := d.contact;
    d.(contact := match f
      case FullName => c.(fullName := value)
      case Email => c.(email := value)
      case Phone => c.(phone := value)
      case Location => c.(location := value)
      case Website => c.(website := value)
      case LinkedIn => c.(linkedin := value))
  }

  // ------------------------------------------------------ summary, template

  /** The biography text area and the assistant's summary both store the new text. */
  function SetSummary(d: ResumeData, summary: string): (r: ResumeData)
    ensures r.summary == summary
    ensures r == d.(summary := r.summary)
  {
    d.(summary := summary)
  }

  /** The template switcher. */
  function SetTemplate(d: ResumeData, t: TemplateType): (r: ResumeData)
    ensures r.template == t
    ensures r == d.(template := r.template)
  {
    d.(template := t)
  }

  /** The role handed to the writing assistant: `data.experiences[0]?.position || "Professional"`. */
  function AssistantRole(d: ResumeData): (r: string)
    ensures r != ""
    ensures |d.experiences| > 0 && d.experiences[0].position != "" ==> r == d.experiences[0].position
    ensures (|d.experiences| == 0 || d.experiences[0].position == "") ==> r == "Professional"
  {
    if |d.experiences| > 0 && d.experiences[0].position != "" then d.experiences[0].position else "Professional"
  }

  // ------------------------------------------------------------ experiences

  /** The four text inputs of an experience card. */
  datatype ExperienceField = Position | Company | StartDate | EndDate

  function ExperienceFieldOf(e: Experience, f: ExperienceField): string {
    match f
    case Position => e.position
    case Company => e.company
    case StartDate => e.startDate
    case EndDate => e.endDate
  }

  /** `a` and `b` agree everywhere except possibly in field `f`. */
  predicate ExperienceAgreesExcept(a: Experience, b: Experience, f: ExperienceField) {
    && a.id == b.id && a.description == b.description && a.highlights == b.highlights
    && (f == Position || a.position == b.position)
    && (f == Company || a.company == b.company)
    && (f == StartDate || a.startDate == b.startDate)
    && (f == EndDate || a.endDate == b.endDate)
  }

  /** `{...e, [f]: value}`. */
  function WithExperienceField(e: Experience, f: ExperienceField, value: string): (r: Experience)
    ensures ExperienceFieldOf(r, f) == value
    ensures ExperienceAgreesExcept(r, e, f)
  {
    match f
    case Position => e.(position := value)
    case Company => e.(company := value)
    case StartDate => e.(startDate := value)
    case EndDate => e.(endDate := value)
  }

  /** Editing one field of the experience with identifier `id`: every entry
      carrying that identifier gets the value in that field and nothing else
      changes, neither in the list nor elsewhere in the aggregate. */
  function UpdateExperience(d: ResumeData, id: string, f: ExperienceField, value: string): (r: ResumeData)
    ensures r == d.(experiences := r.experiences)
    ensures |r.experiences| == |d.experiences|
    ensures forall j :: 0 <= j < |d.experiences| ==>
      if d.experiences[j].id == id
      then ExperienceFieldOf(r.experiences[j], f) == value && ExperienceAgreesExcept(r.experiences[j], d.experiences[j], f)
      else r.experiences[j] == d.experiences[j]
  {
    d.(experiences := MapIf(d.experiences, (e: Experience) => e.id == id,
                            (e: Experience) => WithExperienceField(e, f, value)))
  }

  /** An edit aimed at an identifier that no experience carries changes nothing. */
  lemma UpdateExperienceAbsentId(d: ResumeData, id: string, f: ExperienceField, value: string)
    requires forall e :: e in d.experiences ==> e.id != id
    ensures UpdateExperience(d, id, f, value) == d
  {
    var r := UpdateExperience(d, id, f, value);
    assert r.experiences == d.experiences by {
      forall j | 0 <= j < |d.experiences| ensures r.experiences[j] == d.experiences[j] {
        assert d.experiences[j] in d.experiences;
      }
    }
  }

  /** Of two edits of the same field the later one wins. */
  lemma UpdateExperienceLastWins(d: ResumeData, id: string, f: ExperienceField, v: string, w: string)
    ensures UpdateExperience(UpdateExperience(d, id, f, v), id, f, w) == UpdateExperience(d, id, f, w)
  {
    var a := UpdateExperience(UpdateExperience(d, id, f, v), id, f, w);
    var b := UpdateExperience(d, id, f, w);
    assert a.experiences == b.experiences by {
      forall j | 0 <= j < |d.experiences| ensures a.experiences[j] == b.experiences[j] {
        if d.experiences[j].id == id {
          match f
          case Position =>
          case Company =>
          case StartDate =>
          case EndDate =>
        }
      }
    }
  }

  /** The trash button: `experiences.filter(e => e.id !== id)`. Exactly the
      entries with that identifier go; every other entry stays, as often as it
      occurred, in its original relative order. */
  function DeleteExperience(d: ResumeData, id: string): (r: ResumeData)
    ensures r == d.(experiences := r.experiences)
    ensures forall e :: e in r.experiences ==> e.id != id
    ensures forall e :: multiset(r.experiences)[e] == if e.id == id then 0 else multiset(d.experiences)[e]
    ensures IsSubsequence(r.experiences, d.experiences)
  {
    var keep := (e: Experience) => e.id != id;
    FilterCount(d.experiences, keep);
    FilterIsSubsequence(d.experiences, keep);
    d.(experiences := Filter(d.experiences, keep))
  }

  /** The entry "Add Employment History" creates: the given identifier, every
      text empty, and one empty bullet. */
  function BlankExperience(id: string): (r: Experience)
    ensures r.id == id && r.description == "" && r.highlights == [""]
    ensures forall f :: ExperienceFieldOf(r, f) == ""
  {
    Experience(id, "", "", "", "", "", [""])
  }

  /** "Add Employment History": one blank entry, holding a single empty bullet,
      is appended after the existing ones. */
  function AddExperience(d: ResumeData, newId: string): (r: ResumeData)
    ensures r == d.(experiences := r.experiences)
    ensures |r.experiences| == |d.experiences| + 1
    ensures r.experiences[..|d.experiences|] == d.experiences
    ensures var e := r.experiences[|d.experiences|];
      && e.id == newId && e.company == "" && e.position == "" && e.startDate == ""
      && e.endDate == "" && e.description == "" && e.highlights == [""]
  {
    d.(experiences := d.experiences + [BlankExperience(newId)])
  }

  /** Deleting the entry just added, under an identifier not used before, restores the résumé. */
  lemma {:induction false} DeleteUndoesAddExperience(d: ResumeData, newId: string)
    requires forall e :: e in d.experiences ==> e.id != newId
    ensures DeleteExperience(AddExperience(d, newId), newId) == d
  {
    var keep := (e: Experience) => e.id != newId;
    FilterAppend(d.experiences, [BlankExperience(newId)], keep);
    FilterKeepsAll(d.experiences, keep);
    assert Filter([BlankExperience(newId)], keep) == [];
  }

  // ------------------------------------------------------------- highlights

  /** `experiences.map(ex => ex.id === id ? {...ex, highlights: hs} : ex)`. */
  function ReplaceHighlights(d: ResumeData, id: string, hs: seq<string>): (r: ResumeData)
    ensures r == d.(experiences := r.experiences)
    ensures |r.experiences| == |d.experiences|
    ensures forall j :: 0 <= j < |d.experiences| ==>
      r.experiences[j] == if d.experiences[j].id == id then d.experiences[j].(highlights := hs) else d.experiences[j]
  {
    d.(experiences := MapIf(d.experiences, (e: Experience) => e.id == id,
                            (e: Experience) => e.(highlights := hs)))
  }

  /** Typing into bullet `i` of the card at position `k` (and storing the
      assistant's rewrite of it, which takes the same path): the card's list
      is copied, position `i` is overwritten and the copy is stored in every
      entry with the card's identifier. No other bullet, field or entry changes. */
  function EditHighlight(d: ResumeData, k: nat, i: nat, value: string): (r: ResumeData)
    requires k < |d.experiences| && i < |d.experiences[k].highlights|
    ensures r == d.(experiences := r.experiences)
    ensures |r.experiences| == |d.experiences|
    ensures var h, h' := d.experiences[k].highlights, r.experiences[k].highlights;
      && |h'| == |h| && h'[i] == value
      && forall m :: 0 <= m < |h| && m != i ==> h'[m] == h[m]
    ensures forall j :: 0 <= j < |d.experiences| ==>
      r.experiences[j] == d.experiences[j].(highlights := r.experiences[j].highlights)
    ensures forall j :: 0 <= j < |d.experiences| ==>
      if d.experiences[j].id == d.experiences[k].id
      then r.experiences[j].highlights == r.experiences[k].highlights
      else r.experiences[j] == d.experiences[j]
  {
    var card := d.experiences[k];
    ReplaceHighlights(d, card.id, card.highlights[i := value])
  }

  /** The bullet's trash button: `highlights.filter((_, idx) => idx !== i)` on
      the card at position `k`, stored in every entry with its identifier.
      With `i` in range the list loses exactly position `i` and keeps the
      other bullets in order; otherwise it is rewritten unchanged. */
  function DeleteHighlight(d: ResumeData, k: nat, i: nat): (r: ResumeData)
    requires k < |d.experiences|
    ensures r == d.(experiences := r.experiences)
    ensures |r.experiences| == |d.experiences|
    ensures var h, h' := d.experiences[k].highlights, r.experiences[k].highlights;
      if i < |h|
      then |h'| == |h| - 1 && h'[..i] == h[..i] && h'[i..] == h[i + 1..]
      else h' == h
    ensures forall j :: 0 <= j < |d.experiences| ==>
      r.experiences[j] == d.experiences[j].(highlights := r.experiences[j].highlights)
    ensures forall j :: 0 <= j < |d.experiences| ==>
      if d.experiences[j].id == d.experiences[k].id
      then r.experiences[j].highlights == r.experiences[k].highlights
      else r.experiences[j] == d.experiences[j]
  {
    var card := d.experiences[k];
    var h' := RemoveIndex(card.highlights, i);
    var r := ReplaceHighlights(d, card.id, h');
    assert i < |card.highlights| ==> h'[..i] == card.highlights[..i] && h'[i..] == card.highlights[i + 1..];
    r
  }

  /** "Add Bullet Point": every entry with identifier `id` gets one more,
      empty, bullet at the end; no other entry changes. */
  function AddHighlight(d: ResumeData, id: string): (r: ResumeData)
    ensures r == d.(experiences := r.experiences)
    ensures |r.experiences| == |d.experiences|
    ensures forall j :: 0 <= j < |d.experiences| ==>
      var e, e' := d.experiences[j], r.experiences[j];
      if e.id == id
      then e' == e.(highlights := e'.highlights) && |e'.highlights| == |e.highlights| + 1
           && e'.highlights[..|e.highlights|] == e.highlights && e'.highlights[|e.highlights|] == ""
      else e' == e
  {
    d.(experiences := MapIf(d.experiences, (e: Experience) => e.id == id,
                            (e: Experience) => e.(highlights := e.highlights + [""])))
  }

  /** Where the card's identifier is its own, deleting the bullet just added
      restores the résumé. */
  lemma DeleteUndoesAddHighlight(d: ResumeData, k: nat)
    requires k < |d.experiences|
    requires forall j :: 0 <= j < |d.experiences| && j != k ==> d.experiences[j].id != d.experiences[k].id
    ensures DeleteHighlight(AddHighlight(d, d.experiences[k].id), k, |d.experiences[k].highlights|) == d
  {
    var a := AddHighlight(d, d.experiences[k].id);
    RemoveLastAppended(d.experiences[k].highlights, "");
    var r := DeleteHighlight(a, k, |d.experiences[k].highlights|);
    assert r.experiences[k].highlights == d.experiences[k].highlights;
    assert r.experiences == d.experiences;
  }

  // -------------------------------------------------------------- education

  /** The four text inputs of an education card. */
  datatype EducationField = School | Degree | FieldOfStudy | GraduationDate

  function EducationFieldOf(e: Education, f: EducationField): string {
    match f
    case School => e.school
    case Degree => e.degree
    case FieldOfStudy => e.fieldOfStudy
    case GraduationDate => e.graduationDate
  }

  /** `a` and `b` agree everywhere except possibly in field `f`. */
  predicate EducationAgreesExcept(a: Education, b: Education, f: EducationField) {
    && a.id == b.id && a.gpa == b.gpa
    && (f == School || a.school == b.school)
    && (f == Degree || a.degree == b.degree)
    && (f == FieldOfStudy || a.fieldOfStudy == b.fieldOfStudy)
    && (f == GraduationDate || a.graduationDate == b.graduationDate)
  }

  function WithEducationField(e: Education, f: EducationField, value: string): (r: Education)
    ensures EducationFieldOf(r, f) == value
    ensures EducationAgreesExcept(r, e, f)
  {
    match f
    case School => e.(school := value)
    case Degree => e.(degree := value)
    case FieldOfStudy => e.(fieldOfStudy := value)
    case GraduationDate => e.(graduationDate := value)
  }

  /** Editing one field of the education entry with identifier `id`. */
  function UpdateEducation(d: ResumeData, id: string, f: EducationField, value: string): (r: ResumeData)
    ensures r == d.(education := r.education)
    ensures |r.education| == |d.education|
    ensures forall j :: 0 <= j < |d.education| ==>
      if d.education[j].id == id
      then EducationFieldOf(r.education[j], f) == value && EducationAgreesExcept(r.education[j], d.education[j], f)
      else r.education[j] == d.education[j]
  {
    d.(education := MapIf(d.education, (e: Education) => e.id == id,
                          (e: Education) => WithEducationField(e, f, value)))
  }

  /** `education.filter(e => e.id !== id)`. */
  function DeleteEducation(d: ResumeData, id: string): (r: ResumeData)
    ensures r == d.(education := r.education)
    ensures forall e :: e in r.education ==> e.id != id
    ensures forall e :: multiset(r.education)[e] == if e.id == id then 0 else multiset(d.education)[e]
    ensures IsSubsequence(r.education, d.education)
  {
    var keep := (e: Education) => e.id != id;
    FilterCount(d.education, keep);
    FilterIsSubsequence(d.education, keep);
    d.(education := Filter(d.education, keep))
  }

  /** "Add Academic Credential": a blank entry, without a grade, appended at the end. */
  function AddEducation(d: ResumeData, newId: string): (r: ResumeData)
    ensures r == d.(education := r.education)
    ensures |r.education| == |d.education| + 1
    ensures r.education[..|d.education|] == d.education
    ensures var e := r.education[|d.education|];
      && e.id == newId && e.school == "" && e.degree == "" && e.fieldOfStudy == ""
      && e.graduationDate == "" && e.gpa == None
  {
    d.(education := d.education + [Education(newId, "", "", "", "", None)])
  }

  lemma {:induction false} DeleteUndoesAddEducation(d: ResumeData, newId: string)
    requires forall e :: e in d.education ==> e.id != newId
    ensures DeleteEducation(AddEducation(d, newId), newId) == d
  {
    var keep := (e: Education) => e.id != newId;
    var blank := Education(newId, "", "", "", "", None);
    FilterAppend(d.education, [blank], keep);
    FilterKeepsAll(d.education, keep);
    assert Filter([blank], keep) == [];
  }

  // ----------------------------------------------------------------- skills

  /** Renaming the skill with identifier `id`. */
  function UpdateSkillName(d: ResumeData, id: string, name: string): (r: ResumeData)
    ensures r == d.(skills := r.skills)
    ensures |r.skills| == |d.skills|
    ensures forall j :: 0 <= j < |d.skills| ==>
      r.skills[j] == if d.skills[j].id == id then d.skills[j].(name := name) else d.skills[j]
  {
    d.(skills := MapIf(d.skills, (s: Skill) => s.id == id, (s: Skill) => s.(name := name)))
  }

  /** Choosing a level in the skill's drop-down. */
  function UpdateSkillLevel(d: ResumeData, id: string, level: SkillLevel): (r: ResumeData)
    ensures r == d.(skills := r.skills)
    ensures |r.skills| == |d.skills|
    ensures forall j :: 0 <= j < |d.skills| ==>
      r.skills[j] == if d.skills[j].id == id then d.skills[j].(level := level) else d.skills[j]
  {
    d.(skills := MapIf(d.skills, (s: Skill) => s.id == id, (s: Skill) => s.(level := level)))
  }

  /** `skills.filter(s => s.id !== id)`. */
  function DeleteSkill(d: ResumeData, id: string): (r: ResumeData)
    ensures r == d.(skills := r.skills)
    ensures forall s :: s in r.skills ==> s.id != id
    ensures forall s :: multiset(r.skills)[s] == if s.id == id then 0 else multiset(d.skills)[s]
    ensures IsSubsequence(r.skills, d.skills)
  {
    var keep := (s: Skill) => s.id != id;
    FilterCount(d.skills, keep);
    FilterIsSubsequence(d.skills, keep);
    d.(skills := Filter(d.skills, keep))
  }

  /** "Add Skill": a nameless skill with level 'None' appended at the end. */
  function AddSkill(d: ResumeData, newId: string): (r: ResumeData)
    ensures r == d.(skills := r.skills)
    ensures |r.skills| == |d.skills| + 1
    ensures r.skills[..|d.skills|] == d.skills
    ensures r.skills[|d.skills|].id == newId && r.skills[|d.skills|].name == "" && r.skills[|d.skills|].level == Unset
  {
    d.(skills := d.skills + [Skill(newId, "", Unset)])
  }

  lemma {:induction false} DeleteUndoesAddSkill(d: ResumeData, newId: string)
    requires forall s :: s in d.skills ==> s.id != newId
    ensures DeleteSkill(AddSkill(d, newId), newId) == d
  {
    var keep := (s: Skill) => s.id != newId;
    FilterAppend(d.skills, [Skill(newId, "", Unset)], keep);
    FilterKeepsAll(d.skills, keep);
    assert Filter([Skill(newId, "", Unset)], keep) == [];
  }

  /** "Suggest with AI": the suggested names become skills with level 'None',
      appended after the existing skills in the order suggested; `ids` are the
      identifiers drawn for them. */
  function AddSuggestedSkills(d: ResumeData, names: seq<string>, ids: seq<string>): (r: ResumeData)
    requires |ids| == |names|
    ensures r == d.(skills := r.skills)
    ensures |r.skills| == |d.skills| + |names|
    ensures r.skills[..|d.skills|] == d.skills
    ensures forall j :: 0 <= j < |names| ==> r.skills[|d.skills| + j] == Skill(ids[j], names[j], Unset)
  {
    d.(skills := d.skills + seq(|names|, j requires 0 <= j < |names| => Skill(ids[j], names[j], Unset)))
  }

  /** After a suggestion the skill names read as before, followed by the suggestions. */
  lemma SuggestedSkillNames(d: ResumeData, names: seq<string>, ids: seq<string>)
    requires |ids| == |names|
    ensures SkillNames(AddSuggestedSkills(d, names, ids).skills) == SkillNames(d.skills) + names
  {
    var r := AddSuggestedSkills(d, names, ids);
    var n := |d.skills|;
    forall j | 0 <= j < |r.skills| ensures SkillNames(r.skills)[j] == (SkillNames(d.skills) + names)[j] {
      if j < n {
        assert r.skills[j] == r.skills[..n][j];
      } else {
        assert r.skills[n + (j - n)].name == names[j - n];
      }
    }
  }
}

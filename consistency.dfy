/** How the on-screen templates and the Word export relate: both read the
    same `ResumeData`, but only some of them drop blank highlights. */
module Consistency {
  import opened ResumeTypes
  import opened Strings
  import opened Lists
  import Edits
  import Preview
  import Docx

  /** The Standard and executive previews show exactly the exported bullets
      that are not blank; the Minimal preview shows every exported bullet. */
  lemma PreviewBulletsAgainstExport(d: ResumeData)
    ensures Preview.BulletTexts(Preview.RenderStandard(d)) == Filter(Docx.BulletLines(Docx.Document(d)), Preview.NonBlank)
    ensures Preview.BulletTexts(Preview.RenderExecutive(d)) == Filter(Docx.BulletLines(Docx.Document(d)), Preview.NonBlank)
    ensures Preview.BulletTexts(Preview.RenderMinimal(d)) == Docx.BulletLines(Docx.Document(d))
  {
    Preview.StandardBullets(d);
    Preview.ExecutiveBullets(d);
    Preview.MinimalBullets(d);
    Docx.DocumentBullets(d);
  }

  /** The Standard preview's last line and the exported skills paragraph say the same thing. */
  lemma SkillsLineAgrees(d: ResumeData)
    requires |d.skills| > 0
    ensures var r, doc := Preview.RenderStandard(d), Docx.Document(d);
      r[|r| - 1] == Preview.Line(Docx.RunsText(doc[|doc| - 1].runs))
  {
    Docx.DocumentLayout(d);
    Docx.OneRun(Docx.PlainRun(Docx.SkillsLine(d.skills)));
  }

  /** The export does not depend on the template chosen. */
  lemma ExportIgnoresTemplate(d: ResumeData, t: TemplateType)
    ensures Docx.Document(d.(template := t)) == Docx.Document(d)
  {
  }

  /** A whitespace-only highlight: the Standard preview lists no bullet, the
      Word export still writes one. */
  lemma BlankBulletDivergence(d: ResumeData, e: Experience)
    requires d.template == Standard && d.experiences == [e] && e.highlights == [" "]
    ensures Preview.BulletTexts(Preview.Render(d)) == []
    ensures Docx.BulletLines(Docx.Document(d)) == [" "]
  {
    OneJobHighlights(d.experiences);
    calc {
      Preview.BulletTexts(Preview.Render(d));
      == { Preview.StandardBullets(d); }
      Filter(AllHighlights(d.experiences), Preview.NonBlank);
      == { TrimEmptyIffAllWhitespace(" "); DropOnly(" ", Preview.NonBlank); }
      [];
    }
    Docx.DocumentBullets(d);
  }

  /** A résumé with no summary and no education but with jobs and skills
      shows, under the Standard template, only the employment and expertise
      sections. */
  lemma SparseResumeSections(d: ResumeData)
    requires d.summary == "" && d.education == [] && |d.experiences| > 0 && |d.skills| > 0
    ensures Preview.Captions(Preview.RenderStandard(d)) == ["Employment History", "Expertise"]
  {
    Preview.StandardSections(d);
    AbsentPartsVanish<string>("Employment History", "Expertise");
  }

  /** One job with a blank highlight followed by a written one: the Standard
      template shows one bullet, the written highlight. */
  lemma SparseResumeBullets(d: ResumeData, blank: string, written: string)
    requires |d.experiences| == 1 && d.experiences[0].highlights == [blank, written]
    requires !Preview.NonBlank(blank) && Preview.NonBlank(written)
    ensures Preview.BulletTexts(Preview.RenderStandard(d)) == [written]
  {
    OneJobHighlights(d.experiences);
    calc {
      Preview.BulletTexts(Preview.RenderStandard(d));
      == { Preview.StandardBullets(d); }
      Filter(AllHighlights(d.experiences), Preview.NonBlank);
      == { FilterDropsFirst(blank, written, Preview.NonBlank); }
      [written];
    }
  }

  /** Two skills: the Standard template ends with their names joined by a comma. */
  lemma SparseResumeSkills(d: ResumeData, s1: Skill, s2: Skill)
    requires d.skills == [s1, s2]
    ensures var r := Preview.RenderStandard(d); r[|r| - 1] == Preview.Line(s1.name + ", " + s2.name)
  {
    TwoSkillsLine(s1, s2);
  }

  lemma OneJobHighlights(es: seq<Experience>)
    requires |es| == 1
    ensures AllHighlights(es) == es[0].highlights
  {
    assert es[1..] == [];
  }

  lemma DropOnly<T>(a: T, keep: T -> bool)
    requires !keep(a)
    ensures Filter([a], keep) == []
  {
    assert [a][1..] == [];
  }

  lemma FilterDropsFirst<T>(a: T, b: T, keep: T -> bool)
    requires !keep(a) && keep(b)
    ensures Filter([a, b], keep) == [b]
  {
    assert [a, b][1..] == [b];
    assert [b][1..] == [];
  }

  /** Of four optional parts, only the two present ones remain. */
  lemma AbsentPartsVanish<T>(a: T, b: T)
    ensures [] + [a] + [] + [b] == [a, b]
  {
  }

  /** The highlights of one more job come after those of the others. */
  lemma {:induction false} AllHighlightsSnoc(es: seq<Experience>, e: Experience)
    ensures AllHighlights(es + [e]) == AllHighlights(es) + e.highlights
  {
    if es == [] {
      assert [e][1..] == [];
    } else {
      assert (es + [e])[1..] == es[1..] + [e];
      AllHighlightsSnoc(es[1..], e);
    }
  }

  /** "Add Employment History" appends a job holding one empty bullet: the
      standard and executive previews show the same bullets as before, while
      the minimal preview and the Word export gain one empty bullet at the end. */
  lemma NewJobBullets(d: ResumeData, id: string)
    ensures Preview.BulletTexts(Preview.RenderStandard(Edits.AddExperience(d, id)))
         == Preview.BulletTexts(Preview.RenderStandard(d))
    ensures Preview.BulletTexts(Preview.RenderExecutive(Edits.AddExperience(d, id)))
         == Preview.BulletTexts(Preview.RenderExecutive(d))
    ensures Preview.BulletTexts(Preview.RenderMinimal(Edits.AddExperience(d, id)))
         == Preview.BulletTexts(Preview.RenderMinimal(d)) + [""]
    ensures Docx.BulletLines(Docx.Document(Edits.AddExperience(d, id)))
         == Docx.BulletLines(Docx.Document(d)) + [""]
  {
    var d' := Edits.AddExperience(d, id);
    var hs := AllHighlights(d.experiences);
    assert d'.experiences == d.experiences + [Edits.BlankExperience(id)];
    AllHighlightsSnoc(d.experiences, Edits.BlankExperience(id));
    assert AllHighlights(d'.experiences) == hs + [""];
    FilterAppend(hs, [""], Preview.NonBlank);
    DropOnly("", Preview.NonBlank);
    assert Filter(hs + [""], Preview.NonBlank) == Filter(hs, Preview.NonBlank);
    Preview.StandardBullets(d);
    Preview.StandardBullets(d');
    Preview.ExecutiveBullets(d);
    Preview.ExecutiveBullets(d');
    Preview.MinimalBullets(d);
    Preview.MinimalBullets(d');
    Docx.DocumentBullets(d);
    Docx.DocumentBullets(d');
  }

  /** Two skills are listed as "first, second". */
  lemma TwoSkillsLine(s1: Skill, s2: Skill)
    ensures Join(SkillNames([s1, s2]), ", ") == s1.name + ", " + s2.name
  {
    var names := SkillNames([s1, s2]);
    assert names == [s1.name] + [s2.name];
    JoinSnoc([s1.name], s2.name, ", ");
  }
}

/** The Word export (`exportToDocx` in services/docx-export.ts) as the list of
    paragraphs it builds, and the name of the downloaded file. Font sizes,
    spacing and tab-stop positions are left out; what a paragraph says, how
    its runs are emphasised, and whether it is a bullet or carries the
    section rule are kept. */
module Docx {
  import opened ResumeTypes
  import opened Strings

  datatype Run = Run(text: string, bold: bool, italics: bool)

  /** `border` is the bottom rule under a section title. */
  datatype Paragraph = Paragraph(runs: seq<Run>, centered: bool, border: bool, bullet: bool)

  function PlainRun(text: string): Run {
    Run(text, false, false)
  }

  /** `new Paragraph({ text })` and a paragraph holding one plain run. */
  function TextParagraph(text: string): Paragraph {
    Paragraph([PlainRun(text)], false, false, false)
  }

  /** The empty paragraph that opens each section. */
  const Spacer: Paragraph := TextParagraph("")

  /** A bold section title with the bottom rule. */
  function TitleParagraph(title: string): Paragraph {
    Paragraph([Run(title, true, false)], false, true, false)
  }

  /** The text a paragraph shows: its runs one after the other. */
  function RunsText(runs: seq<Run>): string {
    if runs == [] then "" else runs[0].text + RunsText(runs[1..])
  }

  /** The texts of the bullet paragraphs, in order. */
  function BulletLines(ps: seq<Paragraph>): seq<string> {
    if ps == [] then [] else (if ps[0].bullet then [RunsText(ps[0].runs)] else []) + BulletLines(ps[1..])
  }

  /** The texts of the ruled (section title) paragraphs, in order. */
  function SectionTitles(ps: seq<Paragraph>): seq<string> {
    if ps == [] then [] else (if ps[0].border then [RunsText(ps[0].runs)] else []) + SectionTitles(ps[1..])
  }

  /** A list of one paragraph. */
  lemma OneParagraph(p: Paragraph)
    ensures BulletLines([p]) == if p.bullet then [RunsText(p.runs)] else []
    ensures SectionTitles([p]) == if p.border then [RunsText(p.runs)] else []
  {
    assert [p][1..] == [];
  }

  /** A paragraph of one run shows that run's text. */
  lemma OneRun(r: Run)
    ensures RunsText([r]) == r.text
  {
    assert [r][1..] == [];
  }

  lemma {:induction false} BulletLinesAppend(a: seq<Paragraph>, b: seq<Paragraph>)
    ensures BulletLines(a + b) == BulletLines(a) + BulletLines(b)
    decreases |a|
  {
    if a == [] {
      assert a + b == b;
    } else {
      assert (a + b)[0] == a[0] && (a + b)[1..] == a[1..] + b;
      BulletLinesAppend(a[1..], b);
    }
  }

  lemma {:induction false} SectionTitlesAppend(a: seq<Paragraph>, b: seq<Paragraph>)
    ensures SectionTitles(a + b) == SectionTitles(a) + SectionTitles(b)
    decreases |a|
  {
    if a == [] {
      assert a + b == b;
    } else {
      assert (a + b)[0] == a[0] && (a + b)[1..] == a[1..] + b;
      SectionTitlesAppend(a[1..], b);
    }
  }

  /** The contact paragraph: email, phone and location joined by " | ", with
      empty fields kept as empty segments. */
  function ContactLine(c: ContactInfo): (r: string)
    ensures |r| == |c.email| + |c.phone| + |c.location| + 6
    ensures r[..|c.email|] == c.email && r[|c.email|..|c.email| + 3] == " | "
    ensures r[|c.email| + 3..|c.email| + 3 + |c.phone|] == c.phone
    ensures r[|r| - |c.location| - 3..|r| - |c.location|] == " | " && r[|r| - |c.location|..] == c.location
    ensures c.email == "" && c.phone == "" && c.location == "" ==> r == " |  | "
  {
    c.email + " | " + c.phone + " | " + c.location
  }

  /** The right-aligned date run of a job; an ongoing job ends in "Present". */
  function DateRun(e: Experience): (r: string)
    ensures r == "\t" + e.startDate + " - " + (if e.endDate == "" then "Present" else e.endDate)
  {
    "\t" + e.startDate + " - " + OrElse(e.endDate, "Present")
  }

  /** One bullet paragraph per highlight, blank highlights included. */
  function HighlightParagraphs(hs: seq<string>): (r: seq<Paragraph>)
    ensures |r| == |hs|
    ensures forall i :: 0 <= i < |hs| ==> r[i] == Paragraph([PlainRun(hs[i])], false, false, true)
    ensures BulletLines(r) == hs && SectionTitles(r) == []
  {
    if hs == [] then []
    else
      var head, tail := [Paragraph([PlainRun(hs[0])], false, false, true)], HighlightParagraphs(hs[1..]);
      OneParagraph(head[0]);
      OneRun(PlainRun(hs[0]));
      BulletLinesAppend(head, tail);
      SectionTitlesAppend(head, tail);
      head + tail
  }

  /** One job: the bold title with its date run, the italic company, then its bullets. */
  function EntryParagraphs(e: Experience): (r: seq<Paragraph>)
    ensures |r| == 2 + |e.highlights|
    ensures r[0] == Paragraph([Run(e.position, true, false), Run(DateRun(e), true, false)], false, false, false)
    ensures r[1] == Paragraph([Run(e.company, false, true)], false, false, false)
    ensures BulletLines(r) == e.highlights && SectionTitles(r) == []
  {
    var head := [Paragraph([Run(e.position, true, false), Run(DateRun(e), true, false)], false, false, false),
                 Paragraph([Run(e.company, false, true)], false, false, false)];
    var bullets := HighlightParagraphs(e.highlights);
    BulletLinesAppend(head, bullets);
    SectionTitlesAppend(head, bullets);
    head + bullets
  }

  /** Paragraphs the jobs take: two each, plus one per highlight. */
  function ExperienceParagraphCount(es: seq<Experience>): nat {
    if es == [] then 0 else 2 + |es[0].highlights| + ExperienceParagraphCount(es[1..])
  }

  /** `experiences.flatMap(...)`. */
  function ExperienceParagraphs(es: seq<Experience>): (r: seq<Paragraph>)
    ensures |r| == ExperienceParagraphCount(es)
    ensures BulletLines(r) == AllHighlights(es) && SectionTitles(r) == []
  {
    if es == [] then []
    else
      var head, tail := EntryParagraphs(es[0]), ExperienceParagraphs(es[1..]);
      BulletLinesAppend(head, tail);
      SectionTitlesAppend(head, tail);
      head + tail
  }

  /** One education paragraph: "school: degree in field", then the tabbed graduation date. */
  function EducationParagraph(edu: Education): (r: Paragraph)
    ensures |r.runs| == 2 && !r.runs[0].bold && !r.runs[1].bold && !r.runs[0].italics && !r.runs[1].italics
    ensures !r.bullet && !r.border && !r.centered
    ensures r.runs[0].text == edu.school + ": " + edu.degree + " in " + edu.fieldOfStudy
    ensures r.runs[1].text == "\t" + edu.graduationDate
    ensures RunsText(r.runs) == edu.school + ": " + edu.degree + " in " + edu.fieldOfStudy + "\t" + edu.graduationDate
  {
    var a, b := PlainRun(edu.school + ": " + edu.degree + " in " + edu.fieldOfStudy), PlainRun("\t" + edu.graduationDate);
    assert [a, b][1..] == [b];
    OneRun(b);
    Paragraph([a, b], false, false, false)
  }

  function EducationParagraphs(edus: seq<Education>): (r: seq<Paragraph>)
    ensures |r| == |edus| && forall i :: 0 <= i < |edus| ==> r[i] == EducationParagraph(edus[i])
    ensures BulletLines(r) == [] && SectionTitles(r) == []
  {
    if edus == [] then []
    else
      var head, tail := [EducationParagraph(edus[0])], EducationParagraphs(edus[1..]);
      BulletLinesAppend(head, tail);
      SectionTitlesAppend(head, tail);
      head + tail
  }

  /** The skills paragraph text: the names in list order, joined by ", ". */
  function SkillsLine(skills: seq<Skill>): (r: string)
    ensures skills == [] ==> r == ""
    ensures |skills| == 1 ==> r == skills[0].name
    ensures |skills| > 0 ==> |r| + 2 == TotalLength(SkillNames(skills)) + 2 * |skills|
    ensures |skills| > 1 ==> r == SkillsLine(skills[..|skills| - 1]) + ", " + skills[|skills| - 1].name
    decreases |skills|
  {
    if |skills| > 1 then
      var init := skills[..|skills| - 1];
      assert SkillNames(skills) == SkillNames(init) + [skills[|skills| - 1].name];
      JoinSnoc(SkillNames(init), skills[|skills| - 1].name, ", ");
      Join(SkillNames(skills), ", ")
    else
      Join(SkillNames(skills), ", ")
  }

  /** The name in capitals, bold and centred: as long as the name, with no
      lower-case ASCII letter left. */
  function NameParagraph(c: ContactInfo): (r: Paragraph)
    ensures r.centered && !r.border && !r.bullet && |r.runs| == 1 && r.runs[0].bold
    ensures r.runs[0].text == ToUpper(c.fullName)
    ensures var t := r.runs[0].text; |t| == |c.fullName| && forall k :: 0 <= k < |t| ==> !('a' <= t[k] <= 'z')
  {
    Paragraph([Run(ToUpper(c.fullName), true, false)], true, false, false)
  }

  function ContactParagraph(c: ContactInfo): Paragraph {
    Paragraph([PlainRun(ContactLine(c))], true, false, false)
  }

  /** The opening of every section: the empty spacer, then the ruled title. */
  function SectionStart(title: string): (r: seq<Paragraph>)
    ensures |r| == 2 && r[0] == Spacer && r[1] == TitleParagraph(title)
    ensures SectionTitles(r) == [title] && BulletLines(r) == []
  {
    var a, b := [Spacer], [TitleParagraph(title)];
    OneRun(Run(title, true, false));
    OneParagraph(Spacer);
    OneParagraph(TitleParagraph(title));
    SectionTitlesAppend(a, b);
    BulletLinesAppend(a, b);
    a + b
  }

  /** The two centred header paragraphs: the name in capitals, then the contact line. */
  function Header(c: ContactInfo): (r: seq<Paragraph>)
    ensures |r| == 2 && r[0] == NameParagraph(c) && r[1] == ContactParagraph(c)
    ensures SectionTitles(r) == [] && BulletLines(r) == []
  {
    OneParagraph(NameParagraph(c));
    OneParagraph(ContactParagraph(c));
    SectionTitlesAppend([NameParagraph(c)], [ContactParagraph(c)]);
    BulletLinesAppend([NameParagraph(c)], [ContactParagraph(c)]);
    [NameParagraph(c)] + [ContactParagraph(c)]
  }

  /** A section: its opening, then its own paragraphs. */
  function Section(title: string, body: seq<Paragraph>): (r: seq<Paragraph>)
    ensures |r| == 2 + |body| && r[0] == Spacer && r[1] == TitleParagraph(title) && r[2..] == body
    ensures SectionTitles(r) == [title] + SectionTitles(body)
    ensures BulletLines(r) == BulletLines(body)
  {
    var start := SectionStart(title);
    SectionTitlesAppend(start, body);
    BulletLinesAppend(start, body);
    start + body
  }

  /** A section whose body is one plain paragraph holding `text`. */
  function TextSection(title: string, text: string): (r: seq<Paragraph>)
    ensures |r| == 3 && r[0] == Spacer && r[1] == TitleParagraph(title) && r[2] == TextParagraph(text)
    ensures SectionTitles(r) == [title] && BulletLines(r) == []
  {
    OneParagraph(TextParagraph(text));
    Section(title, [TextParagraph(text)])
  }

  /** The document body `exportToDocx` builds: the header, then the summary,
      experience, education and skills sections, each always present. That is
      twelve fixed paragraphs, two plus one per highlight for each job, and
      one per education entry. */
  function Document(d: ResumeData): (r: seq<Paragraph>)
    ensures |r| == 12 + ExperienceParagraphCount(d.experiences) + |d.education|
    ensures r[0] == NameParagraph(d.contact) && r[1] == ContactParagraph(d.contact)
    ensures r[|r| - 1] == TextParagraph(SkillsLine(d.skills))
  {
    var h, s1 := Header(d.contact), TextSection("PROFESSIONAL SUMMARY", d.summary);
    var s2 := Section("WORK EXPERIENCE", ExperienceParagraphs(d.experiences));
    var s3 := Section("EDUCATION", EducationParagraphs(d.education));
    var s4 := TextSection("SKILLS", SkillsLine(d.skills));
    PartsEnds(h, s1, s2, s3, s4);
    h + s1 + s2 + s3 + s4
  }

  /** The first two and the last element of a list of five parts. */
  lemma PartsEnds<T>(h: seq<T>, p1: seq<T>, p2: seq<T>, p3: seq<T>, p4: seq<T>)
    requires |h| >= 2 && |p4| >= 1
    ensures var doc := h + p1 + p2 + p3 + p4;
      && |doc| == |h| + |p1| + |p2| + |p3| + |p4|
      && doc[0] == h[0] && doc[1] == h[1] && doc[|doc| - 1] == p4[|p4| - 1]
  {
    var rest := h + p1 + p2 + p3;
    assert rest[0] == h[0] && rest[1] == h[1];
  }

  /** Titles of a list of five parts holding one title each, except the first. */
  lemma {:induction false} TitlesOfParts(h: seq<Paragraph>, p1: seq<Paragraph>, p2: seq<Paragraph>, p3: seq<Paragraph>,
                                         p4: seq<Paragraph>, t1: string, t2: string, t3: string, t4: string)
    requires SectionTitles(h) == []
    requires SectionTitles(p1) == [t1] && SectionTitles(p2) == [t2] && SectionTitles(p3) == [t3] && SectionTitles(p4) == [t4]
    ensures SectionTitles(h + p1 + p2 + p3 + p4) == [t1, t2, t3, t4]
  {
    SectionTitlesAppend(h, p1);
    SectionTitlesAppend(h + p1, p2);
    SectionTitlesAppend(h + p1 + p2, p3);
    SectionTitlesAppend(h + p1 + p2 + p3, p4);
  }

  /** Every section title is present, in this order, whatever the data. */
  lemma DocumentSections(d: ResumeData)
    ensures SectionTitles(Document(d)) == ["PROFESSIONAL SUMMARY", "WORK EXPERIENCE", "EDUCATION", "SKILLS"]
  {
    TitlesOfParts(Header(d.contact), TextSection("PROFESSIONAL SUMMARY", d.summary),
                  Section("WORK EXPERIENCE", ExperienceParagraphs(d.experiences)),
                  Section("EDUCATION", EducationParagraphs(d.education)),
                  TextSection("SKILLS", SkillsLine(d.skills)),
                  "PROFESSIONAL SUMMARY", "WORK EXPERIENCE", "EDUCATION", "SKILLS");
  }

  /** The bullets are every highlight, in order, blank ones included. */
  lemma DocumentBullets(d: ResumeData)
    ensures BulletLines(Document(d)) == AllHighlights(d.experiences)
  {
    var h, s1 := Header(d.contact), TextSection("PROFESSIONAL SUMMARY", d.summary);
    var s2 := Section("WORK EXPERIENCE", ExperienceParagraphs(d.experiences));
    var s3 := Section("EDUCATION", EducationParagraphs(d.education));
    var s4 := TextSection("SKILLS", SkillsLine(d.skills));
    BulletLinesAppend(h, s1);
    BulletLinesAppend(h + s1, s2);
    BulletLinesAppend(h + s1 + s2, s3);
    BulletLinesAppend(h + s1 + s2 + s3, s4);
  }

  /** Where the parts of a list of five parts sit. */
  lemma PartsPositions<T>(h: seq<T>, p1: seq<T>, p2: seq<T>, p3: seq<T>, p4: seq<T>)
    ensures var doc, i, j, k := h + p1 + p2 + p3 + p4, |h| + |p1|, |h| + |p1| + |p2|, |h| + |p1| + |p2| + |p3|;
      && doc[..|h|] == h && doc[|h|..i] == p1 && doc[i..j] == p2 && doc[j..k] == p3 && doc[k..] == p4
  {
    var doc, i, j, k := h + p1 + p2 + p3 + p4, |h| + |p1|, |h| + |p1| + |p2|, |h| + |p1| + |p2| + |p3|;
    assert doc[..k] == h + p1 + p2 + p3;
    assert doc[..j] == h + p1 + p2;
    assert doc[..i] == h + p1;
  }

  /** Where each part sits: the two header paragraphs, the three of the
      summary section, the experience section over the next
      `2 + ExperienceParagraphCount(d.experiences)`, the education section
      over the next `2 + |d.education|`, and the three of the skills section. */
  lemma DocumentLayout(d: ResumeData)
    ensures var doc, n, m := Document(d), ExperienceParagraphCount(d.experiences), |d.education|;
      && |doc| == 12 + n + m
      && doc[..2] == Header(d.contact)
      && doc[2..5] == TextSection("PROFESSIONAL SUMMARY", d.summary)
      && doc[5..7 + n] == Section("WORK EXPERIENCE", ExperienceParagraphs(d.experiences))
      && doc[7 + n..9 + n + m] == Section("EDUCATION", EducationParagraphs(d.education))
      && doc[9 + n + m..] == TextSection("SKILLS", Join(SkillNames(d.skills), ", "))
  {
    PartsPositions(Header(d.contact), TextSection("PROFESSIONAL SUMMARY", d.summary),
                   Section("WORK EXPERIENCE", ExperienceParagraphs(d.experiences)),
                   Section("EDUCATION", EducationParagraphs(d.education)),
                   TextSection("SKILLS", SkillsLine(d.skills)));
  }

  /** The fixed end of every download name. */
  const FileSuffix: string := "_Resume.docx"

  lemma FileSuffixPlain()
    ensures |FileSuffix| == 12 && forall k :: 0 <= k < |FileSuffix| ==> !IsWhitespace(FileSuffix[k])
  {
  }

  /** The download name: `fullName` with every whitespace character turned
      into "_", followed by "_Resume.docx"; it contains no whitespace at all. */
  function FileName(fullName: string): (r: string)
    ensures |r| == |fullName| + 12 && r[|fullName|..] == FileSuffix
    ensures forall k :: 0 <= k < |fullName| ==> r[k] == if IsWhitespace(fullName[k]) then '_' else fullName[k]
    ensures forall k :: 0 <= k < |r| ==> !IsWhitespace(r[k])
  {
    var base := ReplaceWhitespace(fullName, '_');
    FileSuffixPlain();
    assert forall k :: |base| <= k < |base + FileSuffix| ==> (base + FileSuffix)[k] == FileSuffix[k - |base|];
    base + FileSuffix
  }
}

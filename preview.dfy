/** The live preview (`ResumePreview` in App.tsx) with the markup and styling
    abstracted away: each template yields the ordered blocks of text it shows
    (the name heading, section captions, plain text lines and list bullets). */
module Preview {
  import opened ResumeTypes
  import opened Strings
  import opened Lists

  datatype Block = Heading(text: string) | Caption(text: string) | Line(text: string) | Bullet(text: string)

  /** The section captions of a block sequence, in order. */
  function Captions(bs: seq<Block>): seq<string> {
    if bs == [] then [] else (if bs[0].Caption? then [bs[0].text] else []) + Captions(bs[1..])
  }

  /** The bullet texts of a block sequence, in order. */
  function BulletTexts(bs: seq<Block>): seq<string> {
    if bs == [] then [] else (if bs[0].Bullet? then [bs[0].text] else []) + BulletTexts(bs[1..])
  }

  lemma {:induction false} CaptionsAppend(a: seq<Block>, b: seq<Block>)
    ensures Captions(a + b) == Captions(a) + Captions(b)
    decreases |a|
  {
    if a == [] {
      assert a + b == b;
    } else {
      assert (a + b)[0] == a[0] && (a + b)[1..] == a[1..] + b;
      CaptionsAppend(a[1..], b);
    }
  }

  lemma {:induction false} BulletTextsAppend(a: seq<Block>, b: seq<Block>)
    ensures BulletTexts(a + b) == BulletTexts(a) + BulletTexts(b)
    decreases |a|
  {
    if a == [] {
      assert a + b == b;
    } else {
      assert (a + b)[0] == a[0] && (a + b)[1..] == a[1..] + b;
      BulletTextsAppend(a[1..], b);
    }
  }

  /** The filter `h => h.trim() !== ''` applied to highlights: it keeps
      exactly the highlights with a character that is not whitespace. */
  predicate NonBlank(h: string): (b: bool)
    ensures b <==> !AllWhitespace(h)
  {
    TrimEmptyIffAllWhitespace(h);
    Trim(h) != ""
  }

  /** One `<li>` per string. */
  function Bullets(hs: seq<string>): (r: seq<Block>)
    ensures |r| == |hs| && forall i :: 0 <= i < |hs| ==> r[i] == Bullet(hs[i])
    ensures Captions(r) == [] && BulletTexts(r) == hs
  {
    if hs == [] then [] else [Bullet(hs[0])] + Bullets(hs[1..])
  }

  /** One plain text element per string. */
  function Lines(xs: seq<string>): (r: seq<Block>)
    ensures |r| == |xs| && forall i :: 0 <= i < |xs| ==> r[i] == Line(xs[i])
    ensures Captions(r) == [] && BulletTexts(r) == []
  {
    if xs == [] then [] else [Line(xs[0])] + Lines(xs[1..])
  }

  /** A captioned section: the caption, then the section's own blocks. */
  function Section(title: string, body: seq<Block>): (r: seq<Block>)
    ensures Captions(r) == [title] + Captions(body)
    ensures BulletTexts(r) == BulletTexts(body)
  {
    CaptionsAppend([Caption(title)], body);
    BulletTextsAppend([Caption(title)], body);
    [Caption(title)] + body
  }

  /** `{cond && (...)}`: the blocks are shown only when `cond` holds. */
  function Optional(cond: bool, blocks: seq<Block>): (r: seq<Block>)
    ensures r == if cond then blocks else []
  {
    if cond then blocks else []
  }

  // ------------------------------------------------------------- Standard

  /** The standard template's contact row: only the non-empty fields, in the
      order email, phone, location, LinkedIn; the email stands alone and each
      of the other three is preceded by a bar, even when no email is shown. */
  function StandardContactItems(c: ContactInfo): (r: seq<string>)
    ensures |r| == (if c.email != "" then 1 else 0) + (if c.phone != "" then 1 else 0)
                   + (if c.location != "" then 1 else 0) + (if c.linkedin != "" then 1 else 0)
    ensures forall i :: 0 <= i < |r| ==> r[i] != ""
    ensures forall x :: x in r ==> x == c.email || x == "| " + c.phone || x == "| " + c.location || x == "| " + c.linkedin
    ensures c.email != "" ==> r[0] == c.email
    ensures c.phone != "" ==> "| " + c.phone in r && r[if c.email != "" then 1 else 0] == "| " + c.phone
    ensures c.location != "" ==> "| " + c.location in r
    ensures c.location != "" ==> r[(if c.email != "" then 1 else 0) + (if c.phone != "" then 1 else 0)] == "| " + c.location
    ensures c.linkedin != "" ==> r[|r| - 1] == "| " + c.linkedin
  {
    (if c.email != "" then [c.email] else [])
    + (if c.phone != "" then ["| " + c.phone] else [])
    + (if c.location != "" then ["| " + c.location] else [])
    + (if c.linkedin != "" then ["| " + c.linkedin] else [])
  }

  function StandardHeader(c: ContactInfo): (r: seq<Block>)
    ensures Captions(r) == [] && BulletTexts(r) == []
  {
    [Heading(OrElse(c.fullName, "YOUR FULL NAME"))] + Lines(StandardContactItems(c))
  }

  /** One job: title, date range (an ongoing job ends in "Present"), company,
      then a bullet for each highlight that is not blank. */
  function StandardEntry(e: Experience): (r: seq<Block>)
    ensures Captions(r) == [] && BulletTexts(r) == Filter(e.highlights, NonBlank)
  {
    var lines, bullets := Lines([e.position, e.startDate + " \U{2014} " + OrElse(e.endDate, "Present"), e.company]),
                          Bullets(Filter(e.highlights, NonBlank));
    CaptionsAppend(lines, bullets);
    BulletTextsAppend(lines, bullets);
    lines + bullets
  }

  function StandardEntries(es: seq<Experience>): (r: seq<Block>)
    ensures Captions(r) == [] && BulletTexts(r) == Filter(AllHighlights(es), NonBlank)
  {
    if es == [] then []
    else
      var head, tail := StandardEntry(es[0]), StandardEntries(es[1..]);
      CaptionsAppend(head, tail);
      BulletTextsAppend(head, tail);
      FilterAppend(es[0].highlights, AllHighlights(es[1..]), NonBlank);
      head + tail
  }

  function StandardEducation(edus: seq<Education>): (r: seq<Block>)
    ensures Captions(r) == [] && BulletTexts(r) == []
  {
    if edus == [] then []
    else
      var e := edus[0];
      var lines, rest := Lines([e.school, e.graduationDate, e.degree + " in " + e.fieldOfStudy]), StandardEducation(edus[1..]);
      CaptionsAppend(lines, rest);
      BulletTextsAppend(lines, rest);
      lines + rest
  }

  /** The 'standard' template. Each section is shown only when its text or
      list is non-empty; skills are joined into one comma-separated line. */
  function RenderStandard(d: ResumeData): (r: seq<Block>)
    ensures |r| > 0 && r[0] == Heading(OrElse(d.contact.fullName, "YOUR FULL NAME"))
    ensures |d.skills| > 0 ==> r[|r| - 1] == Line(Join(SkillNames(d.skills), ", "))
  {
    StandardHeader(d.contact)
    + Optional(d.summary != "", Section("Professional Profile", Lines([d.summary])))
    + Optional(|d.experiences| > 0, Section("Employment History", StandardEntries(d.experiences)))
    + Optional(|d.education| > 0, Section("Education", StandardEducation(d.education)))
    + Optional(|d.skills| > 0, Section("Expertise", Lines([Join(SkillNames(d.skills), ", ")])))
  }

  /** The standard template's sections, in this order and each present
      exactly when its backing text or list is non-empty. */
  lemma StandardSections(d: ResumeData)
    ensures Captions(RenderStandard(d)) ==
      (if d.summary != "" then ["Professional Profile"] else [])
      + (if |d.experiences| > 0 then ["Employment History"] else [])
      + (if |d.education| > 0 then ["Education"] else [])
      + (if |d.skills| > 0 then ["Expertise"] else [])
  {
    var h := StandardHeader(d.contact);
    var s := Optional(d.summary != "", Section("Professional Profile", Lines([d.summary])));
    var x := Optional(|d.experiences| > 0, Section("Employment History", StandardEntries(d.experiences)));
    var e := Optional(|d.education| > 0, Section("Education", StandardEducation(d.education)));
    var k := Optional(|d.skills| > 0, Section("Expertise", Lines([Join(SkillNames(d.skills), ", ")])));
    var cs: seq<string> := if d.summary != "" then ["Professional Profile"] else [];
    var cx: seq<string> := if |d.experiences| > 0 then ["Employment History"] else [];
    var ce: seq<string> := if |d.education| > 0 then ["Education"] else [];
    var ck: seq<string> := if |d.skills| > 0 then ["Expertise"] else [];
    assert Captions(s) == cs && Captions(x) == cx && Captions(e) == ce && Captions(k) == ck;
    CaptionsAppend(h, s);
    assert Captions(h + s) == cs;
    CaptionsAppend(h + s, x);
    assert Captions(h + s + x) == cs + cx;
    CaptionsAppend(h + s + x, e);
    assert Captions(h + s + x + e) == cs + cx + ce;
    CaptionsAppend(h + s + x + e, k);
  }

  /** The standard template's bullets are exactly the highlights that are not
      blank, in order. */
  lemma StandardBullets(d: ResumeData)
    ensures BulletTexts(RenderStandard(d)) == Filter(AllHighlights(d.experiences), NonBlank)
  {
    var h := StandardHeader(d.contact);
    var s := Optional(d.summary != "", Section("Professional Profile", Lines([d.summary])));
    var x := Optional(|d.experiences| > 0, Section("Employment History", StandardEntries(d.experiences)));
    var e := Optional(|d.education| > 0, Section("Education", StandardEducation(d.education)));
    var k := Optional(|d.skills| > 0, Section("Expertise", Lines([Join(SkillNames(d.skills), ", ")])));
    BulletTextsAppend(h + s + x + e, k);
    BulletTextsAppend(h + s + x, e);
    BulletTextsAppend(h + s, x);
    BulletTextsAppend(h, s);
  }

  // ------------------------------------------------------- Minimal

  /** One job: title, company, date range (an ongoing job ends in "Now"), then
      a bullet for every highlight, blank ones included. */
  function MinimalEntry(e: Experience): (r: seq<Block>)
    ensures Captions(r) == [] && BulletTexts(r) == e.highlights
  {
    var lines, bullets := Lines([e.position, e.company, e.startDate + " \U{2013} " + OrElse(e.endDate, "Now")]),
                          Bullets(e.highlights);
    CaptionsAppend(lines, bullets);
    BulletTextsAppend(lines, bullets);
    lines + bullets
  }

  function MinimalEntries(es: seq<Experience>): (r: seq<Block>)
    ensures Captions(r) == [] && BulletTexts(r) == AllHighlights(es)
  {
    if es == [] then []
    else
      var head, tail := MinimalEntry(es[0]), MinimalEntries(es[1..]);
      CaptionsAppend(head, tail);
      BulletTextsAppend(head, tail);
      head + tail
  }

  /** The 'minimal' template: every label and the summary are shown whatever
      the data; there is no education section at all. */
  function RenderMinimal(d: ResumeData): (r: seq<Block>)
    ensures |r| > 1 && r[0] == Heading(OrElse(d.contact.fullName, "NAME"))
    ensures r[1] == Line(if |d.experiences| > 0 then OrElse(d.experiences[0].position, "PROFESSIONAL") else "PROFESSIONAL")
  {
    MinimalHeader(d)
    + Section("Connection", Lines([d.contact.email, d.contact.phone, d.contact.location, d.contact.website]))
    + Section("Competencies", Lines(SkillNames(d.skills)))
    + Lines([d.summary])
    + Section("Trajectory", MinimalEntries(d.experiences))
  }

  /** The name, and under it the first job's title (or "PROFESSIONAL"). */
  function MinimalHeader(d: ResumeData): (r: seq<Block>)
    ensures Captions(r) == [] && BulletTexts(r) == []
  {
    [Heading(OrElse(d.contact.fullName, "NAME"))]
    + Lines([if |d.experiences| > 0 then OrElse(d.experiences[0].position, "PROFESSIONAL") else "PROFESSIONAL"])
  }

  /** The minimal template always shows the same three captions. */
  lemma MinimalSections(d: ResumeData)
    ensures Captions(RenderMinimal(d)) == ["Connection", "Competencies", "Trajectory"]
  {
    var h := MinimalHeader(d);
    var c := Section("Connection", Lines([d.contact.email, d.contact.phone, d.contact.location, d.contact.website]));
    var k := Section("Competencies", Lines(SkillNames(d.skills)));
    var s := Lines([d.summary]);
    var t := Section("Trajectory", MinimalEntries(d.experiences));
    CaptionsAppend(h + c + k + s, t);
    CaptionsAppend(h + c + k, s);
    CaptionsAppend(h + c, k);
    CaptionsAppend(h, c);
  }

  /** The minimal template lists every highlight as a bullet, blank ones included. */
  lemma MinimalBullets(d: ResumeData)
    ensures BulletTexts(RenderMinimal(d)) == AllHighlights(d.experiences)
  {
    var h := MinimalHeader(d);
    var c := Section("Connection", Lines([d.contact.email, d.contact.phone, d.contact.location, d.contact.website]));
    var k := Section("Competencies", Lines(SkillNames(d.skills)));
    var s := Lines([d.summary]);
    var t := Section("Trajectory", MinimalEntries(d.experiences));
    BulletTextsAppend(h + c + k + s, t);
    BulletTextsAppend(h + c + k, s);
    BulletTextsAppend(h + c, k);
    BulletTextsAppend(h, c);
  }

  /** The minimal template does not depend on the education list at all. */
  lemma MinimalIgnoresEducation(d: ResumeData, edus: seq<Education>)
    ensures RenderMinimal(d.(education := edus)) == RenderMinimal(d)
  {
  }

  // ------------------------------------------ Executive ('classic') / Modern

  function ExecutiveHeader(c: ContactInfo): (r: seq<Block>)
    ensures Captions(r) == [] && BulletTexts(r) == []
  {
    [Heading(OrElse(c.fullName, "NAME"))] + Lines([ToUpper(c.email), "|", c.phone, "|", ToUpper(c.location)])
  }

  /** One job: title, date range (an ongoing job ends in "Now"), company, then
      a bullet for each highlight that is not blank. */
  function ExecutiveEntry(e: Experience): (r: seq<Block>)
    ensures Captions(r) == [] && BulletTexts(r) == Filter(e.highlights, NonBlank)
  {
    var lines, bullets := Lines([e.position, e.startDate + " - " + OrElse(e.endDate, "Now"), e.company]),
                          Bullets(Filter(e.highlights, NonBlank));
    CaptionsAppend(lines, bullets);
    BulletTextsAppend(lines, bullets);
    lines + bullets
  }

  function ExecutiveEntries(es: seq<Experience>): (r: seq<Block>)
    ensures Captions(r) == [] && BulletTexts(r) == Filter(AllHighlights(es), NonBlank)
  {
    if es == [] then []
    else
      var head, tail := ExecutiveEntry(es[0]), ExecutiveEntries(es[1..]);
      CaptionsAppend(head, tail);
      BulletTextsAppend(head, tail);
      FilterAppend(es[0].highlights, AllHighlights(es[1..]), NonBlank);
      head + tail
  }

  function ExecutiveEducation(edus: seq<Education>): (r: seq<Block>)
    ensures Captions(r) == [] && BulletTexts(r) == []
  {
    if edus == [] then []
    else
      var e := edus[0];
      var lines, rest := Lines([e.school, e.degree + " / " + e.fieldOfStudy, e.graduationDate]), ExecutiveEducation(edus[1..]);
      CaptionsAppend(lines, rest);
      BulletTextsAppend(lines, rest);
      lines + rest
  }

  /** The 'classic' and 'modern' templates, which differ only in typeface.
      The Experience caption is always shown; skills are one tag each. */
  function RenderExecutive(d: ResumeData): (r: seq<Block>)
    ensures |r| > 0 && r[0] == Heading(OrElse(d.contact.fullName, "NAME"))
  {
    ExecutiveHeader(d.contact)
    + Optional(d.summary != "", Section("Objective", Lines([d.summary])))
    + Section("Experience", ExecutiveEntries(d.experiences))
    + Optional(|d.education| > 0, Section("Academic", ExecutiveEducation(d.education)))
    + Optional(|d.skills| > 0, Section("Inventory", Lines(SkillNames(d.skills))))
  }

  /** The executive templates' sections: Experience unconditionally, the
      others exactly when their backing text or list is non-empty. */
  lemma ExecutiveSections(d: ResumeData)
    ensures Captions(RenderExecutive(d)) ==
      (if d.summary != "" then ["Objective"] else [])
      + ["Experience"]
      + (if |d.education| > 0 then ["Academic"] else [])
      + (if |d.skills| > 0 then ["Inventory"] else [])
  {
    var h := ExecutiveHeader(d.contact);
    var s := Optional(d.summary != "", Section("Objective", Lines([d.summary])));
    var x := Section("Experience", ExecutiveEntries(d.experiences));
    var e := Optional(|d.education| > 0, Section("Academic", ExecutiveEducation(d.education)));
    var k := Optional(|d.skills| > 0, Section("Inventory", Lines(SkillNames(d.skills))));
    var cs: seq<string> := if d.summary != "" then ["Objective"] else [];
    var ce: seq<string> := if |d.education| > 0 then ["Academic"] else [];
    var ck: seq<string> := if |d.skills| > 0 then ["Inventory"] else [];
    assert Captions(s) == cs && Captions(x) == ["Experience"] && Captions(e) == ce && Captions(k) == ck;
    CaptionsAppend(h, s);
    assert Captions(h + s) == cs;
    CaptionsAppend(h + s, x);
    assert Captions(h + s + x) == cs + ["Experience"];
    CaptionsAppend(h + s + x, e);
    assert Captions(h + s + x + e) == cs + ["Experience"] + ce;
    CaptionsAppend(h + s + x + e, k);
  }

  /** The executive templates' bullets are exactly the highlights that are not blank. */
  lemma ExecutiveBullets(d: ResumeData)
    ensures BulletTexts(RenderExecutive(d)) == Filter(AllHighlights(d.experiences), NonBlank)
  {
    var h := ExecutiveHeader(d.contact);
    var s := Optional(d.summary != "", Section("Objective", Lines([d.summary])));
    var x := Section("Experience", ExecutiveEntries(d.experiences));
    var e := Optional(|d.education| > 0, Section("Academic", ExecutiveEducation(d.education)));
    var k := Optional(|d.skills| > 0, Section("Inventory", Lines(SkillNames(d.skills))));
    BulletTextsAppend(h + s + x + e, k);
    BulletTextsAppend(h + s + x, e);
    BulletTextsAppend(h + s, x);
    BulletTextsAppend(h, s);
  }

  // ------------------------------------------------------------- dispatch

  /** `ResumePreview`: the template named by the résumé decides the layout.
      Every template but the minimal one drops the blank highlights. */
  function Render(d: ResumeData): (r: seq<Block>)
    ensures d.template == Standard ==> r == RenderStandard(d)
    ensures d.template == Minimal ==> r == RenderMinimal(d)
    ensures d.template in {Classic, Modern} ==> r == RenderExecutive(d)
    ensures d.template != Minimal ==> BulletTexts(r) == Filter(AllHighlights(d.experiences), NonBlank)
    ensures d.template == Minimal ==> BulletTexts(r) == AllHighlights(d.experiences)
  {
    match d.template
    case Standard => StandardBullets(d); RenderStandard(d)
    case Minimal => MinimalBullets(d); RenderMinimal(d)
    case Classic => ExecutiveBullets(d); RenderExecutive(d)
    case Modern => ExecutiveBullets(d); RenderExecutive(d)
  }

  /** 'classic' and 'modern' show the same content. */
  lemma ClassicModernSameContent(d: ResumeData)
    ensures Render(d.(template := Classic)) == Render(d.(template := Modern))
  {
  }

  /** The date line of a job in each template: the standard one puts an em
      dash between the dates and writes "Present" for an ongoing job, the
      executive ones a hyphen and "Now", the minimal one an en dash and "Now". */
  lemma JobDateLines(e: Experience)
    ensures StandardEntry(e)[1] == Line(e.startDate + " \U{2014} " + (if e.endDate == "" then "Present" else e.endDate))
    ensures ExecutiveEntry(e)[1] == Line(e.startDate + " - " + (if e.endDate == "" then "Now" else e.endDate))
    ensures MinimalEntry(e)[2] == Line(e.startDate + " \U{2013} " + (if e.endDate == "" then "Now" else e.endDate))
  {
  }

  /** With blank highlights both filtering templates show the same bullets,
      and the minimal template shows at least as many. */
  lemma FilteringTemplatesAgree(d: ResumeData)
    ensures BulletTexts(RenderStandard(d)) == BulletTexts(RenderExecutive(d))
    ensures |BulletTexts(RenderStandard(d))| <= |BulletTexts(RenderMinimal(d))|
  {
    StandardBullets(d);
    ExecutiveBullets(d);
    MinimalBullets(d);
  }
}

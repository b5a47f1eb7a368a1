# Résumé builder core in Dafny

This project models the core of a browser résumé builder. One data aggregate (`ResumeData`: contact details, summary, jobs, education, skills and a template choice) is edited through a five-step form. It is previewed in one of four templates and exported as a printed page or a Word document. The export is behind a one-time paywall.

Modules:

- `ResumeTypes` (`types.dfy`): the data model of `types.ts`, the two string enumerations with their parsers, the navigation order of the five steps, and the built-in default résumé.
- `Strings` (`strings.dfy`): the JavaScript string behaviour the code relies on: `trim` and `\s` (the ECMAScript whitespace set), `join`, `replace(/\s/g, …)`, `toUpperCase` (ASCII letters only) and the `||` fallback.
- `Lists` (`lists.dfy`): `filter` by element and by index, and the "map only the matching entries" idiom, with their order and count properties.
- `Edits` (`edits.dfy`): every `setData(prev => …)` updater of the editor, as a function from the old aggregate to the new one.
- `Preview` (`preview.dfy`): the preview component for the standard, minimal and classic/modern templates. Each template gives the ordered blocks it shows: the name heading, section captions, plain lines and bullets.
- `Docx` (`docx.dfy`): the Word export as the list of paragraphs it builds (runs with bold/italic, centring, the section rule, bullets), plus the download file name.
- `Consistency` (`consistency.dfy`): how the previews and the export relate, and the scenarios of a sparse résumé.
- `Session` (`session.dfy`): the editor's mutable state as a class. It holds the paid flag, the pending export, the payment dialog and the active step. Its methods are the export click, the payment, dismissing the dialog and the step navigation.

The skill level written 'None' in the source is the constructor `Unset` here, so that it does not clash with `Option.None`.

How the templates and the export treat empty data:

- The standard template is the only one that hides every empty section (App.tsx:488-533). It also drops blank bullets (App.tsx:505).
- The classic/modern templates always show the Experience caption (App.tsx:621-622) but drop blank bullets (App.tsx:632).
- The minimal template always shows its Connection, Competencies and Trajectory labels and the summary paragraph (App.tsx:555-575). It keeps blank bullets (App.tsx:584) and shows no education block.
- The Word export writes every section and caption whatever the data. It keeps blank bullets (services/docx-export.ts:58-64) and keeps empty contact fields as empty segments between the ` | ` separators (services/docx-export.ts:23).
- The standard template captions the summary "Professional Profile" (App.tsx:490). The editor's summary form is headed "Executive Profile" (App.tsx:219).

## Model

| member | source | states |
|---|---|---|
| ResumeTypes.ParseLevel | types.ts:33 | a stored level string denotes a level exactly when it is one of "Beginner", "Intermediate", "Expert", "None", and then the level's own string is that string |
| ResumeTypes.ParseTemplate | types.ts:36 | a stored template string denotes a template exactly when it is one of the four ids, and the template's id reads back as that string |
| ResumeTypes.IndexOf | App.tsx:117-123 | every step is in the navigation list, at exactly one position below 5 |
| ResumeTypes.InitialIdsShared | App.tsx:31-70 | the default résumé reuses the id "1" for an experience, an education entry and a skill, so ids are unique only within one list |
| Strings.TrimStart | App.tsx:505 | the result is a suffix of the input, all dropped characters are whitespace, and it does not start with whitespace |
| Strings.TrimEnd | App.tsx:505 | the result is a prefix of the input, all dropped characters are whitespace, and it does not end with whitespace |
| Strings.Trim | App.tsx:505 | the trimmed text neither starts nor ends with whitespace; it is what is left of the input once the leading whitespace and then the trailing whitespace are dropped |
| Strings.TrimEmptyIffAllWhitespace | App.tsx:505 | `h.trim() === ''` holds exactly when every character of `h` is whitespace |
| Strings.OrElse | App.tsx:479 | `s \|\| fallback`: `s` when non-empty, else the fallback, so the result is never empty when the fallback is not (the name headings) |
| Strings.Join | App.tsx:530 | a single string joins to itself, the empty list to "", and the length is the total length plus one separator between each pair |
| Strings.JoinSnoc | services/docx-export.ts:92 | joining one more string appends the separator and that string |
| Strings.ReplaceWhitespace | services/docx-export.ts:100 | same length; each character is replaced by the substitute exactly when it is whitespace |
| Strings.UpperChar | services/docx-export.ts:16 | lower-case ASCII letters move to upper case and every other character is unchanged; no lower-case ASCII letter comes out |
| Strings.ToUpper | services/docx-export.ts:16 | same length; character by character the upper-case of the input |
| Strings.ToUpperIdempotent | services/docx-export.ts:16 | upper-casing an upper-cased text changes nothing |
| Lists.Filter | App.tsx:244 | the result is no longer than the input and holds exactly the input's elements that pass the test |
| Lists.FilterAppend | App.tsx:505 | filtering a concatenation is concatenating the filtered parts |
| Lists.FilterKeepsAll | App.tsx:244 | a filter every element passes changes nothing |
| Lists.FilterCount | App.tsx:244 | each passing value keeps all its occurrences; every other value keeps none |
| Lists.FilterIsSubsequence | App.tsx:244 | the survivors keep their original relative order |
| Lists.RemoveIndexFrom | App.tsx:276 | the element at the given position is removed, counting from a base offset; a position outside the list removes nothing |
| Lists.RemoveIndex | App.tsx:276 | `filter((_, idx) => idx !== i)`: with `i` in range the list is one shorter and skips exactly position `i`; otherwise it is unchanged |
| Lists.RemoveLastAppended | App.tsx:276 | removing the position just appended restores the list |
| Lists.MapIfNoMatch | App.tsx:250 | a rewrite that matches nothing changes nothing |
| Preview.NonBlank | App.tsx:505 | `h.trim() !== ''` keeps exactly the highlights with a character that is not whitespace |
| Edits.UpdateContact | App.tsx:92-97 | the chosen contact field takes the value; the other five fields and the rest of the aggregate are unchanged |
| Edits.SetSummary | App.tsx:222-223 | the summary takes the new text; nothing else changes |
| Edits.SetTemplate | App.tsx:188 | the template takes the new value; nothing else changes |
| Edits.AssistantRole | App.tsx:222 | the role sent to the assistant is never empty: the first job's title when there is one and it is non-empty, otherwise "Professional" |
| Edits.WithExperienceField | App.tsx:250-253 | the chosen field holds the value and the entry agrees with the old one elsewhere |
| Edits.UpdateExperience | App.tsx:250-253 | list length kept; entries with the id get the value in that field and keep the rest; other entries and the rest of the aggregate are unchanged |
| Edits.UpdateExperienceAbsentId | App.tsx:250-253 | an edit for an id no entry carries changes nothing |
| Edits.UpdateExperienceLastWins | App.tsx:250-253 | of two edits of the same field of the same id, the later one wins |
| Edits.DeleteExperience | App.tsx:244 | no survivor has the id; every other entry keeps its multiplicity and relative order; the rest of the aggregate is unchanged |
| Edits.AddExperience | App.tsx:294 | one entry is appended with the given id, empty fields and highlights `['']`; the earlier entries are unchanged |
| Edits.BlankExperience | App.tsx:294 | the new card carries the given id, every text field and the description are empty, and it holds one empty bullet |
| Edits.DeleteUndoesAddExperience | App.tsx:244-294 | deleting the entry just added under a fresh id restores the résumé |
| Edits.ReplaceHighlights | App.tsx:262 | every entry with the id gets the new highlight list; the others are unchanged |
| Edits.EditHighlight | App.tsx:257-262 | the card's bullet `i` takes the value and its other bullets are kept; entries sharing the id get the same list; nothing but highlights changes |
| Edits.DeleteHighlight | App.tsx:276-277 | with `i` in range the card's list loses exactly position `i`, keeping the order of the rest; otherwise it is unchanged; entries sharing the id get the same list |
| Edits.AddHighlight | App.tsx:286 | every entry with the id gets one more bullet `''` at the end; the others are unchanged |
| Edits.DeleteUndoesAddHighlight | App.tsx:276-286 | on a card with its own id, deleting the bullet just added restores the résumé |
| Edits.WithEducationField | App.tsx:312-315 | the chosen field holds the value and the entry agrees with the old one elsewhere |
| Edits.UpdateEducation | App.tsx:312-315 | list length kept; entries with the id get the value in that field and keep the rest; nothing else changes |
| Edits.DeleteEducation | App.tsx:306 | exactly the entries with the id go; the others keep multiplicity and order |
| Edits.AddEducation | App.tsx:319 | one blank entry without a grade is appended with the given id |
| Edits.DeleteUndoesAddEducation | App.tsx:306-319 | deleting the entry just added under a fresh id restores the résumé |
| Edits.UpdateSkillName | App.tsx:351-354 | skills with the id take the new name; the others are unchanged |
| Edits.UpdateSkillLevel | App.tsx:365-368 | skills with the id take the new level; the others are unchanged |
| Edits.DeleteSkill | App.tsx:357 | exactly the skills with the id go; the others keep multiplicity and order |
| Edits.AddSkill | App.tsx:379 | one nameless skill with level 'None' is appended with the given id |
| Edits.DeleteUndoesAddSkill | App.tsx:357-379 | deleting the skill just added under a fresh id restores the résumé |
| Edits.AddSuggestedSkills | App.tsx:335-337 | the suggestions are appended after the existing skills in the order given, each with its drawn id and level 'None' |
| Edits.SuggestedSkillNames | App.tsx:335-337 | afterwards the skill names are the old names followed by the suggestions |
| Preview.CaptionsAppend | App.tsx:487-534 | the captions of a concatenation are the captions of its parts in order |
| Preview.BulletTextsAppend | App.tsx:497-508 | the bullets of a concatenation are the bullets of its parts in order |
| Preview.Bullets | App.tsx:505 | exactly one bullet per string, in order, and nothing else |
| Preview.Lines | App.tsx:518-521 | one plain line per string, in order, with no caption and no bullet |
| Preview.Section | App.tsx:489-492 | a section's captions are its title followed by its body's; its bullets are its body's |
| Preview.StandardContactItems | App.tsx:481-484 | exactly the non-empty fields are shown, in the order email, phone, location, LinkedIn: the email on its own, the others each as "\| " plus the field (the bar even without an email) |
| Preview.StandardHeader | App.tsx:478-486 | the header has no caption and no bullet |
| Preview.StandardEntry | App.tsx:498-507 | a job shows no caption and, as bullets, its highlights that are not blank, in order |
| Preview.StandardEntries | App.tsx:497-508 | the jobs' bullets are the non-blank highlights of all jobs in order |
| Preview.StandardEducation | App.tsx:515-523 | the education entries add no caption and no bullet |
| Preview.RenderStandard | App.tsx:479-530 | the first block is the name, or "YOUR FULL NAME" when it is empty; with skills, the last line is the names joined by ", " |
| Preview.StandardSections | App.tsx:488-533 | the captions are Professional Profile, Employment History, Education and Expertise in that order, each present exactly when its text or list is non-empty |
| Preview.StandardBullets | App.tsx:505 | the bullets are exactly the highlights whose trim is non-empty, in order |
| Preview.MinimalEntry | App.tsx:577-591 | a job shows no caption and every highlight as a bullet, blanks included |
| Preview.MinimalEntries | App.tsx:576-592 | the jobs' bullets are all highlights in order |
| Preview.RenderMinimal | App.tsx:544-548 | the document opens with the name (or "NAME") and then the first job's title (or "PROFESSIONAL") |
| Preview.MinimalHeader | App.tsx:543-551 | the header has no caption and no bullet |
| Preview.MinimalSections | App.tsx:555-575 | the captions are always Connection, Competencies and Trajectory |
| Preview.MinimalBullets | App.tsx:584 | the bullets are every highlight, blank ones included |
| Preview.MinimalIgnoresEducation | App.tsx:540-598 | the minimal template does not depend on the education list |
| Preview.ExecutiveHeader | App.tsx:604-613 | the header has no caption and no bullet |
| Preview.ExecutiveEntry | App.tsx:625-634 | a job shows no caption and its non-blank highlights as bullets |
| Preview.ExecutiveEntries | App.tsx:624-635 | the jobs' bullets are the non-blank highlights of all jobs in order |
| Preview.ExecutiveEducation | App.tsx:643-649 | the education entries add no caption and no bullet |
| Preview.RenderExecutive | App.tsx:605 | the first block is the name, or "NAME" when it is empty |
| Preview.ExecutiveSections | App.tsx:615-664 | Experience is always captioned; Objective, Academic and Inventory appear exactly when their text or list is non-empty, in that order |
| Preview.ExecutiveBullets | App.tsx:632 | the bullets are exactly the non-blank highlights |
| Preview.Render | App.tsx:472-601 | the template field picks the layout, classic and modern sharing one; every template but the minimal one shows exactly the non-blank highlights as bullets, the minimal one all highlights |
| Preview.ClassicModernSameContent | App.tsx:600-603 | classic and modern show the same content |
| Preview.JobDateLines | App.tsx:501 | each template's date line: em dash and "Present" (standard), hyphen and "Now" (classic/modern, App.tsx:628), en dash and "Now" (minimal, App.tsx:581) for an empty end date |
| Preview.FilteringTemplatesAgree | App.tsx:505 | standard and classic/modern show the same bullets, and never more than the minimal template |
| Docx.BulletLinesAppend | services/docx-export.ts:46-65 | the bullets of a concatenation are the bullets of its parts in order |
| Docx.SectionTitlesAppend | services/docx-export.ts:30-89 | the titles of a concatenation are the titles of its parts in order |
| Docx.HighlightParagraphs | services/docx-export.ts:58-64 | one bullet paragraph per highlight, blank ones included, and no title |
| Docx.EntryParagraphs | services/docx-export.ts:46-65 | a job is `2 + \|highlights\|` paragraphs: bold title with the date run, italic company, then its bullets |
| Docx.ContactLine | services/docx-export.ts:23 | email, " \| ", phone, " \| ", location, in that order, with empty fields kept, so an empty contact shows " \|  \| " |
| Docx.NameParagraph | services/docx-export.ts:12-17 | one bold centred run whose text is the upper-cased name: as long as the name (ASCII upper-casing), with no lower-case ASCII letter left |
| Docx.ExperienceParagraphs | services/docx-export.ts:46-65 | the jobs take `ExperienceParagraphCount` paragraphs, whose bullets are all highlights in order, with no title |
| Docx.EducationParagraph | services/docx-export.ts:73-81 | two plain runs: the first "school: degree in field", the second a tab and the graduation date; not a bullet, not ruled |
| Docx.SkillsLine | services/docx-export.ts:92 | no skills give "", one skill its name, and each further skill appends ", " and its name, so the names stand in list order |
| Docx.EducationParagraphs | services/docx-export.ts:73-82 | one paragraph per entry, with runs "school: degree in field" and a tab plus the graduation date |
| Docx.SectionStart | services/docx-export.ts:30-34 | a section opens with the empty spacer and then its ruled title |
| Docx.Header | services/docx-export.ts:13-27 | the name paragraph (upper-cased, bold, centred) and then the contact paragraph, with no title and no bullet |
| Docx.Section | services/docx-export.ts:40-65 | spacer, ruled title, then the section's paragraphs |
| Docx.TextSection | services/docx-export.ts:84-93 | spacer, ruled title and one plain paragraph of text |
| Docx.Document | services/docx-export.ts:6-93 | `12 + Σ(2 + \|highlights\|) + \|education\|` paragraphs, opening with the name and contact paragraphs and closing with the skills text |
| Docx.TitlesOfParts | services/docx-export.ts:30-89 | the titles of a header and four one-title sections are those four titles |
| Docx.DocumentSections | services/docx-export.ts:30-89 | the titles are always PROFESSIONAL SUMMARY, WORK EXPERIENCE, EDUCATION, SKILLS, whatever the data |
| Docx.DocumentBullets | services/docx-export.ts:58-64 | the bullets are every highlight in order, blank ones included |
| Docx.DocumentLayout | services/docx-export.ts:12-93 | the paragraph order: header (2), summary section (3), experience section, education section, skills section (3), with the skills text the names joined by ", " |
| Docx.FileName | services/docx-export.ts:100 | the name is `fullName` with each whitespace character turned into "_", then "_Resume.docx"; it contains no whitespace at all |
| Consistency.PreviewBulletsAgainstExport | App.tsx:505 | the standard and classic/modern previews show the exported bullets that are not blank; the minimal preview shows all of them (services/docx-export.ts:58) |
| Consistency.SkillsLineAgrees | services/docx-export.ts:92 | the standard preview's last line and the exported skills paragraph hold the same text (App.tsx:530) |
| Consistency.ExportIgnoresTemplate | services/docx-export.ts:6-97 | the export does not depend on the template chosen |
| Consistency.BlankBulletDivergence | App.tsx:505 | a highlight of one space gives no bullet in the standard preview but one bullet in the export (services/docx-export.ts:58) |
| Consistency.SparseResumeSections | App.tsx:488-533 | with no summary and no education but with jobs and skills, the standard preview shows only Employment History and Expertise |
| Consistency.SparseResumeBullets | App.tsx:505 | one job with a blank and a written highlight gives exactly one bullet, the written one |
| Consistency.SparseResumeSkills | App.tsx:530 | two skills end the standard preview as "first, second" |
| Consistency.NewJobBullets | App.tsx:294 | adding a job to any résumé leaves the standard and classic/modern bullets unchanged, and gives the minimal preview and the Word export one more empty bullet at the end (App.tsx:505, App.tsx:584, services/docx-export.ts:58) |
| Consistency.TwoSkillsLine | App.tsx:530 | two skill names join as "first, second" |
| Session.PreviousOf | App.tsx:390-393 | Previous moves back exactly one step, except on the first step, where it stays |
| Session.NextOf | App.tsx:394-397 | Continue moves forward exactly one step, except on the last step, where it stays |
| Session.PreviousUndoesNext | App.tsx:390-397 | Continue then Previous returns to the step, except from the last one |
| Session.NextUndoesPrevious | App.tsx:390-397 | Previous then Continue returns to the step, except from the first one |
| Session.ContinueReaches | App.tsx:394-397 | `n` presses of Continue land at index `min(i + n, 4)`, so the index stays within 0..4 |
| Session.EditorState.constructor | App.tsx:74-85 | the editor opens on the contact step with no dialog and no pending export; paid exactly when the stored flag was 'true' |
| Session.EditorState.HandleExportClick | App.tsx:99-107 | unpaid: nothing fires, the request becomes pending and the dialog opens; paid: the clicked export fires and nothing changes |
| Session.EditorState.ProcessPayment | App.tsx:109-115 | called only from the open dialog (App.tsx:415-416, 454): the user is paid, the dialog closes, and exactly the pending export fires, so an export always fires; the pending request is kept |
| Session.EditorState.DismissPaymentModal | App.tsx:453 | the dialog closes and nothing else changes |
| Session.EditorState.SelectSection | App.tsx:147 | the clicked step becomes active and nothing else changes |
| Session.EditorState.PreviousStep | App.tsx:390-393 | the active step becomes `PreviousOf` the old one and nothing else changes |
| Session.EditorState.ContinueStep | App.tsx:394-397 | the active step becomes `NextOf` the old one and nothing else changes |
| Session.ClickPayClick | App.tsx:99-115 | unpaid click, payment, then a second click: nothing, the first export, then the second export directly |
| Session.LastRequestWins | App.tsx:99-115 | two requests before paying, with "Keep Free Preview" (App.tsx:453) in between: the payment fires only the later request |

## Left out

- The writing assistant (services/gemini.ts) is not part of this model. It calls a remote text-generation service. Its results (a summary, a rewritten bullet, suggested skill names) enter as parameters of `Edits.SetSummary`, `Edits.EditHighlight` and `Edits.AddSuggestedSkills`. Its fallbacks and error handling are not modelled.
- `Edits.EditHighlight`, `Edits.DeleteHighlight`: the card's list is read from the same résumé the update is applied to. In the source the new list is built from the card's list as rendered (App.tsx:260, 267, 276) and written over the current state. So the assistant's rewrite (App.tsx:264-270) can overwrite bullets edited while it was awaited. The model does not capture that.
- The `isGenerating` flag and the asynchronous assistant calls are left out. With them, concurrent edits overwrite each other in arrival order.
- Persistence in the browser's local storage (App.tsx:81-90, App.tsx:111) is I/O. It is left out, except that the stored paid flag is the constructor's parameter.
- `window.print()` and the Word library's `Packer.toBlob`/`saveAs` are foreign calls. An export that fires is a returned value, and the Word document is its paragraph list.
- New identifiers come from `Date.now()` and `Math.random()`. They are parameters here, and the model proves nothing about their uniqueness.
- `Strings.ToUpper`: upper-cases ASCII letters only, not the full Unicode mapping of `toUpperCase`.
- `Docx.NameParagraph`: its run is as long as the name only because of the ASCII `Strings.ToUpper`; the full `toUpperCase` can lengthen text ("ß" becomes "SS").
- Markup, CSS classes and letter case applied by CSS, fonts, sizes, spacing and tab stops are left out. Also left out: the `isPrint` switch, the mobile preview toggle, the sidebar icons and the Button/Input widgets.
- `Edits.UpdateContact`: the source takes any string as a field name. The model allows only the six contact inputs the form binds.
- `Edits.UpdateSkillLevel`: the drop-down's value is cast without checking. The model takes a `SkillLevel`, and `ResumeTypes.ParseLevel` says which strings are levels.
- The `description` of an experience is kept in the data but has no editor and is shown by no template. The model carries it unchanged.
- The education `gpa` is never shown or edited. The model only carries it.
- The step headline (`sections.find(...)?.label`) and the template picker's labels are presentation and are left out.

## Findings

None.

/** The editor's own state in App.tsx besides the résumé: the paywall in
    front of the two exports and the step the form shows. An export that
    "fires" is returned as a value; printing and the Word download
    themselves are not part of this model. */
module Session {
  import opened ResumeTypes

  /** `'pdf' | 'docx'`. */
  datatype ExportKind = PdfExport | DocxExport

  /** The step before `s` in the navigation list; the first step has none. */
  function PreviousOf(s: Section): (r: Section)
    ensures IndexOf(s) > 0 ==> IndexOf(r) == IndexOf(s) - 1
    ensures IndexOf(s) == 0 ==> r == s
  {
    var i := IndexOf(s);
    if i > 0 then SectionOrder[i - 1] else s
  }

  /** The step after `s` in the navigation list; the last step has none. */
  function NextOf(s: Section): (r: Section)
    ensures IndexOf(s) < |SectionOrder| - 1 ==> IndexOf(r) == IndexOf(s) + 1
    ensures IndexOf(s) == |SectionOrder| - 1 ==> r == s
  {
    var i := IndexOf(s);
    if i < |SectionOrder| - 1 then SectionOrder[i + 1] else s
  }

  /** Continue then Previous comes back, except from the last step. */
  lemma PreviousUndoesNext(s: Section)
    requires s != SkillsSection
    ensures PreviousOf(NextOf(s)) == s
  {
    assert IndexOf(SectionOrder[IndexOf(s)]) == IndexOf(s);
  }

  /** Previous then Continue comes back, except from the first step. */
  lemma NextUndoesPrevious(s: Section)
    requires s != ContactSection
    ensures NextOf(PreviousOf(s)) == s
  {
    assert IndexOf(SectionOrder[IndexOf(s)]) == IndexOf(s);
  }

  /** `n` presses of Continue from `s`. */
  function ContinueTimes(s: Section, n: nat): Section
    decreases n
  {
    if n == 0 then s else ContinueTimes(NextOf(s), n - 1)
  }

  /** Continue walks the steps in navigation order and then stays on the last one. */
  lemma {:induction false} ContinueReaches(s: Section, n: nat)
    ensures IndexOf(ContinueTimes(s, n)) == if IndexOf(s) + n < |SectionOrder| then IndexOf(s) + n else |SectionOrder| - 1
    decreases n
  {
    if n > 0 {
      ContinueReaches(NextOf(s), n - 1);
    }
  }

  class EditorState {
    var hasPaid: bool
    var pendingExport: Option<ExportKind>
    var showPaymentModal: bool
    var activeSection: Section

    /** The payment dialog is only ever open for someone who has not paid and
        has asked for an export. */
    ghost predicate Valid()
      reads this
    {
      showPaymentModal ==> !hasPaid && pendingExport.Some?
    }

    /** The state when the editor opens: on the contact step, no dialog and no
        pending export; `storedPaid` is whether the saved paid flag reads 'true'. */
    constructor(storedPaid: bool)
      ensures Valid()
      ensures hasPaid == storedPaid && pendingExport == None && !showPaymentModal
      ensures activeSection == ContactSection
    {
      hasPaid := storedPaid;
      pendingExport := None;
      showPaymentModal := false;
      activeSection := ContactSection;
    }

    /** `handleExportClick`: without payment nothing fires, the request is kept
        and the dialog opens; after payment the requested export fires at once. */
    method HandleExportClick(kind: ExportKind) returns (fired: Option<ExportKind>)
      requires Valid()
      modifies this
      ensures Valid()
      ensures !old(hasPaid) ==> fired == None && !hasPaid && pendingExport == Some(kind) && showPaymentModal
      ensures old(hasPaid) ==> fired == Some(kind) && hasPaid && pendingExport == old(pendingExport)
                               && showPaymentModal == old(showPaymentModal)
      ensures activeSection == old(activeSection)
    {
      if !hasPaid {
        pendingExport := Some(kind);
        showPaymentModal := true;
        fired := None;
      } else {
        fired := Some(kind);
      }
    }

    /** `processPayment`, reached only from the open payment dialog: the user
        is paid from now on, the dialog closes, and exactly the pending export
        fires; since the dialog only opens with a request pending, one always
        fires. The pending request itself is not cleared. */
    method ProcessPayment() returns (fired: Option<ExportKind>)
      requires Valid() && showPaymentModal
      modifies this
      ensures Valid()
      ensures hasPaid && !showPaymentModal
      ensures fired.Some?
      ensures fired == old(pendingExport) && pendingExport == old(pendingExport)
      ensures activeSection == old(activeSection)
    {
      hasPaid := true;
      showPaymentModal := false;
      fired := pendingExport;
    }

    /** "Keep Free Preview": the dialog closes and nothing else changes. */
    method DismissPaymentModal()
      requires Valid()
      modifies this
      ensures Valid()
      ensures !showPaymentModal
      ensures hasPaid == old(hasPaid) && pendingExport == old(pendingExport) && activeSection == old(activeSection)
    {
      showPaymentModal := false;
    }

    /** A click on a step in the sidebar. */
    method SelectSection(s: Section)
      requires Valid()
      modifies this
      ensures Valid()
      ensures activeSection == s
      ensures hasPaid == old(hasPaid) && pendingExport == old(pendingExport) && showPaymentModal == old(showPaymentModal)
    {
      activeSection := s;
    }

    /** "Previous Step": one step back, or nothing on the first step. */
    method PreviousStep()
      requires Valid()
      modifies this
      ensures Valid()
      ensures activeSection == PreviousOf(old(activeSection))
      ensures hasPaid == old(hasPaid) && pendingExport == old(pendingExport) && showPaymentModal == old(showPaymentModal)
    {
      var idx := IndexOf(activeSection);
      if idx > 0 {
        activeSection := SectionOrder[idx - 1];
      }
    }

    /** "Continue": one step forward, or nothing on the last step. */
    method ContinueStep()
      requires Valid()
      modifies this
      ensures Valid()
      ensures activeSection == NextOf(old(activeSection))
      ensures hasPaid == old(hasPaid) && pendingExport == old(pendingExport) && showPaymentModal == old(showPaymentModal)
    {
      var idx := IndexOf(activeSection);
      if idx < |SectionOrder| - 1 {
        activeSection := SectionOrder[idx + 1];
      }
    }
  }

  /** A user who has not paid clicks one export, pays, then clicks another:
      the first click fires nothing, the payment fires the first export, and
      the second click fires directly. */
  method ClickPayClick(first: ExportKind, second: ExportKind) returns (f1: Option<ExportKind>, f2: Option<ExportKind>, f3: Option<ExportKind>)
    ensures f1 == None && f2 == Some(first) && f3 == Some(second)
  {
    var st := new EditorState(false);
    f1 := st.HandleExportClick(first);
    f2 := st.ProcessPayment();
    f3 := st.HandleExportClick(second);
  }

  /** Two requests before paying, the dialog dismissed in between with "Keep
      Free Preview": the payment fires only the later one. */
  method LastRequestWins(first: ExportKind, second: ExportKind) returns (fired: Option<ExportKind>)
    ensures fired == Some(second)
  {
    var st := new EditorState(false);
    var ignored := st.HandleExportClick(first);
    st.DismissPaymentModal();
    ignored := st.HandleExportClick(second);
    fired := st.ProcessPayment();
  }
}

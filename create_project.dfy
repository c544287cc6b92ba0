/**
 * The project dialog's own handlers (`CreateProjectForm`): editing and deleting tasks in the
 * project form, and building the submitted record, whose quote number is read back from the
 * text of the quote-number element ("Quote #: 007").
 */
module CreateProject {
  import opened Wrappers
  import opened Records
  import opened CalculateCost
  import opened UseForm
  import Seqs
  import Text
  import QuoteNumber

  // ---- The quote number read back from the page -------------------------------------------

  /** The text of the quote-number element: "Quote #: " and the number, or nothing for an empty number. */
  function LabelText(display: string): (r: string)
    ensures display == "" ==> r == ""
    ensures display != "" ==> r == "Quote #: " + display
  {
    if display == "" then "" else "Quote #: " + display
  }

  /** A displayed number that survives being put in the label: no '#', no white space at either end. */
  predicate LabelSafe(q: string)
  {
    q != [] && '#' !in q && !Text.IsSpace(q[0]) && !Text.IsSpace(q[|q| - 1])
  }

  /**
   * `textContent.split("#")[1].trim()` as written: the text after the first '#', trimmed.
   * Without a '#' the piece is `undefined` and calling `trim` on it throws.
   */
  function ExtractQuoteNumberAsWritten(text: string): (r: Result<string>)
    ensures r.Err? <==> '#' !in text
    ensures r.Ok? ==> Text.Trim(r.value) == r.value
  {
    match Text.SecondPiece(text, '#')
    case None => Err("TypeError: cannot read properties of undefined (reading 'trim')")
    case Some(piece) => Text.TrimUnchanged(Text.Trim(piece)); Ok(Text.Trim(piece))
  }

  /** The piece after '#' in a label, before any trimming. */
  lemma LabelPiece(q: string)
    requires LabelSafe(q)
    ensures Text.SecondPiece(LabelText(q), '#') == Some(": " + q)
  {
    assert LabelText(q) == "Quote " + ['#'] + (": " + q);
    assert '#' !in "Quote ";
    assert '#' !in ": " + q;
    Text.SecondPieceAfterPrefix("Quote ", '#', ": " + q);
  }

  /** As written, the number read back from "Quote #: q" keeps the label's colon: ": q". */
  lemma AsWrittenKeepsColon(q: string)
    requires LabelSafe(q)
    ensures ExtractQuoteNumberAsWritten(LabelText(q)) == Ok(": " + q)
  {
    LabelPiece(q);
    var p := ": " + q;
    assert p[|p| - 1] == q[|q| - 1];
    Text.TrimUnchanged(p);
  }

  /** So, as written, no label-safe number ever comes back as itself. */
  lemma AsWrittenNeverRoundTrips(q: string)
    requires LabelSafe(q)
    ensures ExtractQuoteNumberAsWritten(LabelText(q)) != Ok(q)
  {
    AsWrittenKeepsColon(q);
    var r := ExtractQuoteNumberAsWritten(LabelText(q));
    assert r.value == ": " + q;
    assert |r.value| == |q| + 2;
  }

  /** The intended reading: after the '#', trimmed, without the label's ':' and the space after it. */
  function ExtractQuoteNumber(text: string): (r: Result<string>)
    ensures r.Err? <==> '#' !in text
    ensures r.Ok? ==> Text.Trim(r.value) == r.value
  {
    match Text.SecondPiece(text, '#')
    case None => Err("TypeError: cannot read properties of undefined (reading 'trim')")
    case Some(piece) => Ok(WithoutColon(piece))
  }

  /** The piece trimmed, and if it then starts with ':', the rest after it trimmed again. */
  function WithoutColon(piece: string): (r: string)
    ensures Text.Trim(r) == r
  {
    var t := Text.Trim(piece);
    var rest := if t != [] && t[0] == ':' then Text.Trim(t[1..]) else t;
    Text.TrimUnchanged(rest);
    rest
  }

  /** Round trip: the number shown in the label is the number read back. */
  lemma ExtractRoundTrip(q: string)
    requires LabelSafe(q)
    ensures ExtractQuoteNumber(LabelText(q)) == Ok(q)
  {
    LabelPiece(q);
    LabelColonDropped(q);
  }

  lemma LabelColonDropped(q: string)
    requires LabelSafe(q)
    ensures WithoutColon(": " + q) == q
  {
    var p := ": " + q;
    assert p[0] == ':' && p[|p| - 1] == q[|q| - 1];
    assert !Text.IsSpace(':');
    Text.TrimUnchanged(p);
    assert p[1..] == " " + q;
    TrimAfterSpace(q);
    assert Text.Trim(p[1..]) == q;
  }

  lemma TrimAfterSpace(q: string)
    requires q != [] && !Text.IsSpace(q[0]) && !Text.IsSpace(q[|q| - 1])
    ensures Text.Trim(" " + q) == q
  {
    assert (" " + q)[1..] == q;
    assert Text.TrimStart(" " + q) == Text.TrimStart(q);
    Text.TrimUnchanged(q);
  }

  /** A character of a number as `toString` writes it. */
  predicate NumberChar(c: char)
  {
    c == '-' || QuoteNumber.IsDigit(c)
  }

  lemma NumberCharNotSpace(c: char)
    requires NumberChar(c)
    ensures !Text.IsSpace(c) && c != '#'
  {
  }

  lemma IntToStringChars(n: int)
    ensures forall i :: 0 <= i < |QuoteNumber.IntToString(n)| ==> NumberChar(QuoteNumber.IntToString(n)[i])
  {
    var s := QuoteNumber.IntToString(n);
    if n < 0 {
      var ds := QuoteNumber.NatToDecimal(-n);
      assert s == "-" + ds;
      assert forall i :: 1 <= i < |s| ==> s[i] == ds[i - 1];
    }
  }

  lemma PaddedChars(s: string)
    requires forall i :: 0 <= i < |s| ==> NumberChar(s[i])
    ensures forall i :: 0 <= i < |QuoteNumber.PadStart(s, 3, '0')| ==> NumberChar(QuoteNumber.PadStart(s, 3, '0')[i])
  {
    var d := QuoteNumber.PadStart(s, 3, '0');
    forall i | 0 <= i < |d| ensures NumberChar(d[i]) {
      if i >= |d| - |s| {
        assert d[i] == d[|d| - |s|..][i - (|d| - |s|)];
      }
    }
  }

  /** Every number the counter can show is label-safe: digits, a sign, or "NaN", padded with '0'. */
  lemma DisplayedNumberIsLabelSafe(n: int)
    ensures LabelSafe(QuoteNumber.Formatted(Some(QuoteNumber.IntToString(n))))
  {
    var s := QuoteNumber.IntToString(n);
    assert s != "";
    var d := QuoteNumber.Formatted(Some(s));
    assert d == QuoteNumber.PadStart(s, 3, '0');
    IntToStringChars(n);
    PaddedChars(s);
    NumberCharNotSpace(d[0]);
    NumberCharNotSpace(d[|d| - 1]);
    forall i | 0 <= i < |d| ensures d[i] != '#' {
      NumberCharNotSpace(d[i]);
    }
  }

  /** The number the counter hands out is the number the submitted project records. */
  lemma CounterNumberRoundTrip(n: int)
    ensures var shown := QuoteNumber.Formatted(Some(QuoteNumber.IntToString(n)));
            ExtractQuoteNumber(LabelText(shown)) == Ok(shown)
  {
    DisplayedNumberIsLabelSafe(n);
    ExtractRoundTrip(QuoteNumber.Formatted(Some(QuoteNumber.IntToString(n))));
  }

  /**
   * `handleSubmit` as written: the form data with only `quoteNumber` replaced by the number read
   * from the quote-number element (None when there is no element). An element without a '#'
   * (an empty number renders no label) makes the handler throw.
   */
  function SubmittedProject(formData: Project, element: Option<string>): (r: Result<Project>)
    ensures element.None? ==> r == Ok(formData.(quoteNumber := None))
    ensures element.Some? ==> (r.Err? <==> '#' !in element.value)
    ensures r.Ok? ==> r.value.(quoteNumber := formData.quoteNumber) == formData
    ensures element.Some? && r.Ok? ==> r.value.quoteNumber == Some(ExtractQuoteNumberAsWritten(element.value).value)
  {
    match element
    case None => Ok(formData.(quoteNumber := None))
    case Some(text) =>
      match ExtractQuoteNumberAsWritten(text)
      case Err(e) => Err(e)
      case Ok(q) => Ok(formData.(quoteNumber := Some(q)))
  }

  /** As written, a project submitted while the counter shows n records ": " and n, not n. */
  lemma SubmitRecordsDisplayedNumber(formData: Project, n: int)
    ensures var shown := QuoteNumber.Formatted(Some(QuoteNumber.IntToString(n)));
            SubmittedProject(formData, Some(LabelText(shown))) == Ok(formData.(quoteNumber := Some(": " + shown)))
  {
    var shown := QuoteNumber.Formatted(Some(QuoteNumber.IntToString(n)));
    DisplayedNumberIsLabelSafe(n);
    AsWrittenKeepsColon(shown);
  }

  /** `handleSubmit` as intended: the same, with the number read by `ExtractQuoteNumber`. */
  function IntendedSubmittedProject(formData: Project, element: Option<string>): (r: Result<Project>)
    ensures element.None? ==> r == Ok(formData.(quoteNumber := None))
    ensures element.Some? ==> (r.Err? <==> '#' !in element.value)
    ensures r.Ok? ==> r.value.(quoteNumber := formData.quoteNumber) == formData
    ensures element.Some? && r.Ok? ==> r.value.quoteNumber == Some(ExtractQuoteNumber(element.value).value)
  {
    match element
    case None => Ok(formData.(quoteNumber := None))
    case Some(text) =>
      match ExtractQuoteNumber(text)
      case Err(e) => Err(e)
      case Ok(q) => Ok(formData.(quoteNumber := Some(q)))
  }

  /** As intended, a project submitted while the counter shows n records n, as displayed. */
  lemma IntendedSubmitRecordsDisplayedNumber(formData: Project, n: int)
    ensures var shown := QuoteNumber.Formatted(Some(QuoteNumber.IntToString(n)));
            IntendedSubmittedProject(formData, Some(LabelText(shown))) == Ok(formData.(quoteNumber := Some(shown)))
  {
    CounterNumberRoundTrip(n);
  }

  // ---- The dialog's task handlers ---------------------------------------------------------

  /** The dialog's own state around the project form hook. */
  class ProjectEditor {
    const form: ProjectForm
    var showTaskModal: bool
    var editingTaskIndex: Option<int>
    var showDeleteTaskModal: bool
    var taskToDelete: Option<int>

    constructor(form: ProjectForm)
      ensures this.form == form
      ensures !showTaskModal && editingTaskIndex.None? && !showDeleteTaskModal && taskToDelete.None?
    {
      this.form := form;
      showTaskModal := false;
      editingTaskIndex := None;
      showDeleteTaskModal := false;
      taskToDelete := None;
    }

    /** `handleEditClick(index)`: opens the task dialog on the task at `index`. */
    method HandleEditClick(index: int)
      modifies this
      ensures editingTaskIndex == Some(index) && showTaskModal
      ensures unchanged(this`showDeleteTaskModal, this`taskToDelete)
    {
      editingTaskIndex := Some(index);
      showTaskModal := true;
    }

    /** `handleRemoveClick(index)`: asks for confirmation to delete the task at `index`. */
    method HandleRemoveClick(index: int)
      modifies this
      ensures taskToDelete == Some(index) && showDeleteTaskModal
      ensures unchanged(this`showTaskModal, this`editingTaskIndex)
    {
      taskToDelete := Some(index);
      showDeleteTaskModal := true;
    }

    /** `handleConfirmDelete()`: closes the confirmation; the removal itself is commented out, so no task goes. */
    method HandleConfirmDelete()
      modifies this
      ensures old(taskToDelete).Some? ==> taskToDelete.None? && !showDeleteTaskModal
      ensures old(taskToDelete).None? ==> unchanged(this`taskToDelete, this`showDeleteTaskModal)
      ensures unchanged(this`showTaskModal, this`editingTaskIndex)
      ensures unchanged(form)
    {
      if taskToDelete.Some? {
        taskToDelete := None;
        showDeleteTaskModal := false;
      }
    }

    /**
     * `handleUpdateTask(task)`: with an editing index, replaces that task through the form's
     * input handler (name "tasks", so the total is not recomputed); otherwise appends the task
     * through `handleAddTask`, which recomputes it. Either way the task dialog closes.
     */
    method HandleUpdateTask(t: Task)
      modifies this, form
      ensures !showTaskModal && editingTaskIndex.None?
      ensures old(editingTaskIndex).Some? ==>
                && form.formData == old(form.formData).(tasks := Seqs.ReplaceIndex(old(form.formData.tasks), old(editingTaskIndex).value, t))
                && |form.formData.tasks| == |old(form.formData.tasks)|
                && form.isDirty == (old(form.isDirty) || form.originalData.Some?)
      ensures old(editingTaskIndex).None? ==>
                && form.formData == old(form.formData).(tasks := old(form.formData.tasks) + [t],
                                                        totalCost := TotalCost(old(form.formData.tasks) + [t], old(form.formData.otherCosts), old(form.formData.hourlyRate)))
                && form.isDirty == (old(form.isDirty) || form.originalData.Some?)
      ensures unchanged(this`showDeleteTaskModal, this`taskToDelete)
      ensures unchanged(form`originalData, form`includeTasks, form`savedTasks, form`previousHoursEstimate)
      ensures unchanged(form`showWarningModal, form`pendingAction, form`showCostsModal, form`invoked)
    {
      if editingTaskIndex.Some? {
        var updated := Seqs.ReplaceIndex(form.formData.tasks, editingTaskIndex.value, t);
        form.HandleInputChange(SetTasks(updated));
        editingTaskIndex := None;
        showTaskModal := false;
      } else {
        form.HandleAddTask(t);
        showTaskModal := false;
      }
    }
  }

  /** Removing a task and confirming leaves the project's tasks as they were. */
  method RemoveAndConfirm(ed: ProjectEditor, index: int)
    modifies ed
    ensures ed.form.formData == old(ed.form.formData)
    ensures ed.taskToDelete.None? && !ed.showDeleteTaskModal
  {
    ed.HandleRemoveClick(index);
    ed.HandleConfirmDelete();
  }
}

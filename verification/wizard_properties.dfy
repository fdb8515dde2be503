/** Properties of the wizard reducer: an invariant every transition keeps,
    and how pairs of transitions compose or undo each other. */
module WizardProperties {
  import opened Common
  import opened Form
  import opened StepTable
  import opened Wizard

  /** What holds in every state a session can reach. */
  predicate Valid(s: State) {
    // the step is an editing step or the results view
    && 0 <= s.step <= StepCount
    // busy exactly while one timer is running; its control sits on one step
    && (s.loading <==> s.pending.Some?)
    && (s.pending == Some(Calculate) ==> s.step == StepCount - 1)
    && (s.pending.Some? && s.pending.value.ProcessUpload? ==> s.step == 0)
    // the results view always has the canned result to show
    && (s.result.Some? ==> s.result.value == CannedResult)
    && (s.step == StepCount ==> s.result.Some?)
    // a file name is recorded together with the processing outcome
    && (s.uploadedFile.Some? <==> s.ocrResult == ProcessedMessage)
    && (s.uploadedFile.None? <==> s.ocrResult == "")
    // the filing status is one of the select's options
    && IsFilingChoice(Get(s.formData, FilingStatus))
    // the error is empty or names a required field
    && (s.error == "" || IsValidationMessage(s.error))
  }

  lemma InitialValid()
    ensures Valid(Initial)
  {
    assert Initial.formData.filingStatus == Text(FilingStatusChoices[0].value);
  }

  /** A validation failure's message names a required field. */
  lemma FailureMessageIsValidation(k: int, fd: FormData, i: int)
    requires 0 <= k < StepCount && FirstMissingAt(Questions[k].fields, fd, i)
    ensures IsValidationMessage(MissingMessage(Questions[k].fields[i].caption))
  {
  }

  /** A select only ever stores one of its options into the filing status. */
  lemma EditKeepsFilingChoice(s: State, n: FieldName, value: string)
    requires IsFilingChoice(Get(s.formData, FilingStatus))
    requires OnEditField(s, n, value).Some?
    ensures IsFilingChoice(Get(OnEditField(s, n, value).value.formData, FilingStatus))
  {
    var t := OnEditField(s, n, value).value;
    if n == FilingStatus {
      var f :| f in Questions[s.step].fields && f.name == n &&
               (f.kind == SelectInput ==> Offers(f, value));
      TableShape();
      var j :| 0 <= j < |Questions[s.step].fields| && Questions[s.step].fields[j] == f;
      assert Placement(FilingStatus) == (s.step, j);
      var c :| c in f.choices && c.value == value;
      assert Get(t.formData, FilingStatus) == Text(c.value);
    }
  }

  /** Every transition keeps the invariant. */
  lemma StepPreservesValid(s: State, e: Event)
    requires Valid(s) && Step(s, e).Some?
    ensures Valid(Step(s, e).value)
  {
    TableShape();
    match e
    case Next =>
      if !StepFilled(s.step, s.formData) {
        var i :| FirstMissingAt(Questions[s.step].fields, s.formData, i) &&
                 Step(s, e).value.error == MissingMessage(Questions[s.step].fields[i].caption);
        FailureMessageIsValidation(s.step, s.formData, i);
      }
    case Submit =>
    case Previous =>
    case Reset =>
    case EditField(n, value) =>
      EditKeepsFilingChoice(s, n, value);
    case SelectFile(file) =>
    case UploadComplete =>
    case SubmitComplete =>
  }

  /** Every state a session reaches from a valid state is valid; in
      particular the step never leaves 0..StepCount. */
  lemma {:induction false} RunPreservesValid(s: State, events: seq<Event>)
    requires Valid(s) && Run(s, events).Some?
    ensures Valid(Run(s, events).value)
    ensures 0 <= Run(s, events).value.step <= StepCount
    decreases |events|
  {
    if |events| > 0 {
      StepPreservesValid(s, events[0]);
      RunPreservesValid(Step(s, events[0]).value, events[1..]);
    }
  }

  /** A busy state is never stuck: exactly the timer that set the flag can fire. */
  lemma LoadingResolves(s: State)
    requires Valid(s) && s.loading
    ensures Step(s, UploadComplete).Some? != Step(s, SubmitComplete).Some?
    ensures forall e :: Step(s, e).Some? ==> e == UploadComplete || e == SubmitComplete
  {
  }

  /** The results view is entered only by the calculation finishing, and the
      step otherwise moves by one, back to the start, or not at all. */
  lemma StepMoves(s: State, e: Event)
    requires Valid(s) && Step(s, e).Some?
    ensures var t := Step(s, e).value;
            t.step == s.step || t.step == s.step + 1 || t.step == s.step - 1 ||
            (t.step == 0 && e == Reset) || (t.step == StepCount && e == SubmitComplete)
    ensures var t := Step(s, e).value;
            t.step == StepCount && s.step != StepCount ==> e == SubmitComplete
  {
  }

  /** "Previous" undoes a successful "Next", apart from the cleared error. */
  lemma PreviousUndoesNext(s: State)
    requires OnNext(s).Some? && OnNext(s).value.step == s.step + 1
    ensures OnPrevious(OnNext(s).value) == Some(s.(error := ""))
  {
  }

  /** Picking an acceptable file and letting processing finish records its
      name and the outcome, clears the error, and changes nothing else. */
  lemma UploadRoundTrip(s: State, f: FileRef)
    requires Valid(s) && !s.loading && s.step == 0 && f.size <= MaxUploadBytes
    ensures OnSelectFile(s, Some(f)).Some?
    ensures OnUploadComplete(OnSelectFile(s, Some(f)).value) ==
              Some(s.(uploadedFile := Some(f.name), ocrResult := ProcessedMessage, error := ""))
  {
  }

  /** An oversized file, or none at all, leaves the session as it was. */
  lemma OversizedFileIgnored(s: State, f: FileRef)
    requires !s.loading && s.step == 0 && f.size > MaxUploadBytes
    ensures OnSelectFile(s, Some(f)) == Some(s)
    ensures OnSelectFile(s, None) == Some(s)
  {
  }

  /** Submitting a complete last step and letting the calculation finish
      shows the canned result, clears the error, and keeps everything else;
      with a field missing, no calculation starts. */
  lemma SubmitRoundTrip(s: State)
    requires Valid(s) && !s.loading && s.step == StepCount - 1
    ensures OnSubmit(s).Some?
    ensures OnSubmit(s).value.loading <==> StepFilled(s.step, s.formData)
    ensures StepFilled(s.step, s.formData) ==>
              OnSubmitComplete(OnSubmit(s).value) ==
              Some(s.(step := StepCount, result := Some(CannedResult), error := ""))
  {
  }

  /** Two sessions that differ only in what the form holds end their
      calculations with the same result. */
  lemma ResultIgnoresForm(s: State, fd: FormData)
    requires s.pending == Some(Calculate)
    ensures OnSubmitComplete(s).value.result == OnSubmitComplete(s.(formData := fd)).value.result
  {
  }

  /** Editing one field twice keeps only the second value. */
  lemma EditTwiceLastWins(s: State, n: FieldName, v: string, w: string)
    requires OnEditField(s, n, v).Some? && OnEditField(s, n, w).Some?
    ensures OnEditField(OnEditField(s, n, v).value, n, w) == OnEditField(s, n, w)
  {
    var t := OnEditField(s, n, v).value;
    assert OnEditField(t, n, w).Some?;
    var a := OnEditField(t, n, w).value.formData;
    var b := OnEditField(s, n, w).value.formData;
    Extensionality(a, b);
  }
}

/** The wizard controller as a reducer: an explicit state record, the events
    the rendered controls and the two simulated-latency timers can raise, and
    one transition function per event. */
module Wizard {
  import opened Common
  import opened Form
  import opened StepTable

  /** Largest accepted upload, in bytes (10 MiB). */
  const MaxUploadBytes: nat := 10 * 1024 * 1024

  /** What the upload timer stores as the processing outcome. */
  const ProcessedMessage: string := "Document processed successfully"

  /** The summary shown on the results view. */
  datatype TaxResult = TaxResult(
    estimatedTax: real,
    potentialSavings: real,
    localTaxRate: real,
    recommendations: seq<string>,
    aiInsights: Option<string>)

  /** The calculation timer's payload: a constant, whatever the form holds. */
  const CannedResult: TaxResult := TaxResult(
    25000.0, 5000.0, 0.25,
    [ "Consider maximizing your 401(k) contributions",
      "Look into tax-advantaged investment options",
      "Track your charitable donations more carefully",
      "Consider bunching itemized deductions",
      "Explore health savings account (HSA) options" ],
    Some("Based on your income and deductions, you might qualify for additional tax credits. "
      + "Consider speaking with a tax professional about education credits and retirement account "
      + "contributions. Your current tax efficiency score is 75%, which suggests room for optimization."))

  /** The part of a picked file the component reads. */
  datatype FileRef = FileRef(name: string, size: nat)

  /** A started timer whose body has not run yet, with what its closure captured. */
  datatype Task = ProcessUpload(fileName: string) | Calculate

  /** The component's state slots, plus the timer it is waiting for. */
  datatype State = State(
    step: int,
    loading: bool,
    error: string,
    uploadedFile: Option<string>,
    ocrResult: string,
    formData: FormData,
    result: Option<TaxResult>,
    pending: Option<Task>)

  const Initial: State := State(0, false, "", None, "", InitialFormData, None, None)

  /** User actions, and the two timer bodies firing. `Next` and `Submit` are
      the same button: it reads "Calculate" and submits on the last step.
      An edit names its field directly: an input's `name` is always the key
      of the field it renders (see `Form.ParseKey`). */
  datatype Event =
    | Next
    | Submit
    | Previous
    | Reset
    | EditField(field: FieldName, value: string)
    | SelectFile(file: Option<FileRef>)
    | UploadComplete
    | SubmitComplete

  /** The "Next" button: shown on every editing step but the last while not
      loading; it advances one step when validation passes and otherwise
      stays put with the validation message as the error. */
  function OnNext(s: State): (r: Option<State>)
    ensures r.Some? <==> !s.loading && 0 <= s.step < StepCount - 1
    ensures r.Some? ==> r.value == s.(step := r.value.step, error := r.value.error)
    ensures r.Some? ==> (r.value.step == s.step + 1 <==> StepFilled(s.step, s.formData))
    ensures r.Some? && StepFilled(s.step, s.formData) ==> r.value.error == ""
    ensures r.Some? && !StepFilled(s.step, s.formData) ==>
              r.value.step == s.step &&
              exists i :: FirstMissingAt(Questions[s.step].fields, s.formData, i) &&
                          r.value.error == MissingMessage(Questions[s.step].fields[i].caption)
  {
    if s.loading || !(0 <= s.step < StepCount - 1) then None
    else match ValidateFields(Questions[s.step].fields, s.formData)
      case Pass => Some(s.(step := s.step + 1, error := ""))
      case Fail(m) => Some(s.(error := m))
  }

  /** "Next" reports exactly the verdict of the step's validation. */
  lemma NextFollowsVerdict(s: State)
    requires !s.loading && 0 <= s.step < StepCount - 1
    ensures ValidateFields(Questions[s.step].fields, s.formData).Fail? ==>
              OnNext(s) == Some(s.(error := ValidateFields(Questions[s.step].fields, s.formData).message))
    ensures ValidateFields(Questions[s.step].fields, s.formData).Pass? ==>
              OnNext(s) == Some(s.(step := s.step + 1, error := ""))
  {
  }

  /** The "Calculate" button on the last editing step. Validation failure
      only sets the error; success clears it, sets the busy flag and starts
      the calculation timer. */
  function OnSubmit(s: State): (r: Option<State>)
    ensures r.Some? <==> !s.loading && s.step == StepCount - 1
    ensures r.Some? && StepFilled(s.step, s.formData) ==>
              r.value == s.(loading := true, error := "", pending := Some(Calculate))
    ensures r.Some? && !StepFilled(s.step, s.formData) ==>
              r.value == s.(error := r.value.error) &&
              exists i :: FirstMissingAt(Questions[s.step].fields, s.formData, i) &&
                          r.value.error == MissingMessage(Questions[s.step].fields[i].caption)
  {
    if s.loading || s.step != StepCount - 1 then None
    else match ValidateFields(Questions[s.step].fields, s.formData)
      case Pass => Some(s.(loading := true, error := "", pending := Some(Calculate)))
      case Fail(m) => Some(s.(error := m))
  }

  /** The "Previous" button: shown past the first step while not loading;
      goes back exactly one step without validating. */
  function OnPrevious(s: State): (r: Option<State>)
    ensures r.Some? <==> !s.loading && s.step > 0
    ensures r.Some? ==> r.value.step == s.step - 1 && r.value == s.(step := r.value.step)
  {
    if s.loading || s.step <= 0 then None
    else Some(s.(step := s.step - 1))
  }

  /** "Start New Calculation": shown on the results view; it only returns to
      the first step, keeping the record, the result and the upload. */
  function OnReset(s: State): (r: Option<State>)
    ensures r.Some? <==> !s.loading && s.step >= StepCount
    ensures r.Some? ==> r.value.step == 0
    ensures r.Some? ==> r.value.formData == s.formData && r.value.result == s.result &&
                        r.value.uploadedFile == s.uploadedFile && r.value.ocrResult == s.ocrResult &&
                        r.value.error == s.error && r.value.loading == s.loading &&
                        r.value.pending == s.pending
  {
    if s.loading || s.step < StepCount then None
    else Some(s.(step := 0))
  }

  /** The inputs step `k` renders can report `value` for field `n`: the step
      has an input for `n`, and a select only reports one of its options. */
  predicate Accepts(k: int, n: FieldName, value: string) {
    0 <= k < StepCount &&
    exists f :: f in Questions[k].fields && f.name == n &&
                (f.kind == SelectInput ==> Offers(f, value))
  }

  /** An input's change handler: field `n` now holds the text `value`, and
      nothing else in the state changes. */
  function OnEditField(s: State, n: FieldName, value: string): (r: Option<State>)
    ensures r.Some? <==> !s.loading && Accepts(s.step, n, value)
    ensures r.Some? ==> r.value == s.(formData := r.value.formData)
    ensures r.Some? ==> Get(r.value.formData, n) == Text(value)
    ensures r.Some? ==> forall m :: m != n ==> Get(r.value.formData, m) == Get(s.formData, m)
  {
    if s.loading || !(0 <= s.step < StepCount) then None
    else
      match FieldNamed(Questions[s.step].fields, n)
      case None => None
      case Some(f) =>
        AcceptsByLookup(s.step, n, value);
        if f.kind == SelectInput && !Offers(f, value) then None
        else Some(s.(formData := Set(s.formData, n, Text(value))))
  }

  /** `Accepts` is decided by the first field of the step with that name. */
  lemma AcceptsByLookup(k: int, n: FieldName, value: string)
    requires 0 <= k < StepCount
    requires FieldNamed(Questions[k].fields, n).Some?
    ensures var f := FieldNamed(Questions[k].fields, n).value;
            Accepts(k, n, value) <==> (f.kind == SelectInput ==> Offers(f, value))
  {
    if Accepts(k, n, value) {
      var g :| g in Questions[k].fields && g.name == n &&
               (g.kind == SelectInput ==> Offers(g, value));
      NamesUniqueInStep(k, FieldNamed(Questions[k].fields, n).value, g);
    }
  }

  /** Typing into a text or number input of the current step writes that
      field and nothing else. */
  lemma EditFieldWrites(s: State, f: FieldSpec, value: string)
    requires !s.loading && 0 <= s.step < StepCount
    requires f in Questions[s.step].fields && f.kind != SelectInput
    ensures OnEditField(s, f.name, value) ==
              Some(s.(formData := Set(s.formData, f.name, Text(value))))
  {
    var r := OnEditField(s, f.name, value);
    assert Accepts(s.step, f.name, value);
    Extensionality(r.value.formData, Set(s.formData, f.name, Text(value)));
  }

  /** The file picker, on the upload step while not loading. No file, or one
      over the size limit, leaves the state as it is; otherwise the busy flag
      is set, the error cleared and the processing timer started. */
  function OnSelectFile(s: State, file: Option<FileRef>): (r: Option<State>)
    ensures r.Some? <==> !s.loading && s.step == 0
    ensures r.Some? && (file.None? || file.value.size > MaxUploadBytes) ==> r.value == s
    ensures r.Some? && file.Some? && file.value.size <= MaxUploadBytes ==>
              r.value == s.(loading := true, error := "", pending := Some(ProcessUpload(file.value.name)))
  {
    TableShape();
    if s.loading || !(0 <= s.step < StepCount) || !Questions[s.step].hasUpload then None
    else match file
      case None => Some(s)
      case Some(f) =>
        if f.size > MaxUploadBytes then Some(s)
        else Some(s.(loading := true, error := "", pending := Some(ProcessUpload(f.name))))
  }

  /** The upload timer's body: records the processing outcome and the file
      name it captured, and clears the busy flag. */
  function OnUploadComplete(s: State): (r: Option<State>)
    ensures r.Some? <==> s.pending.Some? && s.pending.value.ProcessUpload?
    ensures r.Some? ==> r.value == s.(ocrResult := ProcessedMessage,
                                      uploadedFile := Some(s.pending.value.fileName),
                                      loading := false, pending := None)
  {
    match s.pending
    case Some(ProcessUpload(fileName)) =>
      Some(s.(ocrResult := ProcessedMessage, uploadedFile := Some(fileName),
              loading := false, pending := None))
    case _ => None
  }

  /** The calculation timer's body: stores the canned result, clears the
      busy flag and shows the results view. The result does not depend on
      the record. */
  function OnSubmitComplete(s: State): (r: Option<State>)
    ensures r.Some? <==> s.pending == Some(Calculate)
    ensures r.Some? ==> r.value.result == Some(CannedResult) && r.value.step == StepCount
    ensures r.Some? ==> r.value == s.(result := Some(CannedResult), step := StepCount,
                                      loading := false, pending := None)
  {
    if s.pending == Some(Calculate) then
      Some(s.(result := Some(CannedResult), loading := false, step := StepCount, pending := None))
    else None
  }

  /** The reducer. `None` means the event cannot happen in `s`: its control
      is not rendered, or no timer of that kind is running. While loading,
      nothing but the spinner is rendered, so only a timer can fire. */
  function Step(s: State, e: Event): (r: Option<State>)
    ensures s.loading && r.Some? ==> e.UploadComplete? || e.SubmitComplete?
    ensures r.Some? && r.value.formData != s.formData ==> e.EditField?
    ensures r.Some? && r.value.result != s.result ==> e.SubmitComplete?
  {
    match e
    case Next => OnNext(s)
    case Submit => OnSubmit(s)
    case Previous => OnPrevious(s)
    case Reset => OnReset(s)
    case EditField(n, value) => OnEditField(s, n, value)
    case SelectFile(file) => OnSelectFile(s, file)
    case UploadComplete => OnUploadComplete(s)
    case SubmitComplete => OnSubmitComplete(s)
  }

  /** A session: the events in order, or `None` if one of them could not
      have happened at its point. */
  function Run(s: State, events: seq<Event>): Option<State>
    decreases |events|
  {
    if |events| == 0 then Some(s)
    else match Step(s, events[0])
      case None => None
      case Some(t) => Run(t, events[1..])
  }

  /** A session that starts with `e` continues from the state `e` leads to. */
  lemma RunCons(s: State, e: Event, rest: seq<Event>, t: State)
    requires Step(s, e) == Some(t)
    ensures Run(s, [e] + rest) == Run(t, rest)
  {
    assert ([e] + rest)[0] == e;
    assert ([e] + rest)[1..] == rest;
  }

  /** A session that starts with an edit the current step accepts continues
      from the state that edit leads to. */
  lemma RunEdit(s: State, n: FieldName, value: string, rest: seq<Event>, t: State)
    requires OnEditField(s, n, value) == Some(t)
    ensures Run(s, [EditField(n, value)] + rest) == Run(t, rest)
  {
    RunCons(s, EditField(n, value), rest, t);
  }

  /** A session split in two runs the second part from where the first ended. */
  lemma {:induction false} RunAppend(s: State, first: seq<Event>, second: seq<Event>)
    requires Run(s, first).Some?
    ensures Run(s, first + second) == Run(Run(s, first).value, second)
    decreases |first|
  {
    if |first| == 0 {
      assert first + second == second;
    } else {
      assert (first + second)[0] == first[0];
      assert (first + second)[1..] == first[1..] + second;
      RunAppend(Step(s, first[0]).value, first[1..], second);
    }
  }
}

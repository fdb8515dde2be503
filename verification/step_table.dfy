/** The wizard's fixed configuration (four steps, each with its fields) and
    the per-step validation of required fields. */
module StepTable {
  import opened Common
  import opened Form

  datatype InputKind = TextInput | NumberInput | SelectInput

  /** One `<option>` of a select: the value it stores and the text it shows. */
  datatype Choice = Choice(value: string, caption: string)

  /** One field specification. `choices` is empty unless the input is a select. */
  datatype FieldSpec = FieldSpec(
    name: FieldName, caption: string, kind: InputKind, required: bool, choices: seq<Choice>)

  /** One page of the wizard. Only the first page carries the upload panel,
      and it shows that panel instead of a field list. */
  datatype Question = Question(
    title: string, description: string, fields: seq<FieldSpec>, hasUpload: bool)

  const FilingStatusChoices: seq<Choice> := [
    Choice("single", "Single"),
    Choice("married_joint", "Married Filing Jointly"),
    Choice("married_separate", "Married Filing Separately"),
    Choice("head_household", "Head of Household")
  ]

  const Questions: seq<Question> := [
    Question("Document Upload",
      "Upload your tax documents for automatic processing (optional)",
      [], true),
    Question("Basic Information",
      "Let's start with your basic tax information",
      [ FieldSpec(ZipCode, "ZIP Code", TextInput, true, []),
        FieldSpec(AnnualIncome, "Annual Income ($)", NumberInput, true, []),
        FieldSpec(FilingStatus, "Filing Status", SelectInput, true, FilingStatusChoices),
        FieldSpec(Dependents, "Number of Dependents", NumberInput, true, []) ],
      false),
    Question("Deductions & Expenses",
      "Tell us about your deductible expenses",
      [ FieldSpec(MortgageInterest, "Mortgage Interest ($)", NumberInput, false, []),
        FieldSpec(PropertyTax, "Property Tax ($)", NumberInput, false, []),
        FieldSpec(CharitableDonations, "Charitable Donations ($)", NumberInput, false, []),
        FieldSpec(MedicalExpenses, "Medical Expenses ($)", NumberInput, false, []) ],
      false),
    Question("Additional Income & Contributions",
      "Let's review your other income sources and contributions",
      [ FieldSpec(RetirementContributions, "Retirement Contributions ($)", NumberInput, false, []),
        FieldSpec(StudentLoanInterest, "Student Loan Interest ($)", NumberInput, false, []),
        FieldSpec(SelfEmployedExpenses, "Self-employed Expenses ($)", NumberInput, false, []),
        FieldSpec(InvestmentIncome, "Investment Income ($)", NumberInput, false, []),
        FieldSpec(OtherIncome, "Other Income ($)", NumberInput, false, []) ],
      false)
  ]

  /** Number of editable steps; step `StepCount` is the results view. */
  const StepCount: int := |Questions|

  /** Whether `value` is the value of one of `choices`. */
  predicate IsChoiceOf(choices: seq<Choice>, value: string) {
    exists c :: c in choices && c.value == value
  }

  /** The filing statuses a select can store. */
  predicate IsFilingChoice(v: Value) {
    v.Text? && IsChoiceOf(FilingStatusChoices, v.text)
  }

  /** Shape of the table: four steps, the upload panel on the first only,
      every field of the record appearing on exactly one step, and only the
      "Basic Information" fields required. */
  lemma TableShape()
    ensures StepCount == 4
    ensures forall k :: 0 <= k < StepCount ==> (Questions[k].hasUpload <==> k == 0)
    ensures Questions[0].fields == []
    ensures forall k, j :: 0 <= k < StepCount && 0 <= j < |Questions[k].fields| ==>
              (Questions[k].fields[j].required <==> k == 1)
    ensures forall k, j :: 0 <= k < StepCount && 0 <= j < |Questions[k].fields| ==>
              Placement(Questions[k].fields[j].name) == (k, j)
  {
    PlacementMatchesTable();
  }

  lemma PlacementMatchesTable()
    ensures forall k, j :: 0 <= k < StepCount && 0 <= j < |Questions[k].fields| ==>
              Placement(Questions[k].fields[j].name) == (k, j)
  {
  }

  /** Where each field of the record sits in the table: every field has a
      place (and, by `TableShape`, only one). */
  function Placement(n: FieldName): (kj: (int, int))
    ensures 0 <= kj.0 < StepCount && 0 <= kj.1 < |Questions[kj.0].fields|
    ensures Questions[kj.0].fields[kj.1].name == n
  {
    match n
    case ZipCode => (1, 0)
    case AnnualIncome => (1, 1)
    case FilingStatus => (1, 2)
    case Dependents => (1, 3)
    case MortgageInterest => (2, 0)
    case PropertyTax => (2, 1)
    case CharitableDonations => (2, 2)
    case MedicalExpenses => (2, 3)
    case RetirementContributions => (3, 0)
    case StudentLoanInterest => (3, 1)
    case SelfEmployedExpenses => (3, 2)
    case InvestmentIncome => (3, 3)
    case OtherIncome => (3, 4)
  }

  /** A field blocks its step when it is required and its value is falsy. */
  predicate Missing(f: FieldSpec, fd: FormData) {
    f.required && Falsy(Get(fd, f.name))
  }

  /** Position `i` holds the first blocking field of `fields`. */
  predicate FirstMissingAt(fields: seq<FieldSpec>, fd: FormData, i: int) {
    && 0 <= i < |fields|
    && Missing(fields[i], fd)
    && forall j :: 0 <= j < i ==> !Missing(fields[j], fd)
  }

  /** The scan of the validation loop: the first blocking field in declared
      order, or none when every required field is filled. */
  function FirstMissing(fields: seq<FieldSpec>, fd: FormData): (r: Option<nat>)
    ensures r.Some? ==> FirstMissingAt(fields, fd, r.value)
    ensures r.None? <==> forall j :: 0 <= j < |fields| ==> !Missing(fields[j], fd)
  {
    if |fields| == 0 then None
    else if Missing(fields[0], fd) then Some(0)
    else match FirstMissing(fields[1..], fd)
      case None => None
      case Some(i) => Some(i + 1)
  }

  function MissingMessage(caption: string): string {
    "Please fill in " + caption
  }

  datatype Verdict = Pass | Fail(message: string)

  /** Validation of one step: it fails exactly when some required field is
      falsy, naming the first such field in declared order. */
  function ValidateFields(fields: seq<FieldSpec>, fd: FormData): (v: Verdict)
    ensures v.Pass? <==> forall j :: 0 <= j < |fields| ==> !Missing(fields[j], fd)
    ensures v.Fail? ==> exists i :: FirstMissingAt(fields, fd, i) &&
                                    v.message == MissingMessage(fields[i].caption)
  {
    match FirstMissing(fields, fd)
    case None => Pass
    case Some(i) => Fail(MissingMessage(fields[i].caption))
  }

  /** The first blocking field is unique, so the message is determined by the
      record. */
  lemma FirstMissingUnique(fields: seq<FieldSpec>, fd: FormData, i: int, k: int)
    requires FirstMissingAt(fields, fd, i) && FirstMissingAt(fields, fd, k)
    ensures i == k
  {
  }

  /** The message names the first blocking field, whichever it is. */
  lemma ValidationNamesFirstMissing(fields: seq<FieldSpec>, fd: FormData, i: int)
    requires FirstMissingAt(fields, fd, i)
    ensures ValidateFields(fields, fd) == Fail(MissingMessage(fields[i].caption))
  {
    var r := FirstMissing(fields, fd);
    assert r.Some?;
    FirstMissingUnique(fields, fd, r.value, i);
  }

  /** Only "Basic Information" can fail: every other step validates whatever
      the record holds. */
  lemma OnlyBasicInformationCanFail(k: int, fd: FormData)
    requires 0 <= k < StepCount && k != 1
    ensures ValidateFields(Questions[k].fields, fd) == Pass
  {
  }

  /** A filing status picked from the select is never falsy, so once the
      other three basic fields are filled that step passes. */
  lemma FilingStatusNeverBlocks(fd: FormData)
    requires IsFilingChoice(Get(fd, FilingStatus))
    requires !Falsy(Get(fd, ZipCode)) && !Falsy(Get(fd, AnnualIncome)) && !Falsy(Get(fd, Dependents))
    ensures ValidateFields(Questions[1].fields, fd) == Pass
  {
  }

  /** Every required field of step `k` is filled. */
  predicate StepFilled(k: int, fd: FormData) {
    0 <= k < StepCount &&
    forall j :: 0 <= j < |Questions[k].fields| ==> !Missing(Questions[k].fields[j], fd)
  }

  /** The messages validation can produce: one per required field. */
  predicate IsValidationMessage(e: string) {
    exists k, j :: 0 <= k < StepCount && 0 <= j < |Questions[k].fields| &&
      Questions[k].fields[j].required && e == MissingMessage(Questions[k].fields[j].caption)
  }

  /** The first field of `fields` called `n`, if any. */
  function FieldNamed(fields: seq<FieldSpec>, n: FieldName): (r: Option<FieldSpec>)
    ensures r.Some? ==> r.value in fields && r.value.name == n
    ensures r.None? ==> forall f :: f in fields ==> f.name != n
  {
    if |fields| == 0 then None
    else if fields[0].name == n then Some(fields[0])
    else FieldNamed(fields[1..], n)
  }

  /** Whether a select field offers `value` among its options. */
  predicate Offers(f: FieldSpec, value: string) {
    IsChoiceOf(f.choices, value)
  }

  /** Within one step, a name identifies a single field. */
  lemma NamesUniqueInStep(k: int, f: FieldSpec, g: FieldSpec)
    requires 0 <= k < StepCount
    requires f in Questions[k].fields && g in Questions[k].fields && f.name == g.name
    ensures f == g
  {
    TableShape();
    var i :| 0 <= i < |Questions[k].fields| && Questions[k].fields[i] == f;
    var j :| 0 <= j < |Questions[k].fields| && Questions[k].fields[j] == g;
    assert Placement(f.name) == (k, i) && Placement(g.name) == (k, j);
  }
}

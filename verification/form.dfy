/** The wizard's input record: thirteen named fields, each holding what the
    form put there. */
module Form {
  import opened Common

  /** A field value as the component holds it: the text an input or select
      reported, or the number the record was initialised with. Inputs always
      report text, so a numeric field turns into text on its first edit. */
  datatype Value = Text(text: string) | Num(number: int)

  /** JavaScript falsiness on the values a field can hold: the empty string
      and the number zero. A text such as "0" is not falsy. */
  predicate Falsy(v: Value) {
    v == Text("") || v == Num(0)
  }

  datatype FieldName =
    | ZipCode | AnnualIncome | FilingStatus | Dependents
    | MortgageInterest | PropertyTax | CharitableDonations | MedicalExpenses
    | RetirementContributions | StudentLoanInterest | SelfEmployedExpenses
    | InvestmentIncome | OtherIncome

  /** Every field is always present; none is ever undefined. */
  datatype FormData = FormData(
    zipCode: Value,
    annualIncome: Value,
    filingStatus: Value,
    dependents: Value,
    mortgageInterest: Value,
    propertyTax: Value,
    charitableDonations: Value,
    medicalExpenses: Value,
    retirementContributions: Value,
    studentLoanInterest: Value,
    selfEmployedExpenses: Value,
    investmentIncome: Value,
    otherIncome: Value)

  /** The record a fresh session starts with: empty texts, filing status
      "single" and zero dependents. */
  const InitialFormData: FormData := FormData(
    Text(""), Text(""), Text("single"), Num(0),
    Text(""), Text(""), Text(""), Text(""),
    Text(""), Text(""), Text(""), Text(""), Text(""))

  /** The property key of a field, which is also the `name` of its input. */
  function Key(n: FieldName): string {
    match n
    case ZipCode => "zip_code"
    case AnnualIncome => "annual_income"
    case FilingStatus => "filing_status"
    case Dependents => "dependents"
    case MortgageInterest => "mortgage_interest"
    case PropertyTax => "property_tax"
    case CharitableDonations => "charitable_donations"
    case MedicalExpenses => "medical_expenses"
    case RetirementContributions => "retirement_contributions"
    case StudentLoanInterest => "student_loan_interest"
    case SelfEmployedExpenses => "self_employed_expenses"
    case InvestmentIncome => "investment_income"
    case OtherIncome => "other_income"
  }

  /** Resolves an input's `name` to the field it addresses, if any. */
  function ParseKey(k: string): (r: Option<FieldName>)
    ensures r.Some? ==> Key(r.value) == k
    ensures r.None? ==> forall n :: Key(n) != k
  {
    if k == "zip_code" then Some(ZipCode)
    else if k == "annual_income" then Some(AnnualIncome)
    else if k == "filing_status" then Some(FilingStatus)
    else if k == "dependents" then Some(Dependents)
    else if k == "mortgage_interest" then Some(MortgageInterest)
    else if k == "property_tax" then Some(PropertyTax)
    else if k == "charitable_donations" then Some(CharitableDonations)
    else if k == "medical_expenses" then Some(MedicalExpenses)
    else if k == "retirement_contributions" then Some(RetirementContributions)
    else if k == "student_loan_interest" then Some(StudentLoanInterest)
    else if k == "self_employed_expenses" then Some(SelfEmployedExpenses)
    else if k == "investment_income" then Some(InvestmentIncome)
    else if k == "other_income" then Some(OtherIncome)
    else None
  }

  /** Distinct fields have distinct keys, so parsing a key gives back the
      field it came from. */
  lemma KeyRoundTrip(n: FieldName)
    ensures ParseKey(Key(n)) == Some(n)
  {
  }

  /** No two fields share a key. */
  lemma KeyInjective(m: FieldName, n: FieldName)
    requires Key(m) == Key(n)
    ensures m == n
  {
    KeyRoundTrip(m);
    KeyRoundTrip(n);
  }

  /** `formData[name]`. */
  function Get(fd: FormData, n: FieldName): Value {
    match n
    case ZipCode => fd.zipCode
    case AnnualIncome => fd.annualIncome
    case FilingStatus => fd.filingStatus
    case Dependents => fd.dependents
    case MortgageInterest => fd.mortgageInterest
    case PropertyTax => fd.propertyTax
    case CharitableDonations => fd.charitableDonations
    case MedicalExpenses => fd.medicalExpenses
    case RetirementContributions => fd.retirementContributions
    case StudentLoanInterest => fd.studentLoanInterest
    case SelfEmployedExpenses => fd.selfEmployedExpenses
    case InvestmentIncome => fd.investmentIncome
    case OtherIncome => fd.otherIncome
  }

  /** `{ ...fd, [name]: v }`: the named field reads back as `v` and every
      other field keeps its value. */
  function Set(fd: FormData, n: FieldName, v: Value): (r: FormData)
    ensures Get(r, n) == v
    ensures forall m :: m != n ==> Get(r, m) == Get(fd, m)
  {
    match n
    case ZipCode => fd.(zipCode := v)
    case AnnualIncome => fd.(annualIncome := v)
    case FilingStatus => fd.(filingStatus := v)
    case Dependents => fd.(dependents := v)
    case MortgageInterest => fd.(mortgageInterest := v)
    case PropertyTax => fd.(propertyTax := v)
    case CharitableDonations => fd.(charitableDonations := v)
    case MedicalExpenses => fd.(medicalExpenses := v)
    case RetirementContributions => fd.(retirementContributions := v)
    case StudentLoanInterest => fd.(studentLoanInterest := v)
    case SelfEmployedExpenses => fd.(selfEmployedExpenses := v)
    case InvestmentIncome => fd.(investmentIncome := v)
    case OtherIncome => fd.(otherIncome := v)
  }

  /** Two records that agree on every field are the same record. */
  lemma Extensionality(a: FormData, b: FormData)
    requires forall n :: Get(a, n) == Get(b, n)
    ensures a == b
  {
    assert Get(a, ZipCode) == Get(b, ZipCode);
    assert Get(a, AnnualIncome) == Get(b, AnnualIncome);
    assert Get(a, FilingStatus) == Get(b, FilingStatus);
    assert Get(a, Dependents) == Get(b, Dependents);
    assert Get(a, MortgageInterest) == Get(b, MortgageInterest);
    assert Get(a, PropertyTax) == Get(b, PropertyTax);
    assert Get(a, CharitableDonations) == Get(b, CharitableDonations);
    assert Get(a, MedicalExpenses) == Get(b, MedicalExpenses);
    assert Get(a, RetirementContributions) == Get(b, RetirementContributions);
    assert Get(a, StudentLoanInterest) == Get(b, StudentLoanInterest);
    assert Get(a, SelfEmployedExpenses) == Get(b, SelfEmployedExpenses);
    assert Get(a, InvestmentIncome) == Get(b, InvestmentIncome);
    assert Get(a, OtherIncome) == Get(b, OtherIncome);
  }

  /** Writing a field twice keeps only the second write. */
  lemma SetSetLastWins(fd: FormData, n: FieldName, v: Value, w: Value)
    ensures Set(Set(fd, n, v), n, w) == Set(fd, n, w)
  {
    Extensionality(Set(Set(fd, n, v), n, w), Set(fd, n, w));
  }

  /** Writing back the value a field already holds changes nothing. */
  lemma SetOwnValue(fd: FormData, n: FieldName)
    ensures Set(fd, n, Get(fd, n)) == fd
  {
    Extensionality(Set(fd, n, Get(fd, n)), fd);
  }

  /** Writes to different fields commute. */
  lemma SetCommutes(fd: FormData, n: FieldName, v: Value, m: FieldName, w: Value)
    requires n != m
    ensures Set(Set(fd, n, v), m, w) == Set(Set(fd, m, w), n, v)
  {
    Extensionality(Set(Set(fd, n, v), m, w), Set(Set(fd, m, w), n, v));
  }
}

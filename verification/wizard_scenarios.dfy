/** Concrete sessions: walkthroughs of the wizard, replayed on the reducer
    from the initial state. */
module WizardScenarios {
  import opened Common
  import opened Form
  import opened StepTable
  import opened Wizard
  import TaxBrackets

  /** "Next" on the upload step needs nothing filled in. */
  lemma FirstNextAdvances()
    ensures OnNext(Initial) == Some(Initial.(step := 1))
  {
  }

  /** On "Basic Information", an empty ZIP code is always the field named,
      being the first required one. */
  lemma EmptyZipIsNamed(s: State)
    requires !s.loading && s.step == 1 && Falsy(Get(s.formData, ZipCode))
    ensures OnNext(s) == Some(s.(error := "Please fill in ZIP Code"))
  {
    var fields := Questions[1].fields;
    assert ValidateFields(fields, s.formData) == Fail("Please fill in ZIP Code") by {
      assert FirstMissingAt(fields, s.formData, 0);
      ValidationNamesFirstMissing(fields, s.formData, 0);
      assert MissingMessage(fields[0].caption) == "Please fill in ZIP Code";
    }
    NextFollowsVerdict(s);
  }

  /** With the initial record, "Next" on "Basic Information" stays put and
      names the ZIP code. */
  lemma InitialBasicInformationBlocksOnZip()
    ensures OnNext(Initial.(step := 1)) ==
              Some(Initial.(step := 1, error := "Please fill in ZIP Code"))
  {
    EmptyZipIsNamed(Initial.(step := 1));
  }

  /** With the ZIP code filled, an empty income is the field named. */
  lemma EmptyIncomeIsNamed(s: State)
    requires !s.loading && s.step == 1
    requires !Falsy(Get(s.formData, ZipCode)) && Falsy(Get(s.formData, AnnualIncome))
    ensures OnNext(s) == Some(s.(error := "Please fill in Annual Income ($)"))
  {
    var fields := Questions[1].fields;
    assert ValidateFields(fields, s.formData) == Fail("Please fill in Annual Income ($)") by {
      assert FirstMissingAt(fields, s.formData, 1);
      ValidationNamesFirstMissing(fields, s.formData, 1);
      assert MissingMessage(fields[1].caption) == "Please fill in Annual Income ($)";
    }
    NextFollowsVerdict(s);
  }

  /** The initial zero dependents counts as empty: once the ZIP code, the
      income and the filing status are filled, a dependents field still
      holding the initial number 0 is the one named. */
  lemma ZeroDependentsIsEmpty(s: State)
    requires !s.loading && s.step == 1
    requires !Falsy(Get(s.formData, ZipCode)) && !Falsy(Get(s.formData, AnnualIncome))
    requires !Falsy(Get(s.formData, FilingStatus))
    requires Get(s.formData, Dependents) == Num(0)
    ensures OnNext(s) == Some(s.(error := "Please fill in Number of Dependents"))
  {
    DependentsVerdict(s.formData);
    NextFollowsVerdict(s);
  }

  lemma DependentsVerdict(fd: FormData)
    requires !Falsy(Get(fd, ZipCode)) && !Falsy(Get(fd, AnnualIncome)) && !Falsy(Get(fd, FilingStatus))
    requires Get(fd, Dependents) == Num(0)
    ensures ValidateFields(Questions[1].fields, fd) == Fail("Please fill in Number of Dependents")
  {
    DependentsFirstMissing(fd);
    ValidationNamesFirstMissing(Questions[1].fields, fd, 3);
    DependentsMessage();
  }

  lemma DependentsMessage()
    ensures MissingMessage(Questions[1].fields[3].caption) == "Please fill in Number of Dependents"
  {
  }

  lemma DependentsFirstMissing(fd: FormData)
    requires !Falsy(Get(fd, ZipCode)) && !Falsy(Get(fd, AnnualIncome)) && !Falsy(Get(fd, FilingStatus))
    requires Get(fd, Dependents) == Num(0)
    ensures FirstMissingAt(Questions[1].fields, fd, 3)
  {
  }

  /** Typing "0" into the dependents input fills it: the text "0" is not
      falsy, unlike the number it replaces. */
  lemma TypedZeroIsFilled(s: State)
    requires !s.loading && s.step == 1
    requires !Falsy(Get(s.formData, ZipCode)) && !Falsy(Get(s.formData, AnnualIncome))
    requires IsFilingChoice(Get(s.formData, FilingStatus))
    ensures var t := s.(formData := Set(s.formData, Dependents, Text("0")));
            OnNext(t) == Some(t.(step := 2, error := ""))
  {
    var t := s.(formData := Set(s.formData, Dependents, Text("0")));
    FilingStatusNeverBlocks(t.formData);
    NextFollowsVerdict(t);
  }

  /** The record after the user fills the three required text fields. */
  function FilledBasics(fd: FormData, zip: string, income: string, dependents: string): FormData {
    Set(Set(Set(fd, ZipCode, Text(zip)), AnnualIncome, Text(income)), Dependents, Text(dependents))
  }

  /** Typing the ZIP code, the income and the number of dependents. */
  function FillBasics(zip: string, income: string, dependents: string): seq<Event> {
    [EditField(ZipCode, zip), EditField(AnnualIncome, income), EditField(Dependents, dependents)]
  }

  /** Next through the optional steps, then Calculate and its timer. */
  const FinishWizard: seq<Event> := [Next, Next, Submit, SubmitComplete]

  /** Filling in "Basic Information" writes the three fields and nothing else. */
  lemma FillBasicsRun(s: State, zip: string, income: string, dependents: string)
    requires !s.loading && s.step == 1
    ensures Run(s, FillBasics(zip, income, dependents)) ==
              Some(s.(formData := FilledBasics(s.formData, zip, income, dependents)))
  {
    var s2 := s.(formData := Set(s.formData, ZipCode, Text(zip)));
    var s3 := s.(formData := Set(s2.formData, AnnualIncome, Text(income)));
    var s4 := s.(formData := FilledBasics(s.formData, zip, income, dependents));
    var rest := [EditField(Dependents, dependents)];
    assert FillBasics(zip, income, dependents) == [EditField(ZipCode, zip)] + ([EditField(AnnualIncome, income)] + rest);
    assert OnEditField(s, ZipCode, zip) == Some(s2) by {
      EditFieldWrites(s, Questions[1].fields[0], zip);
    }
    RunEdit(s, ZipCode, zip, [EditField(AnnualIncome, income)] + rest, s2);
    assert OnEditField(s2, AnnualIncome, income) == Some(s3) by {
      EditFieldWrites(s2, Questions[1].fields[1], income);
    }
    RunEdit(s2, AnnualIncome, income, rest, s3);
    assert OnEditField(s3, Dependents, dependents) == Some(s4) by {
      EditFieldWrites(s3, Questions[1].fields[3], dependents);
    }
    RunEdit(s3, Dependents, dependents, [], s4);
    assert rest + [] == rest;
  }

  /** From a complete "Basic Information": through the optional steps, then
      the calculation, to the results view. */
  lemma FinishWizardRun(s: State)
    requires !s.loading && s.step == 1 && s.pending.None? && StepFilled(1, s.formData)
    ensures Run(s, FinishWizard) ==
              Some(s.(step := StepCount, result := Some(CannedResult), error := ""))
  {
    var s5 := s.(step := 2, error := "");
    var s6 := s.(step := 3, error := "");
    var s7 := s6.(loading := true, pending := Some(Calculate));
    var s8 := s.(step := 4, result := Some(CannedResult), error := "");
    var e := FinishWizard;
    assert Run(s7, e[3..]) == Some(s8) by {
      CalculationFinishes(s7);
      assert |e[3..][1..]| == 0;
    }
    assert Run(s6, e[2..]) == Some(s8) by {
      assert Step(s6, e[2]) == Some(s7);
      assert e[2..][1..] == e[3..];
    }
    assert Run(s5, e[1..]) == Some(s8) by {
      NextOnFilled(s5);
      assert e[1..][1..] == e[2..];
    }
    NextOnFilled(s);
  }

  /** The calculation timer, fired while nothing but the calculation is pending. */
  lemma CalculationFinishes(s: State)
    requires s.pending == Some(Calculate)
    ensures Step(s, SubmitComplete) ==
              Some(s.(step := StepCount, result := Some(CannedResult), loading := false, pending := None))
  {
  }

  /** Next on a filled step before the last one advances and clears the error. */
  lemma NextOnFilled(s: State)
    requires !s.loading && 0 <= s.step < StepCount - 1
    requires StepFilled(s.step, s.formData) || s.step != 1
    ensures Step(s, Next) == Some(s.(step := s.step + 1, error := ""))
  {
    if s.step != 1 {
      OnlyBasicInformationCanFail(s.step, s.formData);
    }
    NextFollowsVerdict(s);
  }

  /** Any non-empty texts, "0" included, fill the three blank required fields. */
  lemma FilledBasicsComplete(zip: string, income: string, dependents: string)
    requires zip != "" && income != "" && dependents != ""
    ensures StepFilled(1, FilledBasics(InitialFormData, zip, income, dependents))
  {
  }

  /** Next off the upload step, then filling in "Basic Information". */
  lemma StartAndFill(s: State, zip: string, income: string, dependents: string)
    requires !s.loading && s.step == 0
    ensures Run(s, [Next] + FillBasics(zip, income, dependents)) ==
              Some(s.(step := 1, error := "", formData := FilledBasics(s.formData, zip, income, dependents)))
  {
    var s1 := s.(step := 1, error := "");
    assert Run(s, [Next]) == Some(s1) by {
      NextOnFilled(s);
    }
    FillBasicsRun(s1, zip, income, dependents);
    RunAppend(s, [Next], FillBasics(zip, income, dependents));
  }

  /** The whole walkthrough: Next, fill the required fields, Next through the
      optional steps, calculate; it ends on the results view with the canned
      result, and "Start New Calculation" then returns to the first step. */
  lemma HappyPath(zip: string, income: string, dependents: string)
    requires zip != "" && income != "" && dependents != ""
    ensures var t := Run(Initial, [Next] + FillBasics(zip, income, dependents) + FinishWizard);
            t.Some? && t.value.step == StepCount && t.value.result == Some(CannedResult) &&
            !t.value.loading && t.value.error == "" &&
            Step(t.value, Reset).Some? && Step(t.value, Reset).value.step == 0
  {
    var s1 := Initial.(step := 1);
    var fill := FillBasics(zip, income, dependents);
    var s4 := s1.(formData := FilledBasics(InitialFormData, zip, income, dependents));
    var t := s4.(step := StepCount, result := Some(CannedResult), error := "");
    assert Run(Initial, [Next] + fill) == Some(s4) by {
      StartAndFill(Initial, zip, income, dependents);
    }
    assert Run(s4, FinishWizard) == Some(t) by {
      FilledBasicsComplete(zip, income, dependents);
      FinishWizardRun(s4);
    }
    assert Run(Initial, [Next] + fill + FinishWizard) == Some(t) by {
      RunAppend(Initial, [Next] + fill, FinishWizard);
    }
    ResetFromResults(t);
  }

  /** "Start New Calculation" on the results view goes back to the first step. */
  lemma ResetFromResults(s: State)
    requires !s.loading && s.step == StepCount
    ensures Step(s, Reset) == Some(s.(step := 0))
  {
  }

  /** An 11 MiB file is turned away and nothing is recorded; a 1 MiB file is
      recorded under its name once processing finishes. */
  lemma UploadLimit(name: string)
    ensures Run(Initial, [SelectFile(Some(FileRef(name, 11 * 1024 * 1024)))]) == Some(Initial)
    ensures var t := Run(Initial, [SelectFile(Some(FileRef(name, 1024 * 1024))), UploadComplete]);
            t.Some? && t.value.uploadedFile == Some(name) && t.value.ocrResult == ProcessedMessage &&
            !t.value.loading
  {
    var events := [SelectFile(Some(FileRef(name, 1024 * 1024))), UploadComplete];
    var s1 := Initial.(loading := true, pending := Some(ProcessUpload(name)));
    var s2 := Initial.(uploadedFile := Some(name), ocrResult := ProcessedMessage);
    assert Step(s1, events[1]) == Some(s2);
    assert Run(s1, events[1..]) == Some(s2);
    assert Step(Initial, events[0]) == Some(s1);
  }

  /** The results view shows the canned estimate in the "10%" bracket. */
  lemma CannedResultBracket()
    ensures TaxBrackets.CalculateTaxBracket(TaxBrackets.Finite(CannedResult.estimatedTax)) == "10%"
  {
  }
}

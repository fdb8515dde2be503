# Tax Return Optimizer: a Dafny model of the wizard and the bracket lookup

The Tax Return Optimizer is a client-side form wizard. It has four steps:

1. an optional document upload;
2. basic information (ZIP code, annual income, filing status, number of dependents);
3. deductions;
4. further income.

A simulated calculation then shows a fixed tax summary. The summary's only
derived value is a tax-bracket label looked up from a threshold table.

This project models two things:

- **The bracket lookup** (`TaxBrackets`, `tax_brackets.dfy`). `calculateTaxBracket`
  is written over a JavaScript number. The number is an exact real or one of
  NaN, +∞ and −∞, and the lookup uses the JavaScript `<` comparison.
- **The wizard controller** (`Form`, `StepTable`, `Wizard`). This logic lives
  inside the React component. Here it is written as a pure reducer
  `Step(state, event) -> Option<state>` over an explicit state record:
  - `State` holds the seven React state slots and the timer the component is
    waiting on.
  - `Questions` is the fixed step table.
  - `Event` has one constructor per rendered control and one per timer body.

  `Step` returns `None` when the event cannot occur in that state, because its
  control is not rendered or no timer of that kind is running. While `loading`
  is set, the component renders only a spinner, so only a timer can fire.

`WizardProperties` states:

- the invariant every transition keeps (`Valid`);
- how transitions compose and undo each other.

`WizardScenarios` replays walkthroughs from the initial state.

Modelling choices:

- A field value is `Text(string)` or `Num(int)`. The record starts with the
  number `0` for dependents. Every input reports text, so a field holds text
  after its first edit.
- "Empty" is JavaScript falsiness on those values: `Text("")` or `Num(0)`. So
  the initial dependents value is empty, but a typed `"0"` is not.
- An `EditField` event names its field directly. An input's `name` attribute is
  always the key of the field it renders. `Form.Key` and `Form.ParseKey` model
  that key mapping.
- The two `setTimeout` bodies are the events `UploadComplete` and
  `SubmitComplete`. The captured file name travels in `State.pending`.

In these places the model follows the code, which a reader might expect to behave otherwise:

- **Start New Calculation** only sets the step back to 0. It keeps the form
  record, the result, the uploaded file, the processing message and the error.
  It does not clear the result.
- **Editing a field** does not clear a validation error. Only a later
  successful validation does.
- **An oversized file** raises only a notification. The component state,
  including `error`, is unchanged.
- **The bracket of NaN** is `"35%"` (every `<` against NaN is false). The
  bracket of +∞ is `"35%"` and that of −∞ is `"0%"`.
- **The results view** also shows **Previous**, which returns to the last
  editing step with the result kept.
- **The file picker** exists only on the upload step, because only that step
  renders the upload panel.

## Model

| member | source | states |
|---|---|---|
| `TaxBrackets.CalculateTaxBracket` | src/utils/taxCalculations.ts:1-7 | the label is one of the five; for a finite amount, each label holds exactly on its half-open range with inclusive lower bound; NaN and +∞ give "35%", −∞ gives "0%" |
| `TaxBrackets.LabelsDistinct` | src/utils/taxCalculations.ts:2-6 | the five labels are pairwise distinct, so an amount maps to exactly one bracket |
| `TaxBrackets.BracketIsThresholdCount` | src/utils/taxCalculations.ts:2-6 | reference definition: the label of a finite amount is `Labels[k]`, where k is the number of thresholds at or below the amount |
| `TaxBrackets.BracketMonotone` | src/utils/taxCalculations.ts:2-6 | a larger amount never gets a lower-ranked label |
| `TaxBrackets.BoundariesInclusive` | src/utils/taxCalculations.ts:2-6 | each of 10000, 50000, 100000 and 200000 opens the next bracket; the amount one below stays in the bracket beneath |
| `Form.ParseKey` | src/components/TaxOptimizer.tsx:11-25 | a property key resolves to the field it names, and only a real key resolves |
| `Form.KeyRoundTrip` | src/components/TaxOptimizer.tsx:11-25 | parsing a field's key gives back that field |
| `Form.Set` | src/components/TaxOptimizer.tsx:73-76 | after the spread update, the named field reads back the new value and every other field keeps its value |
| `Form.SetSetLastWins` | src/components/TaxOptimizer.tsx:73-76 | writing a field twice keeps only the second write |
| `Form.SetOwnValue` | src/components/TaxOptimizer.tsx:73-76 | writing back a field's current value leaves the record unchanged |
| `Form.SetCommutes` | src/components/TaxOptimizer.tsx:73-76 | writes to different fields commute |
| `StepTable.TableShape` | src/components/TaxOptimizer.tsx:119-168 | there are four steps; only the first has the upload panel and it has no fields; each record field sits on exactly one step; a field is required exactly when it is on "Basic Information" |
| `StepTable.FirstMissing` | src/components/TaxOptimizer.tsx:80-87 | the loop finds the first required falsy field in declared order, or none exactly when every required field is truthy |
| `StepTable.ValidateFields` | src/components/TaxOptimizer.tsx:79-89 | validation passes exactly when no required field is falsy; otherwise the message is "Please fill in " + the caption of the first such field |
| `StepTable.ValidationNamesFirstMissing` | src/components/TaxOptimizer.tsx:81-85 | whichever field is first missing, validation fails naming exactly that field |
| `StepTable.OnlyBasicInformationCanFail` | src/components/TaxOptimizer.tsx:123 | on steps 0, 2 and 3 validation passes whatever the record holds (lines 150-166 carry no required flag) |
| `StepTable.FilingStatusNeverBlocks` | src/components/TaxOptimizer.tsx:133-145 | a filing status chosen from the select is never falsy, so "Basic Information" passes once ZIP code, income and dependents are filled |
| `Wizard.OnNext` | src/components/TaxOptimizer.tsx:258-262 | Next is available exactly when not loading and before the last editing step; it advances one step iff the step's required fields are filled (clearing the error); otherwise it stays and sets the first missing field's message; nothing else changes |
| `Wizard.OnSubmit` | src/components/TaxOptimizer.tsx:92-97 | Calculate is available exactly on the last editing step while not loading; on success it clears the error, sets loading and starts the calculation timer; on failure only the error changes |
| `Wizard.OnPrevious` | src/components/TaxOptimizer.tsx:248-250 | Previous is available exactly when not loading and past step 0; it decrements the step by one and changes nothing else |
| `Wizard.OnReset` | src/components/TaxOptimizer.tsx:275-277 | Start New Calculation is available exactly on the results view while not loading; it sets the step to 0 and keeps the record, result, upload, message and error |
| `Wizard.OnEditField` | src/components/TaxOptimizer.tsx:71-77 | an edit is possible exactly for an input the current step renders (a select only reports its options); the named field becomes the typed text, every other field and every other slot is unchanged |
| `Wizard.EditFieldWrites` | src/components/TaxOptimizer.tsx:214-221 | typing into a text or number input of the current step is the spread update of that one field |
| `Wizard.OnSelectFile` | src/components/TaxOptimizer.tsx:50-61 | the picker is available exactly on the upload step while not loading; no file, or one over 10 MiB, leaves the state unchanged; otherwise loading is set, the error cleared and processing started for that file |
| `Wizard.OnUploadComplete` | src/components/TaxOptimizer.tsx:63-68 | fires exactly when upload processing is pending; records the processing message and the captured file name, and clears loading |
| `Wizard.OnSubmitComplete` | src/components/TaxOptimizer.tsx:99-116 | fires exactly when the calculation is pending; stores the fixed result whatever the form holds, clears loading and shows the results view |
| `Wizard.Step` | src/components/TaxOptimizer.tsx:240-246 | while loading only a timer event can occur; only an edit changes the record; only a finished calculation changes the result |
| `WizardProperties.InitialValid` | src/components/TaxOptimizer.tsx:28-48 | the initial state satisfies the invariant |
| `WizardProperties.StepPreservesValid` | src/components/TaxOptimizer.tsx:50-116 | every transition keeps the invariant: step in 0..4, loading exactly while one timer runs (upload on step 0, calculation on step 3), results view implies the fixed result, file name and processing message set together, filing status one of the four options, error empty or a validation message |
| `WizardProperties.EditKeepsFilingChoice` | src/components/TaxOptimizer.tsx:200-212 | an edit never stores a filing status outside the select's options |
| `WizardProperties.RunPreservesValid` | src/components/TaxOptimizer.tsx:27-48 | every state a session reaches is valid, so the step stays in 0..4 throughout |
| `WizardProperties.LoadingResolves` | src/components/TaxOptimizer.tsx:240-246 | in a busy state exactly one timer can fire and no user event is possible |
| `WizardProperties.StepMoves` | src/components/TaxOptimizer.tsx:248-283 | the step moves by at most one, except Reset (to 0) and a finished calculation (to 4); the results view is entered only by a finished calculation |
| `WizardProperties.PreviousUndoesNext` | src/components/TaxOptimizer.tsx:250 | Previous after a successful Next restores the state, apart from the cleared error |
| `WizardProperties.UploadRoundTrip` | src/components/TaxOptimizer.tsx:50-68 | picking an acceptable file and letting processing finish records its name and the message, clears the error, and changes nothing else |
| `WizardProperties.OversizedFileIgnored` | src/components/TaxOptimizer.tsx:51-57 | an oversized file, or no file, leaves the state unchanged |
| `WizardProperties.SubmitRoundTrip` | src/components/TaxOptimizer.tsx:92-116 | Calculate on a complete last step, then the timer, gives the results view with the fixed result and everything else kept; loading starts only when the step is complete |
| `WizardProperties.ResultIgnoresForm` | src/components/TaxOptimizer.tsx:100-112 | the calculation's result does not depend on the form record |
| `WizardProperties.EditTwiceLastWins` | src/components/TaxOptimizer.tsx:71-77 | two edits of one field equal the second edit alone |
| `WizardScenarios.FirstNextAdvances` | src/components/TaxOptimizer.tsx:123 | from the initial state, Next moves to step 1 with no error |
| `WizardScenarios.EmptyZipIsNamed` | src/components/TaxOptimizer.tsx:79-89 | on "Basic Information", whatever else the record holds, an empty ZIP code makes Next stay and name "ZIP Code", the first required field |
| `WizardScenarios.InitialBasicInformationBlocksOnZip` | src/components/TaxOptimizer.tsx:33-47 | on "Basic Information" with the initial record, Next stays and names "ZIP Code" |
| `WizardScenarios.EmptyIncomeIsNamed` | src/components/TaxOptimizer.tsx:134-135 | on "Basic Information", with any filled ZIP code and an empty income, Next stays and names "Annual Income ($)" |
| `WizardScenarios.ZeroDependentsIsEmpty` | src/components/TaxOptimizer.tsx:37 | a dependents field still holding the initial number 0 counts as empty: with ZIP code, income and filing status filled, Next stays and names "Number of Dependents" |
| `WizardScenarios.TypedZeroIsFilled` | src/components/TaxOptimizer.tsx:75 | after the text "0" is typed into dependents, with ZIP code and income filled and a chosen filing status, Next advances to step 2 and clears the error |
| `WizardScenarios.FillBasicsRun` | src/components/TaxOptimizer.tsx:71-77 | on "Basic Information", typing the ZIP code, income and dependents writes exactly those three fields and changes nothing else |
| `WizardScenarios.FinishWizardRun` | src/components/TaxOptimizer.tsx:92-116 | from a filled "Basic Information", Next, Next, Calculate and the timer reach the results view with the fixed result |
| `WizardScenarios.HappyPath` | src/components/TaxOptimizer.tsx:258-283 | the whole walkthrough ends on the results view, not loading, with no error, and Start New Calculation returns to step 0 |
| `WizardScenarios.UploadLimit` | src/components/TaxOptimizer.tsx:54-68 | an 11 MiB file is turned away with nothing recorded; a 1 MiB file is recorded under its name once processing finishes |
| `WizardScenarios.CannedResultBracket` | src/components/tax/TaxSummary.tsx:16 | the fixed estimate of 25000 falls in the "10%" bracket |

## Left out

- `formatCurrency` (src/utils/taxCalculations.ts:9-14) formats through `Intl.NumberFormat`. Its locale rules are not visible in the source, so it is not modelled.
- Rounding of JavaScript numbers is left out. A finite amount is an exact real; the `number` slot for dependents is an `int`.
- Toast notifications are left out: they never feed back into the state. This covers the oversized-file message, the validation toast and the two success toasts.
- The two-second delay is left out. Each timer is an event that may fire at any later point.
- React's batching of state updates is not modelled. All setters of one handler take effect together, which is what the source relies on.
- Rendering, styling and the step counter text are left out. Rendering appears only as the conditions under which a control exists.
- The results view (src/components/tax/TaxSummary.tsx) is left out. Only its call of the bracket lookup is kept; the `toFixed(2)` rate display is floating-point formatting.
- Drag-and-drop in src/components/tax/FileUploadSection.tsx is left out. A drop hands the same file list to the upload handler, so it is the same `SelectFile` event.
- src/pages/Index.tsx is left out: it is static layout.
- Calling validation on the results view would index past the step table. No control allows that, so it is not modelled.
- Number inputs are modelled as free text: an edit of the income or an amount field may carry any string, while a browser number input reports only "" or a numeric string. No proved property depends on the difference.
- Field edits from the string `name` of a DOM event are not modelled. `Wizard.OnEditField` takes the resolved field; `Form.ParseKey` relates the two.

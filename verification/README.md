# Financial dashboard core, modelled in Dafny

This project models the core of a small financial dashboard. The dashboard is
built for an Angolan educational and transport business. It does four things:

- it keeps a history of dated balance-sheet and income records (`FinancialData`);
- it derives ten financial ratios from the record on display;
- it estimates the industrial tax and VAT of that record;
- it keeps an employee roster, with the Angolan INSS contributions and the
  progressive IRT income tax of each employee.

The project has five modules, one per part of the program:

- `Types` (`types.dfy`): the records shared by the other modules. A period is a
  day number: ISO `YYYY-MM-DD` dates order like their day numbers, and two
  dates are the same key exactly when their day numbers are equal.
- `Finance` (`finance.dfy`): the pure calculators of `utils/finance.ts`. These
  are `calculateIndicators`, `calculatePayroll` (INSS and the IRT table) and
  `getStatusColor`.
- `Records` (`records.dfy`): the sequence operations that the dashboard applies
  to its period history. An add is a stable sort by date; an edit replaces by
  period; a delete removes by index. The module also has the active-index
  search, the index clamp after a delete, and the fallback for the displayed
  record.
- `Staff` (`staff.dfy`): the roster operations. These are the employee form's
  add-or-edit, the delete by id, the payroll table and its three column totals.
- `App` (`app.dfy`): the dashboard component. It holds the entry form's change
  handler, the blank form, the fiscal estimate, and the `Dashboard` class. The
  class has the component's state as fields (history, active index, roster,
  entry form, edit flags). Its methods are the event handlers, each proved
  against the functions of `Records` and `Staff`. The `Valid()` invariant says
  the active index points at a record whenever there is one.

Amounts are exact `real` numbers: the model states the arithmetic the code
intends, without binary floating point. The code's `x || 0` on a number is the
identity on reals. Its `x || 1` replaces a zero denominator by 1 (`OrOne`).

## Model

| member | source | states |
|---|---|---|
| Finance.OrOne | utils/finance.ts:22-31 | `x \|\| 1` is never zero; it is `x` when `x` is nonzero and 1 otherwise |
| Finance.AtivoTotal | utils/finance.ts:19 | total assets, current plus non-current; no contract of its own: it is the shared denominator of leverage, ROI and asset turnover in the contract of `CalculateIndicators` |
| Finance.CalculateIndicators | utils/finance.ts:4-33 | each of the ten ratios times its denominator (the record's own, or 1 when that is zero) gives back its numerator; total assets are current plus non-current assets |
| Finance.IndicatorsWithZeroDenominators | utils/finance.ts:22-31 | when a denominator is zero, every ratio over it equals its bare numerator |
| Finance.IndicatorsArePlainQuotients | utils/finance.ts:19-31 | when a denominator is nonzero, every ratio over it is the plain quotient |
| Finance.TaxableBase | utils/finance.ts:41 | base salary plus bonus, allowances left out; no contract of its own: its meaning is carried by `CalculatePayroll` and `AllowancesAreUntaxed` |
| Finance.Irt | utils/finance.ts:46-61 | the six-bracket chain; no contract of its own: `IrtIsMarginal` proves it equal to the marginal table, and `IrtProgressive`, `IrtExemption`, `IrtSeams` and `IrtAtMostTopRate` state its properties |
| Finance.IrtIsMarginal | utils/finance.ts:45-61 | the six-branch IRT chain equals a purely marginal table of bands 100000/150000/200000/300000/500000 at 10/12.5/15/19/25%; the floors 5000, 11250, 26250 and 64250 are the taxes of the full lower bands |
| Finance.MulMonotone | utils/finance.ts:49-61 | proof helper for `MarginalTaxMonotone` and `MarginalTaxNonNegative`: multiplying by a nonnegative rate keeps order |
| Finance.MarginalTaxMonotone | utils/finance.ts:49-61 | a marginal table with nonnegative rates never taxes a larger base less |
| Finance.MarginalTaxNonNegative | utils/finance.ts:49-61 | a marginal table with nonnegative rates never yields a negative tax |
| Finance.IrtProgressive | utils/finance.ts:35-39 | IRT is nonnegative and never decreases as the IRT base grows |
| Finance.IrtExemption | utils/finance.ts:38 | no IRT is due exactly when the IRT base is at most 100000 Kz (both directions) |
| Finance.IrtSeams | utils/finance.ts:49-61 | at each bracket's upper bound the chain is continuous: it gives the next bracket's floor, and the next bracket's formula agrees there |
| Finance.IrtAtMostTopRate | utils/finance.ts:49-61 | on a nonnegative base IRT is at most 25% of it |
| Finance.CalculatePayroll | utils/finance.ts:40-75 | worker INSS is 3% and employer INSS 8% of base plus bonus; IRT is the table applied to the taxable base less worker INSS and is nonnegative; gross is base plus allowances plus bonus; net plus worker INSS plus IRT is gross; total cost less employer INSS is gross; the employee id is carried over |
| Finance.AllowancesAreUntaxed | utils/finance.ts:41 | raising allowances leaves both INSS amounts and IRT unchanged and passes the raise through to gross, net and total cost |
| Finance.PayrollExemption | utils/finance.ts:38 | an employee whose IRT base is at most 100000 Kz pays no IRT, and only the 3% INSS is withheld |
| Finance.NetSalaryBounds | utils/finance.ts:63-64 | for a nonnegative taxable base, net pay lies between the allowances plus 72.75% of the taxable base and the gross salary |
| Finance.DefaultEmployeePayroll | App.tsx:36 | the default employee (base 250000, allowances 45000, bonus 10000) gets gross 305000, INSS 7800, IRT 19080, net 278120, employer INSS 20800, cost 325800 |
| Finance.ToLower | utils/finance.ts:90 | lower-casing keeps the length and maps every character to its lower-case form |
| Finance.ToLowerIdempotent | utils/finance.ts:90 | lower-casing twice is lower-casing once |
| Finance.OccursInTail | utils/finance.ts:91-93 | proof helper for `Includes`: an occurrence away from the front of a string is an occurrence in its tail, and back |
| Finance.Includes | utils/finance.ts:91-93 | `includes` holds exactly when the word occurs at some position of the string |
| Finance.StatusText | utils/finance.ts:90 | `status \|\| ''`; no contract of its own: `EmptyStatusIsSlate` states that an absent or empty status gets the slate colour |
| Finance.StatusBadge | utils/finance.ts:89-95 | green exactly when "otimista" or "bom" occurs in the lower-cased status; amber exactly when neither does but "alerta" or "risco" does; blue exactly when only "neutro" does; slate exactly when none does |
| Finance.ClassName | utils/finance.ts:91-94 | the style classes of each colour; no contract of its own: `ClassNameInjective` states that no two colours share them |
| Finance.ClassNameInjective | utils/finance.ts:91-94 | two colours with the same style classes are the same colour |
| Finance.GetStatusColor | utils/finance.ts:89-95 | returns the green classes exactly when "otimista" or "bom" occurs in the lower-cased status; the amber classes exactly when neither does but "alerta" or "risco" does; the blue classes exactly when only "neutro" does; the slate classes exactly when none does |
| Finance.StatusColorIgnoresCase | utils/finance.ts:90 | the colour does not depend on letter case |
| Finance.EmptyStatusIsSlate | utils/finance.ts:90 | an absent or empty status gets the default slate colour |
| Finance.AbsentLetter | utils/finance.ts:91-93 | proof helper for `AlertTagIsAmber` and `NeutralTagIsBlue`: a word holding a letter the status lacks does not occur in it |
| Finance.OptimisticTagIsGreen | types.ts:58 | the "Otimista" status is shown green |
| Finance.AlertTagIsAmber | types.ts:58 | the "Alerta" status is shown amber |
| Finance.NeutralTagIsBlue | types.ts:58 | the "Neutro" status is shown blue |
| Records.Insert | App.tsx:174 | inserting adds one record |
| Records.FirstLater | App.tsx:174 | the insertion point: every record before it is dated no later than the new period, the record at it strictly later |
| Records.InsertSplits | App.tsx:174 | inserting splits the list at the first record dated later than the new one |
| Records.InsertPermutes | App.tsx:174 | inserting adds exactly the new record to the multiset |
| Records.InsertSorted | App.tsx:174 | inserting into a sorted list keeps it sorted |
| Records.SortByPeriod | App.tsx:174 | the sort keeps the length |
| Records.SortSortsAndPermutes | App.tsx:174 | the sort returns a date-ascending permutation of its input |
| Records.AddRecord | App.tsx:174 | an add lengthens the history by one; `AddRecordSortedPermutation`, `AddRecordStable`, `AddToSortedInserts` and `AddSelectsItsPeriod` state the rest |
| Records.AddRecordSortedPermutation | App.tsx:174 | after an add the history is sorted and holds the old records plus the new one |
| Records.WithPeriodAppend | App.tsx:174 | the records of one period in a joined list are those of each part, in order |
| Records.WithPeriodOfLater | App.tsx:174 | a list whose records all come later holds no record of the period |
| Records.InsertStable | App.tsx:174 | inserting into a sorted list puts the new record after every record of its own date |
| Records.SortStable | App.tsx:174 | the sort is stable: the records of each date keep their relative order |
| Records.AddRecordStable | App.tsx:174 | after an add, each date's records are the old ones in their old order, with the new record last among its date |
| Records.InsertAtEnd | App.tsx:174 | inserting behind records dated no later than the new one appends it |
| Records.SortSortedIsIdentity | App.tsx:174 | sorting a sorted history changes nothing |
| Records.AddToSortedInserts | App.tsx:174 | adding to a sorted history puts the new record after every record dated on or before it; nothing else moves |
| Records.ReplaceByPeriod | App.tsx:172 | an edit keeps the length; each record of the form's period becomes the form's record, and every other record stays |
| Records.EditKeepsPeriods | App.tsx:172 | an edit keeps every date at its position, so a sorted history stays sorted |
| Records.EditOfUnknownPeriod | App.tsx:172 | an edit whose date matches no record changes nothing |
| Records.FindPeriodIndex | App.tsx:177 | `findIndex` gives -1 exactly when no record has the period; otherwise it gives the first index that has it |
| Records.ActiveAfterSubmit | App.tsx:177-178 | the new active index is the first record of the submitted period, or the last record when none has it; it is in range whenever the history is nonempty |
| Records.AddSelectsItsPeriod | App.tsx:174-178 | after an add, the active record has the submitted period |
| Records.RemoveAt | App.tsx:160 | a delete cuts out exactly the element at the index; an index outside the list removes nothing |
| Records.MultisetWithout | App.tsx:160 | proof helper for `RemoveAtRemovesOne`: cutting one element out of a list takes exactly that element out of its multiset |
| Records.RemoveAtRemovesOne | App.tsx:160 | a delete at a valid index shortens the history by one and removes exactly that record |
| Records.RemoveAtKeepsSorted | App.tsx:160 | a delete keeps a sorted history sorted |
| Records.ClampActive | App.tsx:162-164 | an index still in range is kept; an index past the end moves to the last record (to 0 when none is left); an index never grows |
| Records.CurrentData | App.tsx:82 | a record is displayed exactly when the history is nonempty: the active one when the index is in range, the first one otherwise |
| Staff.NewEmployee | App.tsx:188-194 | the form's record keeps the edited employee's id unless that id is empty, else it takes the fresh id; the form's figures are copied |
| Staff.ReplaceById | App.tsx:197 | an edit keeps the length; every employee with the edited id becomes the form's record, and every other employee stays |
| Staff.SubmitEmployee | App.tsx:196-200 | with no employee being edited the form's record is appended after the unchanged roster; with one being edited the length is kept, every holder of the edited id becomes the form's record, and every other employee stays |
| Staff.AddEmployeeAppends | App.tsx:199 | an add appends the new employee, with the fresh id, after the unchanged roster |
| Staff.EditEmployeeKeepsId | App.tsx:196-197 | an edit keeps the roster's length, order and ids; it replaces the edited employee's entries and leaves the others |
| Staff.RemoveById | App.tsx:398 | the delete never lengthens the roster, and no employee left has the deleted id |
| Staff.RemoveByIdSplits | App.tsx:398 | the delete filters a joined roster part by part |
| Staff.RemoveByIdKeepsOthers | App.tsx:398 | an employee survives the delete exactly when it was on the roster with another id |
| Staff.RemoveAbsentId | App.tsx:398 | deleting an id nobody holds changes nothing |
| Staff.RemoveLeadingHolder | App.tsx:398 | deleting the id of the first employee, held by nobody after it, removes just that employee |
| Staff.RemoveSoleHolder | App.tsx:398 | deleting an id held by one employee only removes that employee and keeps the order |
| Staff.RemoveUniqueId | App.tsx:398 | with unique ids, deleting the id of the employee at position k removes exactly that position |
| Staff.SplitAt | App.tsx:398 | proof helper for `RemoveUniqueId`: a list is its part before a position, the element there, and its part after |
| Staff.PayrollData | App.tsx:93-98 | the payroll table has one row per employee, each the employee's payroll |
| Staff.PayrollDataPrefix | App.tsx:93-98 | the payroll of the roster without its last employee is the payroll without its last row |
| Staff.Total | App.tsx:354-362 | the left fold of one column of the payroll table; a column with no negative cell sums to a nonnegative total |
| Staff.TotalGrossIsTotalPay | App.tsx:354 | the salary-mass total is the sum of every employee's base salary, allowances and bonus |
| Staff.TotalInssEmployerIsEightPercent | App.tsx:361-362 | the employer INSS total is 8% of the summed taxable bases |
| Staff.TotalIrtNonNegative | App.tsx:357-358 | the IRT total is never negative |
| App.Set | App.tsx:114 | writing one form field changes that field only, and keeps the period |
| App.ApplyInputChange | App.tsx:111-124 | a date change sets the period and no number; a number change sets its field and keeps the period and every field but net revenue; a channel change sets net revenue to the sum of the five channels; other changes keep net revenue |
| App.InputChangeKeepsRevenueConsistent | App.tsx:115-121 | net revenue stays equal to the channel sum under every change except one to the net revenue field itself |
| App.BlankForm | App.tsx:126-148 | the blank form is dated today, has every amount zero, and its net revenue equals its channel sum |
| App.FiscalData | App.tsx:100-109 | industrial tax is 25% of a positive operating profit and never negative; VAT is 14% of net revenue; the total is their sum; the status is settled exactly when net profit is positive |
| App.BlankFormFiscal | App.tsx:100-109 | a blank form shows no tax due and a pending status |
| App.FiscalOfConsistentForm | App.tsx:100-109 | on a form whose net revenue follows its channels, the estimate is the industrial tax plus 14% of the channel sum |
| App.Dashboard.constructor | App.tsx:28-80 | start-up state: the stored history and roster, the last period active (which satisfies the index invariant), a blank form, nothing being edited |
| App.Dashboard.Current | App.tsx:82 | under the invariant the displayed record is the active one; with no history nothing is displayed |
| App.Dashboard.OpenNewEntryModal | App.tsx:126-150 | the form is blank and dated today, in add mode; nothing else changes |
| App.Dashboard.OpenEditEntryModal | App.tsx:152-156 | the form holds the chosen record, in edit mode; nothing else changes |
| App.Dashboard.HandleInputChange | App.tsx:111-124 | the form becomes the change applied to the old form; nothing else changes |
| App.Dashboard.HandleSubmit | App.tsx:168-181 | keeps the index invariant; an edit replaces by period and keeps a sorted history sorted; an add leaves a sorted history holding the old records plus the form's record, with a record of the submitted period active; the active index is the first record of that period, or the last record |
| App.Dashboard.DeleteHistoryEntry | App.tsx:158-166 | keeps the index invariant and a sorted history sorted; unconfirmed, nothing changes; confirmed, the record at the index is cut out and the active index is clamped to the new length |
| App.Dashboard.SelectPeriod | App.tsx:260 | the chosen period becomes active, within range |
| App.Dashboard.OpenPayrollModal | App.tsx:371 | the employee form opens on the chosen employee, or empty for an add; the roster is unchanged |
| App.Dashboard.HandlePayrollSubmit | App.tsx:183-203 | the roster becomes the edit or the add of the form's record; an add lengthens it by one, an edit keeps its length; the form is closed |
| App.Dashboard.DeleteEmployee | App.tsx:398 | the roster loses exactly the employees with the row's id; nothing else changes |

## Left out

- Binary floating point: amounts are exact reals. Rounding of the 3%, 8%, 25% and 14% products, `NaN` from a non-numeric input, and `NaN || 1` are not modelled.
- Finance.ToLower maps only ASCII letters. Unicode case mapping of accented capitals is not modelled. The status words matched are plain ASCII.
- Dates are day numbers. Parsing the ISO text, and the comparator's `NaN` for an invalid date, are not modelled. Equal day numbers stand for equal period strings.
- Records.CurrentData returns `None` for an empty history. The code then reads `undefined` and the indicator and fiscal computations fail; the model shows nothing in that case.
- Browser storage (loading and saving the history and roster), the sample history and the default roster are not modelled. The constructor takes the loaded values as parameters.
- `window.confirm` is the `confirmed` parameter of `DeleteHistoryEntry`. `Date.now().toString()` is the `freshId` parameter of `HandlePayrollSubmit`. `new Date()` is the `today` parameter.
- The form values passed to `HandlePayrollSubmit` are already converted to numbers; the `FormData` reading and `Number` parsing are not modelled.
- Modal, menu, view and analysis flags are not fields of `Dashboard`. Clearing the AI analysis on submit or on period selection is not modelled. The AI analysis service, the charts, the currency and percent formatting, and the rendering are not modelled.
- Staff.NewEmployee: an edited employee whose id is the empty string gets the fresh id, as `editingEmployee?.id || Date.now()` does. The edit then replaces the entries with the empty id by a record with another id.
- Indicator ratios use `x || 0` on numerators only as the identity; a missing field (`undefined`) cannot occur in the model's records.

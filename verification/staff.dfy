/** The employee roster of App.tsx: the employee form's upsert, the delete by id,
    and the three payroll totals shown above the payroll table. */
module Staff {
  import opened Types
  import Finance

  /** The record built by the employee form: it keeps the edited employee's id
      unless that id is empty (falsy), in which case it takes the fresh id. */
  function NewEmployee(editing: Option<Employee>, name: string, baseSalary: real,
                       allowances: real, bonus: real, freshId: string): (e: Employee)
    ensures editing.Some? && editing.value.id != "" ==> e.id == editing.value.id
    ensures editing.None? || editing.value.id == "" ==> e.id == freshId
    ensures e.name == name && e.baseSalary == baseSalary
    ensures e.allowances == allowances && e.bonus == bonus
  {
    var id := if editing.Some? && editing.value.id != "" then editing.value.id else freshId;
    Employee(id, name, baseSalary, allowances, bonus)
  }

  /** `employees.map(emp => emp.id === id ? e : emp)`. */
  function ReplaceById(employees: seq<Employee>, id: string, e: Employee): (r: seq<Employee>)
    ensures |r| == |employees|
    ensures forall i :: 0 <= i < |employees| ==>
      r[i] == (if employees[i].id == id then e else employees[i])
  {
    if employees == [] then []
    else [if employees[0].id == id then e else employees[0]] + ReplaceById(employees[1..], id, e)
  }

  /** The roster after the employee form is submitted: an edit replaces the
      edited employee's entries, an add appends the new employee. */
  function SubmitEmployee(employees: seq<Employee>, editing: Option<Employee>, e: Employee): (r: seq<Employee>)
    ensures editing.None? ==> |r| == |employees| + 1 && r[..|employees|] == employees && r[|employees|] == e
    ensures editing.Some? ==> |r| == |employees|
    ensures editing.Some? ==> forall i :: 0 <= i < |employees| ==>
      r[i] == (if employees[i].id == editing.value.id then e else employees[i])
  {
    if editing.Some? then ReplaceById(employees, editing.value.id, e) else employees + [e]
  }

  /** An add appends the new employee at the end; nothing else moves. */
  lemma AddEmployeeAppends(employees: seq<Employee>, name: string, baseSalary: real,
                           allowances: real, bonus: real, freshId: string)
    ensures var e := NewEmployee(None, name, baseSalary, allowances, bonus, freshId);
      var r := SubmitEmployee(employees, None, e);
      |r| == |employees| + 1 && r[..|employees|] == employees && r[|employees|] == e && e.id == freshId
  {
  }

  /** An edit keeps the roster's length and order, gives the edited employee
      the submitted figures under the same id, and leaves other employees alone. */
  lemma EditEmployeeKeepsId(employees: seq<Employee>, editing: Employee, name: string,
                            baseSalary: real, allowances: real, bonus: real, freshId: string)
    requires editing.id != ""
    ensures var e := NewEmployee(Some(editing), name, baseSalary, allowances, bonus, freshId);
      var r := SubmitEmployee(employees, Some(editing), e);
      |r| == |employees| &&
      (forall i :: 0 <= i < |r| ==> r[i].id == employees[i].id) &&
      (forall i :: 0 <= i < |r| && employees[i].id == editing.id ==> r[i] == e) &&
      (forall i :: 0 <= i < |r| && employees[i].id != editing.id ==> r[i] == employees[i])
  {
  }

  /** `employees.filter(e => e.id !== id)`. */
  function RemoveById(employees: seq<Employee>, id: string): (r: seq<Employee>)
    ensures |r| <= |employees|
    ensures forall i :: 0 <= i < |r| ==> r[i].id != id
  {
    if employees == [] then []
    else (if employees[0].id == id then [] else [employees[0]]) + RemoveById(employees[1..], id)
  }

  /** The delete is an order-keeping filter: it works piece by piece on a split list. */
  lemma {:induction false} RemoveByIdSplits(a: seq<Employee>, b: seq<Employee>, id: string)
    ensures RemoveById(a + b, id) == RemoveById(a, id) + RemoveById(b, id)
  {
    if a == [] {
      assert a + b == b;
    } else {
      assert (a + b)[0] == a[0];
      assert (a + b)[1..] == a[1..] + b;
      RemoveByIdSplits(a[1..], b, id);
    }
  }

  /** Exactly the employees with another id survive the delete. */
  lemma {:induction false} RemoveByIdKeepsOthers(employees: seq<Employee>, id: string, e: Employee)
    ensures e in RemoveById(employees, id) <==> e in employees && e.id != id
  {
    if employees != [] {
      RemoveByIdKeepsOthers(employees[1..], id, e);
      assert employees == [employees[0]] + employees[1..];
    }
  }

  /** Deleting an id that is not on the roster changes nothing. */
  lemma {:induction false} RemoveAbsentId(employees: seq<Employee>, id: string)
    requires forall i :: 0 <= i < |employees| ==> employees[i].id != id
    ensures RemoveById(employees, id) == employees
  {
    if employees != [] {
      RemoveAbsentId(employees[1..], id);
      assert employees == [employees[0]] + employees[1..];
    }
  }

  /** Deleting the id of a list's first employee, held by no one after it,
      removes just that employee. */
  lemma RemoveLeadingHolder(x: Employee, back: seq<Employee>)
    requires forall i :: 0 <= i < |back| ==> back[i].id != x.id
    ensures RemoveById([x] + back, x.id) == back
  {
    RemoveAbsentId(back, x.id);
    assert RemoveById([x], x.id) == [];
    RemoveByIdSplits([x], back, x.id);
  }

  /** Deleting an id held by one employee only removes that employee. */
  lemma RemoveSoleHolder(front: seq<Employee>, x: Employee, back: seq<Employee>)
    requires forall i :: 0 <= i < |front| ==> front[i].id != x.id
    requires forall i :: 0 <= i < |back| ==> back[i].id != x.id
    ensures RemoveById(front + ([x] + back), x.id) == front + back
  {
    RemoveLeadingHolder(x, back);
    RemoveAbsentId(front, x.id);
    RemoveByIdSplits(front, [x] + back, x.id);
  }

  /** With unique ids, deleting the employee at position k removes exactly that one. */
  lemma RemoveUniqueId(employees: seq<Employee>, k: nat)
    requires k < |employees|
    requires forall i, j :: 0 <= i < j < |employees| ==> employees[i].id != employees[j].id
    ensures RemoveById(employees, employees[k].id) == employees[..k] + employees[k + 1..]
  {
    var x := employees[k];
    var front, back := employees[..k], employees[k + 1..];
    forall i | 0 <= i < |front| ensures front[i].id != x.id {
      assert front[i] == employees[i];
    }
    forall i | 0 <= i < |back| ensures back[i].id != x.id {
      assert back[i] == employees[k + 1 + i];
    }
    RemoveSoleHolder(front, x, back);
    SplitAt(employees, k);
  }

  /** A list is its part before position k, its element at k, and its part after. */
  lemma SplitAt<T>(s: seq<T>, k: nat)
    requires k < |s|
    ensures s == s[..k] + ([s[k]] + s[k + 1..])
  {
  }

  // ---------------------------------------------------------------------------
  // Payroll totals
  // ---------------------------------------------------------------------------

  /** `employees.map(emp => calculatePayroll(emp))`. */
  function PayrollData(employees: seq<Employee>): (r: seq<PayrollResult>)
    ensures |r| == |employees|
    ensures forall i :: 0 <= i < |employees| ==> r[i] == Finance.CalculatePayroll(employees[i])
  {
    if employees == [] then []
    else [Finance.CalculatePayroll(employees[0])] + PayrollData(employees[1..])
  }

  /** The three columns the dashboard totals. */
  datatype Column = GrossSalary | Irt | InssEmployer

  function Cell(r: PayrollResult, c: Column): real
  {
    match c
    case GrossSalary => r.grossSalary
    case Irt => r.irt
    case InssEmployer => r.inssEmployer
  }

  /** `payrollData.reduce((acc, curr) => acc + curr.result.<column>, 0)`: summed
      from the left, as the reduce does. */
  function Total(rows: seq<PayrollResult>, c: Column): (r: real)
    ensures (forall i :: 0 <= i < |rows| ==> Cell(rows[i], c) >= 0.0) ==> r >= 0.0
  {
    if rows == [] then 0.0 else Total(rows[..|rows| - 1], c) + Cell(rows[|rows| - 1], c)
  }

  /** Sum of the employees' taxable bases (base salary plus bonus). */
  function TotalTaxableBase(employees: seq<Employee>): real
  {
    if employees == [] then 0.0
    else TotalTaxableBase(employees[..|employees| - 1]) + Finance.TaxableBase(employees[|employees| - 1])
  }

  /** Sum of the employees' gross salaries (base salary, allowances and bonus). */
  function TotalPay(employees: seq<Employee>): real
  {
    if employees == [] then 0.0
    else
      var e := employees[|employees| - 1];
      TotalPay(employees[..|employees| - 1]) + e.baseSalary + e.allowances + e.bonus
  }

  /** The payroll of a prefix of the roster is the prefix of its payroll. */
  lemma PayrollDataPrefix(employees: seq<Employee>)
    requires employees != []
    ensures PayrollData(employees)[..|employees| - 1] == PayrollData(employees[..|employees| - 1])
  {
  }

  /** The salary mass is the sum of every employee's base salary, allowances and bonus. */
  lemma {:induction false} TotalGrossIsTotalPay(employees: seq<Employee>)
    ensures Total(PayrollData(employees), GrossSalary) == TotalPay(employees)
  {
    if employees != [] {
      PayrollDataPrefix(employees);
      TotalGrossIsTotalPay(employees[..|employees| - 1]);
    }
  }

  /** The employer's INSS charge is 8% of the summed taxable bases. */
  lemma {:induction false} TotalInssEmployerIsEightPercent(employees: seq<Employee>)
    ensures Total(PayrollData(employees), InssEmployer) == Finance.InssEmployerRate * TotalTaxableBase(employees)
  {
    if employees != [] {
      PayrollDataPrefix(employees);
      TotalInssEmployerIsEightPercent(employees[..|employees| - 1]);
    }
  }

  /** The IRT withheld across the roster is never negative. */
  lemma {:induction false} TotalIrtNonNegative(employees: seq<Employee>)
    ensures Total(PayrollData(employees), Irt) >= 0.0
  {
    if employees != [] {
      var rows := PayrollData(employees);
      PayrollDataPrefix(employees);
      TotalIrtNonNegative(employees[..|employees| - 1]);
      assert rows[|rows| - 1].irt >= 0.0;
    }
  }
}

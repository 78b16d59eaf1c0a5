/** The dashboard component of App.tsx: its entry form, its fiscal estimate and
    the state it keeps (period history, active period, roster, open forms),
    changed by its event handlers. */
module App {
  import opened Types
  import opened Records
  import Staff
  import Finance

  // ---------------------------------------------------------------------------
  // The entry form
  // ---------------------------------------------------------------------------

  /** The numeric fields of a FinancialData record, by name. */
  datatype NumericField =
    | AtivoCirculante | AtivoNaoCirculante | Estoques | Disponibilidades
    | PassivoCirculante | PassivoNaoCirculante | PatrimonioLiquido
    | ReceitaLiquida | LucroBruto | LucroOperacional | LucroLiquido
    | Vendas | Custos
    | ReceitaServicos | ReceitaTransportes | ReceitaPropinas
    | ReceitaFolhasProva | ReceitaUniformes

  /** One change event of the form: the date field takes the text as a period,
      every other field takes `Number(value)`. */
  datatype Input = PeriodInput(period: Period) | NumberInput(field: NumericField, value: real)

  /** The five revenue channels whose sum is the net revenue. */
  predicate IsChannel(f: NumericField)
  {
    f.ReceitaServicos? || f.ReceitaTransportes? || f.ReceitaPropinas?
      || f.ReceitaFolhasProva? || f.ReceitaUniformes?
  }

  function Get(d: FinancialData, f: NumericField): real
  {
    match f
    case AtivoCirculante => d.ativoCirculante
    case AtivoNaoCirculante => d.ativoNaoCirculante
    case Estoques => d.estoques
    case Disponibilidades => d.disponibilidades
    case PassivoCirculante => d.passivoCirculante
    case PassivoNaoCirculante => d.passivoNaoCirculante
    case PatrimonioLiquido => d.patrimonioLiquido
    case ReceitaLiquida => d.receitaLiquida
    case LucroBruto => d.lucroBruto
    case LucroOperacional => d.lucroOperacional
    case LucroLiquido => d.lucroLiquido
    case Vendas => d.vendas
    case Custos => d.custos
    case ReceitaServicos => d.receitaServicos
    case ReceitaTransportes => d.receitaTransportes
    case ReceitaPropinas => d.receitaPropinas
    case ReceitaFolhasProva => d.receitaFolhasProva
    case ReceitaUniformes => d.receitaUniformes
  }

  /** `{ ...d, [name]: v }` for a numeric field. */
  function Set(d: FinancialData, f: NumericField, v: real): (r: FinancialData)
    ensures forall g :: Get(r, g) == if g == f then v else Get(d, g)
    ensures r.period == d.period
  {
    match f
    case AtivoCirculante => d.(ativoCirculante := v)
    case AtivoNaoCirculante => d.(ativoNaoCirculante := v)
    case Estoques => d.(estoques := v)
    case Disponibilidades => d.(disponibilidades := v)
    case PassivoCirculante => d.(passivoCirculante := v)
    case PassivoNaoCirculante => d.(passivoNaoCirculante := v)
    case PatrimonioLiquido => d.(patrimonioLiquido := v)
    case ReceitaLiquida => d.(receitaLiquida := v)
    case LucroBruto => d.(lucroBruto := v)
    case LucroOperacional => d.(lucroOperacional := v)
    case LucroLiquido => d.(lucroLiquido := v)
    case Vendas => d.(vendas := v)
    case Custos => d.(custos := v)
    case ReceitaServicos => d.(receitaServicos := v)
    case ReceitaTransportes => d.(receitaTransportes := v)
    case ReceitaPropinas => d.(receitaPropinas := v)
    case ReceitaFolhasProva => d.(receitaFolhasProva := v)
    case ReceitaUniformes => d.(receitaUniformes := v)
  }

  /** The form after one change event: the field takes the value; a change to a
      revenue channel also sets the net revenue to the sum of the five channels. */
  function ApplyInputChange(prev: FinancialData, input: Input): (r: FinancialData)
    ensures input.PeriodInput? ==>
      r.period == input.period && forall g :: Get(r, g) == Get(prev, g)
    ensures input.NumberInput? ==>
      r.period == prev.period && Get(r, input.field) == input.value &&
      forall g :: g != input.field && g != ReceitaLiquida ==> Get(r, g) == Get(prev, g)
    ensures input.NumberInput? && IsChannel(input.field) ==> r.receitaLiquida == ChannelRevenue(r)
    ensures input.NumberInput? && !IsChannel(input.field) && input.field != ReceitaLiquida ==>
      r.receitaLiquida == prev.receitaLiquida
  {
    match input
    case PeriodInput(p) => prev.(period := p)
    case NumberInput(f, v) =>
      var updated := Set(prev, f, v);
      if IsChannel(f) then updated.(receitaLiquida := ChannelRevenue(updated)) else updated
  }

  /** Net revenue equals the sum of the five channels. */
  predicate RevenueConsistent(d: FinancialData)
  {
    d.receitaLiquida == ChannelRevenue(d)
  }

  /** The form keeps net revenue equal to its channels under every change except
      one written to the net revenue field itself. */
  lemma InputChangeKeepsRevenueConsistent(prev: FinancialData, input: Input)
    requires RevenueConsistent(prev)
    requires !(input.NumberInput? && input.field == ReceitaLiquida)
    ensures RevenueConsistent(ApplyInputChange(prev, input))
  {
  }

  /** The empty form opened for a new entry, dated `today`. */
  function BlankForm(today: Period): (r: FinancialData)
    ensures r.period == today
    ensures forall g :: Get(r, g) == 0.0
    ensures RevenueConsistent(r)
  {
    FinancialData(today, 0.0, 0.0, 0.0, 0.0, 0.0, 0.0, 0.0, 0.0, 0.0, 0.0, 0.0, 0.0, 0.0,
                  0.0, 0.0, 0.0, 0.0, 0.0)
  }

  // ---------------------------------------------------------------------------
  // Fiscal estimate
  // ---------------------------------------------------------------------------

  datatype FiscalStatus = Regularizado | Pendente

  datatype FiscalEstimate = FiscalEstimate(
    impostoIndustrial: real,
    ivaEstimado: real,
    totalEstimado: real,
    status: FiscalStatus)

  /** The estimate for the displayed record: industrial tax of 25% on a positive
      operating profit, VAT of 14% on net revenue, their sum, and a status that
      is settled exactly when net profit is positive. */
  function FiscalData(d: FinancialData): (f: FiscalEstimate)
    ensures f.impostoIndustrial == 0.25 * Finance.Max(0.0, d.lucroOperacional)
    ensures f.impostoIndustrial >= 0.0
    ensures f.ivaEstimado == 0.14 * d.receitaLiquida
    ensures f.totalEstimado == f.impostoIndustrial + f.ivaEstimado
    ensures f.status == Regularizado <==> d.lucroLiquido > 0.0
  {
    var impostoIndustrial := if d.lucroOperacional > 0.0 then d.lucroOperacional * 0.25 else 0.0;
    var ivaEstimado := d.receitaLiquida * 0.14;
    FiscalEstimate(
      impostoIndustrial,
      ivaEstimado,
      impostoIndustrial + ivaEstimado,
      if d.lucroLiquido > 0.0 then Regularizado else Pendente)
  }

  /** A blank form shows no tax due and a pending status. */
  lemma BlankFormFiscal(today: Period)
    ensures FiscalData(BlankForm(today)) == FiscalEstimate(0.0, 0.0, 0.0, Pendente)
  {
  }

  /** On a form whose net revenue follows its channels, the estimate is the
      industrial tax plus 14% of the five channels' sum. */
  lemma FiscalOfConsistentForm(d: FinancialData)
    requires RevenueConsistent(d)
    ensures FiscalData(d).totalEstimado
      == 0.25 * Finance.Max(0.0, d.lucroOperacional) + 0.14 * ChannelRevenue(d)
  {
  }

  // ---------------------------------------------------------------------------
  // The dashboard's state
  // ---------------------------------------------------------------------------

  /** The active index points at a record whenever there is one; with no record
      it is -1 (an empty initial history) or 0 (after the last delete). */
  predicate ActiveIndexOk(history: seq<FinancialData>, active: int)
  {
    if |history| > 0 then 0 <= active < |history| else -1 <= active <= 0
  }

  class Dashboard {
    var history: seq<FinancialData>
    var activePeriodIndex: int
    var employees: seq<Employee>
    var formData: FinancialData
    var isEditingEntry: bool
    var editingEmployee: Option<Employee>

    ghost predicate Valid()
      reads this
    {
      ActiveIndexOk(history, activePeriodIndex)
    }

    /** The state at start-up: the stored (or sample) history and roster, the
        last period active, and a blank entry form dated `today`. */
    constructor (savedHistory: seq<FinancialData>, savedEmployees: seq<Employee>, today: Period)
      ensures Valid()
      ensures history == savedHistory && employees == savedEmployees
      ensures activePeriodIndex == |savedHistory| - 1
      ensures formData == BlankForm(today) && !isEditingEntry && editingEmployee == None
    {
      history := savedHistory;
      employees := savedEmployees;
      activePeriodIndex := |savedHistory| - 1;
      formData := BlankForm(today);
      isEditingEntry := false;
      editingEmployee := None;
    }

    /** `currentData`: the active record, which under Valid() is never the fallback. */
    function Current(): (r: Option<FinancialData>)
      reads this
      ensures Valid() && |history| > 0 ==> r == Some(history[activePeriodIndex])
      ensures |history| == 0 ==> r == None
    {
      CurrentData(history, activePeriodIndex)
    }

    /** Opens the form for a new entry dated `today`. */
    method OpenNewEntryModal(today: Period)
      modifies this
      ensures formData == BlankForm(today) && !isEditingEntry
      ensures history == old(history) && activePeriodIndex == old(activePeriodIndex)
      ensures employees == old(employees) && editingEmployee == old(editingEmployee)
    {
      isEditingEntry := false;
      formData := BlankForm(today);
    }

    /** Opens the form on an existing record. */
    method OpenEditEntryModal(entry: FinancialData)
      modifies this
      ensures formData == entry && isEditingEntry
      ensures history == old(history) && activePeriodIndex == old(activePeriodIndex)
      ensures employees == old(employees) && editingEmployee == old(editingEmployee)
    {
      isEditingEntry := true;
      formData := entry;
    }

    /** `handleInputChange`. */
    method HandleInputChange(input: Input)
      modifies this
      ensures formData == ApplyInputChange(old(formData), input)
      ensures isEditingEntry == old(isEditingEntry)
      ensures history == old(history) && activePeriodIndex == old(activePeriodIndex)
      ensures employees == old(employees) && editingEmployee == old(editingEmployee)
    {
      formData := ApplyInputChange(formData, input);
    }

    /** `handleSubmit`: an edit replaces the records of the form's period, an add
        inserts the form's record by date; the first record of the form's period
        becomes active, or the last record when none has it. */
    method HandleSubmit()
      requires Valid()
      modifies this
      ensures Valid()
      ensures history == if old(isEditingEntry) then ReplaceByPeriod(old(history), old(formData))
                         else AddRecord(old(history), old(formData))
      ensures activePeriodIndex == ActiveAfterSubmit(history, old(formData).period)
      ensures !old(isEditingEntry) ==> Sorted(history) && multiset(history) == multiset(old(history)) + multiset{old(formData)}
      ensures !old(isEditingEntry) ==> history[activePeriodIndex].period == old(formData).period
      ensures Sorted(old(history)) ==> Sorted(history)
      ensures formData == old(formData) && isEditingEntry == old(isEditingEntry)
      ensures employees == old(employees) && editingEmployee == old(editingEmployee)
    {
      var newHistory;
      if isEditingEntry {
        newHistory := ReplaceByPeriod(history, formData);
        EditKeepsPeriods(history, formData);
      } else {
        newHistory := AddRecord(history, formData);
        AddRecordSortedPermutation(history, formData);
        AddSelectsItsPeriod(history, formData);
      }
      history := newHistory;
      activePeriodIndex := ActiveAfterSubmit(newHistory, formData.period);
    }

    /** `deleteHistoryEntry` once the user has confirmed (nothing happens otherwise). */
    method DeleteHistoryEntry(index: int, confirmed: bool)
      requires Valid()
      modifies this
      ensures Valid()
      ensures !confirmed ==> history == old(history) && activePeriodIndex == old(activePeriodIndex)
      ensures confirmed ==> history == RemoveAt(old(history), index)
      ensures confirmed ==> activePeriodIndex == ClampActive(old(activePeriodIndex), |history|)
      ensures Sorted(old(history)) ==> Sorted(history)
      ensures formData == old(formData) && isEditingEntry == old(isEditingEntry)
      ensures employees == old(employees) && editingEmployee == old(editingEmployee)
    {
      if confirmed {
        var newHistory := RemoveAt(history, index);
        if Sorted(history) {
          RemoveAtKeepsSorted(history, index);
        }
        history := newHistory;
        if activePeriodIndex >= |newHistory| {
          activePeriodIndex := if |newHistory| - 1 < 0 then 0 else |newHistory| - 1;
        }
      }
    }

    /** Choosing a period in the history list. */
    method SelectPeriod(index: nat)
      requires index < |history|
      modifies this
      ensures Valid() && activePeriodIndex == index
      ensures history == old(history) && formData == old(formData) && isEditingEntry == old(isEditingEntry)
      ensures employees == old(employees) && editingEmployee == old(editingEmployee)
    {
      activePeriodIndex := index;
    }

    /** Opens the employee form, on an employee to edit or empty for an add. */
    method OpenPayrollModal(employee: Option<Employee>)
      modifies this
      ensures editingEmployee == employee && employees == old(employees)
      ensures history == old(history) && activePeriodIndex == old(activePeriodIndex)
      ensures formData == old(formData) && isEditingEntry == old(isEditingEntry)
    {
      editingEmployee := employee;
    }

    /** `handlePayrollSubmit` with the form's parsed fields and the id a new
        employee would get. */
    method HandlePayrollSubmit(name: string, baseSalary: real, allowances: real, bonus: real, freshId: string)
      modifies this
      ensures employees == Staff.SubmitEmployee(old(employees), old(editingEmployee),
                             Staff.NewEmployee(old(editingEmployee), name, baseSalary, allowances, bonus, freshId))
      ensures old(editingEmployee).None? ==> |employees| == |old(employees)| + 1
      ensures old(editingEmployee).Some? ==> |employees| == |old(employees)|
      ensures editingEmployee == None
      ensures history == old(history) && activePeriodIndex == old(activePeriodIndex)
      ensures formData == old(formData) && isEditingEntry == old(isEditingEntry)
    {
      var newEmp := Staff.NewEmployee(editingEmployee, name, baseSalary, allowances, bonus, freshId);
      employees := Staff.SubmitEmployee(employees, editingEmployee, newEmp);
      editingEmployee := None;
    }

    /** The delete button of a payroll row. */
    method DeleteEmployee(id: string)
      modifies this
      ensures employees == Staff.RemoveById(old(employees), id)
      ensures editingEmployee == old(editingEmployee)
      ensures history == old(history) && activePeriodIndex == old(activePeriodIndex)
      ensures formData == old(formData) && isEditingEntry == old(isEditingEntry)
    {
      employees := Staff.RemoveById(employees, id);
    }
  }
}

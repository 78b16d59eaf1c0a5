/** Shapes shared by the calculators and the dashboard state (types.ts). */
module Types {

  /** A reporting date, as its day number: ISO `YYYY-MM-DD` dates compare
      the same way as their day numbers, and two periods are the same key
      exactly when their day numbers are equal. */
  type Period = int

  /** A value that may be absent (`undefined`/`null` in the dashboard's data). */
  datatype Option<T> = None | Some(value: T)

  /** One period's balance sheet and income statement (FinancialData). */
  datatype FinancialData = FinancialData(
    period: Period,
    ativoCirculante: real,
    ativoNaoCirculante: real,
    estoques: real,
    disponibilidades: real,
    passivoCirculante: real,
    passivoNaoCirculante: real,
    patrimonioLiquido: real,
    receitaLiquida: real,
    lucroBruto: real,
    lucroOperacional: real,
    lucroLiquido: real,
    vendas: real,
    custos: real,
    receitaServicos: real,
    receitaTransportes: real,
    receitaPropinas: real,
    receitaFolhasProva: real,
    receitaUniformes: real)

  /** One person on the payroll; `allowances` are tax-exempt, `bonus` is taxable. */
  datatype Employee = Employee(
    id: string,
    name: string,
    baseSalary: real,
    allowances: real,
    bonus: real)

  /** The payroll computed for one employee. */
  datatype PayrollResult = PayrollResult(
    employeeId: string,
    grossSalary: real,
    inssWorker: real,
    irt: real,
    netSalary: real,
    inssEmployer: real,
    totalCost: real)

  /** The ten ratios derived from one FinancialData record. */
  datatype Indicators = Indicators(
    liquidezCorrente: real,
    liquidezSeca: real,
    liquidezImediata: real,
    endividamentoTotal: real,
    margemBruta: real,
    margemOperacional: real,
    margemLiquida: real,
    roi: real,
    roe: real,
    giroAtivos: real)

  /** Sum of the five revenue channels of a record. */
  function ChannelRevenue(d: FinancialData): real
  {
    d.receitaServicos + d.receitaTransportes + d.receitaPropinas
      + d.receitaFolhasProva + d.receitaUniformes
  }
}

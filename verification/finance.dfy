/** The calculators of utils/finance.ts: indicators, Angolan payroll, status colours.
    Arithmetic is exact: `real` stands for the intended decimal values. */
module Finance {
  import opened Types

  // ---------------------------------------------------------------------------
  // Indicators
  // ---------------------------------------------------------------------------

  /** `x || 1` on a number: a zero denominator is replaced by 1. */
  function OrOne(x: real): (r: real)
    ensures r != 0.0
    ensures x != 0.0 ==> r == x
    ensures x == 0.0 ==> r == 1.0
  {
    if x == 0.0 then 1.0 else x
  }

  /** Total assets: the one denominator shared by leverage, ROI and asset turnover. */
  function AtivoTotal(d: FinancialData): real
  {
    d.ativoCirculante + d.ativoNaoCirculante
  }

  /** The ten ratios of one record. Every ratio is its numerator divided by a
      denominator that is never zero: the record's own when it is nonzero, 1 otherwise. */
  function CalculateIndicators(d: FinancialData): (r: Indicators)
    ensures r.liquidezCorrente * OrOne(d.passivoCirculante) == d.ativoCirculante
    ensures r.liquidezSeca * OrOne(d.passivoCirculante) == d.ativoCirculante - d.estoques
    ensures r.liquidezImediata * OrOne(d.passivoCirculante) == d.disponibilidades
    ensures r.endividamentoTotal * OrOne(AtivoTotal(d)) == d.passivoCirculante + d.passivoNaoCirculante
    ensures r.margemBruta * OrOne(d.receitaLiquida) == d.lucroBruto
    ensures r.margemOperacional * OrOne(d.receitaLiquida) == d.lucroOperacional
    ensures r.margemLiquida * OrOne(d.receitaLiquida) == d.lucroLiquido
    ensures r.roi * OrOne(AtivoTotal(d)) == d.lucroLiquido
    ensures r.roe * OrOne(d.patrimonioLiquido) == d.lucroLiquido
    ensures r.giroAtivos * OrOne(AtivoTotal(d)) == d.receitaLiquida
  {
    var ativoTotal := AtivoTotal(d);
    Indicators(
      liquidezCorrente := d.ativoCirculante / OrOne(d.passivoCirculante),
      liquidezSeca := (d.ativoCirculante - d.estoques) / OrOne(d.passivoCirculante),
      liquidezImediata := d.disponibilidades / OrOne(d.passivoCirculante),
      endividamentoTotal := (d.passivoCirculante + d.passivoNaoCirculante) / OrOne(ativoTotal),
      margemBruta := d.lucroBruto / OrOne(d.receitaLiquida),
      margemOperacional := d.lucroOperacional / OrOne(d.receitaLiquida),
      margemLiquida := d.lucroLiquido / OrOne(d.receitaLiquida),
      roi := d.lucroLiquido / OrOne(ativoTotal),
      roe := d.lucroLiquido / OrOne(d.patrimonioLiquido),
      giroAtivos := d.receitaLiquida / OrOne(ativoTotal))
  }

  /** A zero denominator makes each ratio equal to its bare numerator. */
  lemma IndicatorsWithZeroDenominators(d: FinancialData)
    ensures var r := CalculateIndicators(d);
      (d.passivoCirculante == 0.0 ==>
         r.liquidezCorrente == d.ativoCirculante &&
         r.liquidezSeca == d.ativoCirculante - d.estoques &&
         r.liquidezImediata == d.disponibilidades) &&
      (d.receitaLiquida == 0.0 ==>
         r.margemBruta == d.lucroBruto &&
         r.margemOperacional == d.lucroOperacional &&
         r.margemLiquida == d.lucroLiquido) &&
      (AtivoTotal(d) == 0.0 ==>
         r.endividamentoTotal == d.passivoCirculante + d.passivoNaoCirculante &&
         r.roi == d.lucroLiquido &&
         r.giroAtivos == d.receitaLiquida) &&
      (d.patrimonioLiquido == 0.0 ==> r.roe == d.lucroLiquido)
  {
  }

  /** With nonzero denominators every ratio is the plain quotient. */
  lemma IndicatorsArePlainQuotients(d: FinancialData)
    ensures var r := CalculateIndicators(d);
      (d.passivoCirculante != 0.0 ==>
         r.liquidezCorrente == d.ativoCirculante / d.passivoCirculante &&
         r.liquidezSeca == (d.ativoCirculante - d.estoques) / d.passivoCirculante &&
         r.liquidezImediata == d.disponibilidades / d.passivoCirculante) &&
      (d.receitaLiquida != 0.0 ==>
         r.margemBruta == d.lucroBruto / d.receitaLiquida &&
         r.margemOperacional == d.lucroOperacional / d.receitaLiquida &&
         r.margemLiquida == d.lucroLiquido / d.receitaLiquida) &&
      (d.ativoCirculante + d.ativoNaoCirculante != 0.0 ==>
         r.endividamentoTotal == (d.passivoCirculante + d.passivoNaoCirculante) / (d.ativoCirculante + d.ativoNaoCirculante) &&
         r.roi == d.lucroLiquido / (d.ativoCirculante + d.ativoNaoCirculante) &&
         r.giroAtivos == d.receitaLiquida / (d.ativoCirculante + d.ativoNaoCirculante)) &&
      (d.patrimonioLiquido != 0.0 ==> r.roe == d.lucroLiquido / d.patrimonioLiquido)
  {
  }

  // ---------------------------------------------------------------------------
  // Payroll: INSS and IRT
  // ---------------------------------------------------------------------------

  const InssWorkerRate: real := 0.03
  const InssEmployerRate: real := 0.08

  /** Salary subject to INSS and IRT: base salary plus bonus; allowances are exempt. */
  function TaxableBase(emp: Employee): real
  {
    emp.baseSalary + emp.bonus
  }

  /** IRT on an IRT base: the six-bracket chain, each bracket a cumulative
      floor plus its rate on the excess over the bracket's lower bound. */
  function Irt(base: real): real
  {
    if base <= 100000.0 then 0.0
    else if base <= 150000.0 then (base - 100000.0) * 0.10
    else if base <= 200000.0 then 5000.0 + (base - 150000.0) * 0.125
    else if base <= 300000.0 then 11250.0 + (base - 200000.0) * 0.15
    else if base <= 500000.0 then 26250.0 + (base - 300000.0) * 0.19
    else 64250.0 + (base - 500000.0) * 0.25
  }

  /** One marginal band: its rate applies to the part of the base above `lower`
      (and below the next band's `lower`). */
  datatype Band = Band(lower: real, rate: real)

  /** The IRT table read as marginal bands; income up to 100000 is exempt. */
  const IrtBands: seq<Band> :=
    [Band(100000.0, 0.10), Band(150000.0, 0.125), Band(200000.0, 0.15),
     Band(300000.0, 0.19), Band(500000.0, 0.25)]

  function Max(a: real, b: real): real { if a < b then b else a }
  function Min(a: real, b: real): real { if a < b then a else b }

  /** Purely marginal tax: each band taxes, at its rate, the slice of `base`
      lying between its lower bound and the next band's lower bound
      (unbounded above for the last band). */
  function MarginalTax(bands: seq<Band>, base: real): real
  {
    if bands == [] then 0.0 else FirstBandTax(bands, base) + MarginalTax(bands[1..], base)
  }

  /** The tax of the first band alone: its rate on its slice of `base`. */
  function FirstBandTax(bands: seq<Band>, base: real): real
    requires bands != []
  {
    var top := if |bands| == 1 then base else Min(base, bands[1].lower);
    bands[0].rate * Max(0.0, top - bands[0].lower)
  }

  /** The bracket chain with its cumulative floors is exactly the marginal table:
      the floors 5000, 11250, 26250 and 64250 are the taxes of the full lower bands. */
  lemma {:induction false} IrtIsMarginal(base: real)
    ensures Irt(base) == MarginalTax(IrtBands, base)
  {
    var b4 := IrtBands[4..];
    var b3 := IrtBands[3..];
    var b2 := IrtBands[2..];
    var b1 := IrtBands[1..];
    assert b4 == [Band(500000.0, 0.25)];
    assert b3 == [Band(300000.0, 0.19)] + b4;
    assert b2 == [Band(200000.0, 0.15)] + b3;
    assert b1 == [Band(150000.0, 0.125)] + b2;
    assert b4[1..] == [];
    assert MarginalTax(b4[1..], base) == 0.0;
    assert MarginalTax(b4, base) == 0.25 * Max(0.0, base - 500000.0);
    assert MarginalTax(b3, base) == 0.19 * Max(0.0, Min(base, 500000.0) - 300000.0) + MarginalTax(b4, base);
    assert MarginalTax(b2, base) == 0.15 * Max(0.0, Min(base, 300000.0) - 200000.0) + MarginalTax(b3, base);
    assert MarginalTax(b1, base) == 0.125 * Max(0.0, Min(base, 200000.0) - 150000.0) + MarginalTax(b2, base);
    assert MarginalTax(IrtBands, base) == 0.10 * Max(0.0, Min(base, 150000.0) - 100000.0) + MarginalTax(b1, base);
  }

  /** r * a <= r * b for a nonnegative factor r. */
  lemma MulMonotone(r: real, a: real, b: real)
    requires 0.0 <= r && a <= b
    ensures r * a <= r * b
  {
    assert r * b - r * a == r * (b - a);
  }

  /** A marginal table with nonnegative rates never taxes a larger base less. */
  lemma {:induction false} MarginalTaxMonotone(bands: seq<Band>, x: real, y: real)
    requires forall i :: 0 <= i < |bands| ==> bands[i].rate >= 0.0
    requires x <= y
    ensures MarginalTax(bands, x) <= MarginalTax(bands, y)
  {
    if bands != [] {
      var topX := if |bands| == 1 then x else Min(x, bands[1].lower);
      var topY := if |bands| == 1 then y else Min(y, bands[1].lower);
      MulMonotone(bands[0].rate, Max(0.0, topX - bands[0].lower), Max(0.0, topY - bands[0].lower));
      assert FirstBandTax(bands, x) <= FirstBandTax(bands, y);
      MarginalTaxMonotone(bands[1..], x, y);
    }
  }

  /** A marginal table with nonnegative rates never yields a negative tax. */
  lemma {:induction false} MarginalTaxNonNegative(bands: seq<Band>, base: real)
    requires forall i :: 0 <= i < |bands| ==> bands[i].rate >= 0.0
    ensures MarginalTax(bands, base) >= 0.0
  {
    if bands != [] {
      var top := if |bands| == 1 then base else Min(base, bands[1].lower);
      MulMonotone(bands[0].rate, 0.0, Max(0.0, top - bands[0].lower));
      assert FirstBandTax(bands, base) >= 0.0;
      MarginalTaxNonNegative(bands[1..], base);
    }
  }

  /** The table is progressive: IRT is nonnegative and never decreases as the IRT base grows. */
  lemma IrtProgressive(x: real, y: real)
    requires x <= y
    ensures 0.0 <= Irt(x) <= Irt(y)
  {
    IrtIsMarginal(x);
    IrtIsMarginal(y);
    MarginalTaxNonNegative(IrtBands, x);
    MarginalTaxMonotone(IrtBands, x, y);
  }

  /** The exemption: no IRT is due on an IRT base of at most 100000 Kz. */
  lemma IrtExemption(base: real)
    ensures base <= 100000.0 <==> Irt(base) == 0.0
  {
  }

  /** The brackets meet at their seams: at each upper bound the tax is the next
      bracket's floor, and the next bracket's formula gives the same value there. */
  lemma IrtSeams()
    ensures Irt(100000.0) == 0.0 == (100000.0 - 100000.0) * 0.10
    ensures Irt(150000.0) == 5000.0 == 5000.0 + (150000.0 - 150000.0) * 0.125
    ensures Irt(200000.0) == 11250.0 == 11250.0 + (200000.0 - 200000.0) * 0.15
    ensures Irt(300000.0) == 26250.0 == 26250.0 + (300000.0 - 300000.0) * 0.19
    ensures Irt(500000.0) == 64250.0 == 64250.0 + (500000.0 - 500000.0) * 0.25
  {
  }

  /** No rate above 25%: on a nonnegative base the IRT is at most a quarter of it. */
  lemma IrtAtMostTopRate(base: real)
    requires base >= 0.0
    ensures Irt(base) <= 0.25 * base
  {
  }

  /** The payroll of one employee (calculatePayroll). */
  function CalculatePayroll(emp: Employee): (r: PayrollResult)
    ensures r.employeeId == emp.id
    ensures r.inssWorker == InssWorkerRate * TaxableBase(emp)
    ensures r.inssEmployer == InssEmployerRate * TaxableBase(emp)
    ensures r.irt == Irt(TaxableBase(emp) - r.inssWorker) && r.irt >= 0.0
    ensures r.grossSalary == emp.baseSalary + emp.allowances + emp.bonus
    ensures r.netSalary + r.inssWorker + r.irt == r.grossSalary
    ensures r.totalCost - r.inssEmployer == r.grossSalary
  {
    var taxableBase := TaxableBase(emp);
    var inssWorker := taxableBase * 0.03;
    var inssEmployer := taxableBase * 0.08;
    var irt := Irt(taxableBase - inssWorker);
    IrtProgressive(taxableBase - inssWorker, taxableBase - inssWorker);
    var grossSalary := emp.baseSalary + emp.allowances + emp.bonus;
    PayrollResult(
      employeeId := emp.id,
      grossSalary := grossSalary,
      inssWorker := inssWorker,
      irt := irt,
      netSalary := grossSalary - inssWorker - irt,
      inssEmployer := inssEmployer,
      totalCost := grossSalary + inssEmployer)
  }

  /** Allowances are outside the taxable base: raising them by `extra` leaves
      INSS and IRT unchanged and passes `extra` through to gross, net and cost. */
  lemma AllowancesAreUntaxed(emp: Employee, extra: real)
    ensures var r := CalculatePayroll(emp);
      var r' := CalculatePayroll(emp.(allowances := emp.allowances + extra));
      r'.inssWorker == r.inssWorker && r'.inssEmployer == r.inssEmployer && r'.irt == r.irt &&
      r'.grossSalary == r.grossSalary + extra &&
      r'.netSalary == r.netSalary + extra &&
      r'.totalCost == r.totalCost + extra
  {
  }

  /** An employee whose IRT base (97% of the taxable base) is at most 100000 Kz
      pays no IRT, and only the 3% INSS is withheld from the gross salary. */
  lemma PayrollExemption(emp: Employee)
    requires TaxableBase(emp) - InssWorkerRate * TaxableBase(emp) <= 100000.0
    ensures CalculatePayroll(emp).irt == 0.0
    ensures CalculatePayroll(emp).netSalary == CalculatePayroll(emp).grossSalary - 0.03 * TaxableBase(emp)
  {
    IrtExemption(TaxableBase(emp) - InssWorkerRate * TaxableBase(emp));
  }

  /** With a nonnegative taxable base the withholdings never exceed it: net pay
      lies between the allowances plus 72.75% of the taxable base and the gross salary. */
  lemma NetSalaryBounds(emp: Employee)
    requires TaxableBase(emp) >= 0.0
    ensures var r := CalculatePayroll(emp);
      emp.allowances + 0.7275 * TaxableBase(emp) <= r.netSalary <= r.grossSalary
  {
    var t := TaxableBase(emp);
    IrtAtMostTopRate(t - 0.03 * t);
    IrtProgressive(t - 0.03 * t, t - 0.03 * t);
  }

  /** The default employee of the dashboard: base 250000, allowances 45000, bonus 10000. */
  lemma DefaultEmployeePayroll()
    ensures CalculatePayroll(Employee("1", "João Manuel", 250000.0, 45000.0, 10000.0))
         == PayrollResult("1", 305000.0, 7800.0, 19080.0, 278120.0, 20800.0, 325800.0)
  {
  }

  // ---------------------------------------------------------------------------
  // Status colour of an analysis section
  // ---------------------------------------------------------------------------

  /** The four badge colours of an analysis section's status. */
  datatype Badge = Emerald | Amber | Blue | Slate

  /** The style classes of each badge colour. */
  function ClassName(b: Badge): string
  {
    match b
    case Emerald => "bg-emerald-100 text-emerald-700 border-emerald-200"
    case Amber => "bg-amber-100 text-amber-700 border-amber-200"
    case Blue => "bg-blue-100 text-blue-700 border-blue-200"
    case Slate => "bg-slate-100 text-slate-700 border-slate-200"
  }

  /** Lower-case mapping of one character (ASCII letters only). */
  function LowerChar(c: char): char
  {
    if 'A' <= c <= 'Z' then (c as int + 32) as char else c
  }

  /** `toLowerCase`: maps every character to its lower-case form. */
  function ToLower(s: string): (r: string)
    ensures |r| == |s|
    ensures forall i :: 0 <= i < |s| ==> r[i] == LowerChar(s[i])
  {
    if s == [] then [] else [LowerChar(s[0])] + ToLower(s[1..])
  }

  /** Lower-casing twice is lower-casing once. */
  lemma ToLowerIdempotent(s: string)
    ensures ToLower(ToLower(s)) == ToLower(s)
  {
  }

  /** `p` occurs in `s` at some position. */
  ghost predicate Occurs(p: string, s: string)
  {
    exists i :: 0 <= i <= |s| && p <= s[i..]
  }

  /** An occurrence that is not at the front of `s` is an occurrence in `s[1..]`, and back. */
  lemma OccursInTail(p: string, s: string)
    requires s != [] && !(p <= s)
    ensures Occurs(p, s) <==> Occurs(p, s[1..])
  {
    if Occurs(p, s) {
      var i :| 0 <= i <= |s| && p <= s[i..];
      assert i != 0;
      assert s[1..][i - 1..] == s[i..];
    }
    if Occurs(p, s[1..]) {
      var i :| 0 <= i <= |s[1..]| && p <= s[1..][i..];
      assert s[i + 1..] == s[1..][i..];
    }
  }

  /** `s.includes(p)`: whether `p` is a substring of `s`. */
  function Includes(s: string, p: string): (b: bool)
    ensures b <==> Occurs(p, s)
    decreases |s|
  {
    if p <= s then assert s[0..] == s; true
    else if s == [] then false
    else OccursInTail(p, s); Includes(s[1..], p)
  }

  /** `(status || '')`: an absent status reads as the empty string. */
  function StatusText(status: Option<string>): string
  {
    match status
    case None => ""
    case Some(s) => s
  }

  /** The badge colour of an analysis status: the first of green ("otimista",
      "bom"), amber ("alerta", "risco"), blue ("neutro") whose words occur in
      the lower-cased status, slate otherwise. */
  function StatusBadge(status: Option<string>): (b: Badge)
    ensures var s := ToLower(StatusText(status));
      var green := Occurs("otimista", s) || Occurs("bom", s);
      var amber := Occurs("alerta", s) || Occurs("risco", s);
      var blue := Occurs("neutro", s);
      (b == Emerald <==> green) &&
      (b == Amber <==> !green && amber) &&
      (b == Blue <==> !green && !amber && blue) &&
      (b == Slate <==> !green && !amber && !blue)
  {
    var s := ToLower(StatusText(status));
    if Includes(s, "otimista") || Includes(s, "bom") then Emerald
    else if Includes(s, "alerta") || Includes(s, "risco") then Amber
    else if Includes(s, "neutro") then Blue
    else Slate
  }

  /** `getStatusColor`: the style classes of the status's badge. */
  function GetStatusColor(status: Option<string>): (r: string)
    ensures var s := ToLower(StatusText(status));
      var green := Occurs("otimista", s) || Occurs("bom", s);
      var amber := Occurs("alerta", s) || Occurs("risco", s);
      var blue := Occurs("neutro", s);
      (r == ClassName(Emerald) <==> green) &&
      (r == ClassName(Amber) <==> !green && amber) &&
      (r == ClassName(Blue) <==> !green && !amber && blue) &&
      (r == ClassName(Slate) <==> !green && !amber && !blue)
  {
    var b := StatusBadge(status);
    ClassNameInjective(b, Emerald);
    ClassNameInjective(b, Amber);
    ClassNameInjective(b, Blue);
    ClassNameInjective(b, Slate);
    ClassName(b)
  }

  /** Different colours have different style classes: they differ in the
      fourth character, the initial of the colour's name. */
  lemma ClassNameInjective(a: Badge, b: Badge)
    ensures ClassName(a) == ClassName(b) ==> a == b
  {
    if ClassName(a) == ClassName(b) {
      assert ClassName(a)[3] == ClassName(b)[3];
    }
  }

  /** The colour does not depend on letter case. */
  lemma StatusColorIgnoresCase(s: string)
    ensures StatusBadge(Some(s)) == StatusBadge(Some(ToLower(s)))
  {
    ToLowerIdempotent(s);
  }

  /** An absent or empty status gets the default slate colour. */
  lemma EmptyStatusIsSlate()
    ensures StatusBadge(None) == Slate
    ensures StatusBadge(Some("")) == Slate
  {
  }

  /** A word with a letter that `s` lacks does not occur in `s`. */
  lemma AbsentLetter(p: string, s: string, c: char)
    requires c in p && c !in s
    ensures !Occurs(p, s)
  {
  }

  /** The schema's optimistic tag is green. */
  lemma OptimisticTagIsGreen()
    ensures StatusBadge(Some("Otimista")) == Emerald
  {
    assert ToLower("Otimista") == "otimista";
    assert "otimista" <= "otimista"[0..];
  }

  /** The schema's alert tag is amber. */
  lemma AlertTagIsAmber()
    ensures StatusBadge(Some("Alerta")) == Amber
  {
    assert ToLower("Alerta") == "alerta";
    assert "alerta" <= "alerta"[0..];
    AbsentLetter("otimista", "alerta", 'o');
    AbsentLetter("bom", "alerta", 'b');
  }

  /** The schema's neutral tag is blue. */
  lemma NeutralTagIsBlue()
    ensures StatusBadge(Some("Neutro")) == Blue
  {
    assert ToLower("Neutro") == "neutro";
    assert "neutro" <= "neutro"[0..];
    AbsentLetter("otimista", "neutro", 'i');
    AbsentLetter("bom", "neutro", 'b');
    AbsentLetter("alerta", "neutro", 'a');
    AbsentLetter("risco", "neutro", 'i');
  }
}

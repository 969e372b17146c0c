/** The financial metrics of a deal: income, NOI, cap rate, the capital
    structure at a loan-to-value ratio, debt service, cash-on-cash and DSCR. */
module Metrics {
  import opened Amortization

  /** A debt-service coverage ratio. A deal whose annual debt service is not
      positive has unbounded coverage, kept apart from every finite value. */
  datatype Dscr = Finite(value: real) | Infinite

  /** `d >= threshold`, where unbounded coverage clears every threshold. */
  predicate AtLeast(d: Dscr, threshold: real)
  {
    match d
    case Infinite => true
    case Finite(v) => v >= threshold
  }

  /** The order on coverage ratios: finite values by size, unbounded above all. */
  predicate DscrLe(a: Dscr, b: Dscr)
  {
    match (a, b)
    case (_, Infinite) => true
    case (Infinite, Finite(_)) => false
    case (Finite(x), Finite(y)) => x <= y
  }

  /** The order on coverage ratios is the one the thresholds see: a larger
      ratio clears every threshold a smaller one clears. */
  lemma DscrLeAtLeast(a: Dscr, b: Dscr, threshold: real)
    requires DscrLe(a, b)
    ensures AtLeast(a, threshold) ==> AtLeast(b, threshold)
  {
  }

  /** Financing inputs of a deal. Percentages are in percent. */
  datatype Deal = Deal(
    price: real,
    vacancyPct: real,
    opexPct: real,
    ltvPct: int,
    annualRatePct: real,
    years: int)

  /** The capital structure and debt service at one loan-to-value ratio. */
  datatype Financing = Financing(loan: real, equity: real, monthlyDebt: real, annualDebt: real)

  /** The operating side of a deal, per year except the monthly rent. */
  datatype Income = Income(adjustedRent: real, grossIncome: real, operatingExpenses: real, noi: real)

  datatype FinancialMetrics = FinancialMetrics(
    income: Income,
    capRate: real,
    financing: Financing,
    cashOnCash: real,
    dscr: Dscr)

  /** NOI as a percentage of the price; 0 when the price is not positive. */
  function CapRate(noi: real, price: real): (c: real)
    ensures price <= 0.0 ==> c == 0.0
    ensures price > 0.0 ==> c * price == noi * 100.0
  {
    if price > 0.0 then noi / price * 100.0 else 0.0
  }

  /** Cash flow after debt service as a percentage of the equity; 0 when
      the equity is not positive. */
  function CashOnCash(noi: real, annualDebt: real, equity: real): (c: real)
    ensures equity <= 0.0 ==> c == 0.0
    ensures equity > 0.0 ==> c * equity == (noi - annualDebt) * 100.0
    ensures equity > 0.0 ==> (c >= 0.0 <==> noi >= annualDebt)
  {
    if equity > 0.0 then (noi - annualDebt) / equity * 100.0 else 0.0
  }

  /** NOI over annual debt service; unbounded when there is no debt service. */
  function Coverage(noi: real, annualDebt: real): (d: Dscr)
    ensures d == Infinite <==> annualDebt <= 0.0
    ensures d.Finite? ==> d.value * annualDebt == noi
  {
    if annualDebt > 0.0 then Finite(noi / annualDebt) else Infinite
  }

  /** With NOI fixed and not negative, more debt service never raises coverage. */
  lemma CoverageNonIncreasing(noi: real, debt1: real, debt2: real)
    requires noi >= 0.0 && debt1 <= debt2
    ensures DscrLe(Coverage(noi, debt2), Coverage(noi, debt1))
  {
    if debt1 > 0.0 {
      assert noi / debt2 <= noi / debt1 by {
        assert noi / debt2 * debt2 == noi == noi / debt1 * debt1;
        assert noi / debt2 * debt1 <= noi / debt2 * debt2;
      }
    }
  }

  /** Loan, equity and debt service of buying at `price` with `ltvPct` percent
      financed at `annualRatePct` over `years`. */
  function Leverage(price: real, ltvPct: int, annualRatePct: real, years: int): (f: Financing)
    requires annualRatePct > -1200.0
    ensures f.loan * 100.0 == price * (ltvPct as real)
    ensures f.loan + f.equity == price
    ensures f.monthlyDebt == MonthlyPayment(f.loan, annualRatePct, years)
    ensures f.annualDebt == f.monthlyDebt * 12.0
    ensures f.loan <= 0.0 || years <= 0 ==> f.annualDebt == 0.0
    ensures f.loan > 0.0 && years > 0 ==> f.annualDebt > 0.0
  {
    var loan := price * ((ltvPct as real) / 100.0);
    var monthly := MonthlyPayment(loan, annualRatePct, years);
    Financing(loan, price - loan, monthly, monthly * 12.0)
  }

  /** Income from the predicted monthly rent and the zone's rent factor:
      a year of the adjusted rent less vacancy is the gross income, operating
      expenses are a share of it, and NOI is what remains. */
  function OperatingIncome(rawRent: real, rentFactor: real, vacancyPct: real, opexPct: real): (i: Income)
    ensures i.adjustedRent == rawRent * rentFactor
    ensures i.grossIncome == i.adjustedRent * 12.0 * (1.0 - vacancyPct / 100.0)
    ensures i.operatingExpenses + i.noi == i.grossIncome
    ensures i.noi == i.grossIncome * (1.0 - opexPct / 100.0)
  {
    var adjusted := rawRent * rentFactor;
    var gross := adjusted * 12.0 * (1.0 - vacancyPct / 100.0);
    var opex := gross * (opexPct / 100.0);
    Income(adjusted, gross, opex, gross - opex)
  }

  /** A rent that is not negative, with vacancy and operating expenses of at
      most 100 percent, gives a NOI that is not negative. */
  lemma NoiNonNegative(rawRent: real, rentFactor: real, vacancyPct: real, opexPct: real)
    requires rawRent >= 0.0 && rentFactor >= 0.0 && vacancyPct <= 100.0 && opexPct <= 100.0
    ensures OperatingIncome(rawRent, rentFactor, vacancyPct, opexPct).noi >= 0.0
  {
    var i := OperatingIncome(rawRent, rentFactor, vacancyPct, opexPct);
    assert i.adjustedRent >= 0.0;
    assert i.grossIncome >= 0.0;
  }

  /** The metrics of a deal from the predicted monthly rent and the zone's
      rent factor, in the order the engine derives them: NOI first, then the
      cap rate on the price, the capital structure at the deal's LTV and its
      debt service, and the two returns that combine NOI with debt service.
      Degenerate inputs give sentinels, never a failure. */
  function Compute(rawRent: real, rentFactor: real, d: Deal): (m: FinancialMetrics)
    requires d.annualRatePct > -1200.0
    ensures m.income == OperatingIncome(rawRent, rentFactor, d.vacancyPct, d.opexPct)
    ensures m.financing == Leverage(d.price, d.ltvPct, d.annualRatePct, d.years)
    ensures m.capRate == CapRate(m.income.noi, d.price)
    ensures m.cashOnCash == CashOnCash(m.income.noi, m.financing.annualDebt, m.financing.equity)
    ensures m.dscr == Coverage(m.income.noi, m.financing.annualDebt)
    ensures d.price <= 0.0 ==> m.capRate == 0.0
    ensures m.financing.equity <= 0.0 ==> m.cashOnCash == 0.0
    ensures m.dscr == Infinite <==> m.financing.annualDebt <= 0.0
    ensures d.ltvPct == 0 || d.years <= 0 ==> m.dscr == Infinite
  {
    var i := OperatingIncome(rawRent, rentFactor, d.vacancyPct, d.opexPct);
    var f := Leverage(d.price, d.ltvPct, d.annualRatePct, d.years);
    FinancialMetrics(
      i,
      CapRate(i.noi, d.price),
      f,
      CashOnCash(i.noi, f.annualDebt, f.equity),
      Coverage(i.noi, f.annualDebt))
  }

  /** A cash purchase (nothing financed) has unbounded coverage and a
      cash-on-cash return equal to the cap rate. */
  lemma CashDeal(rawRent: real, rentFactor: real, d: Deal)
    requires d.annualRatePct > -1200.0 && d.price > 0.0 && d.ltvPct == 0
    ensures Compute(rawRent, rentFactor, d).dscr == Infinite
    ensures Compute(rawRent, rentFactor, d).cashOnCash == Compute(rawRent, rentFactor, d).capRate
  {
    var m := Compute(rawRent, rentFactor, d);
    assert m.financing.equity == d.price;
    assert m.financing.annualDebt == 0.0;
  }
}

/** The leverage sensitivity table: coverage and cash-on-cash recomputed at
    five loan-to-value ratios, with NOI, rate and term held at the main
    scenario's values. */
module Sensitivity {
  import opened Amortization
  import opened Metrics

  /** The loan-to-value ratios of the table, in percent. */
  const LtvRange: seq<int> := [50, 60, 70, 80, 90]

  datatype SensitivityRow = SensitivityRow(ltvPct: int, dscr: Dscr, cashOnCash: real)

  /** The row for one loan-to-value ratio: only the capital structure and its
      debt service change; `noi`, the rate and the term are given. */
  function Row(price: real, noi: real, annualRatePct: real, years: int, ltvPct: int): (row: SensitivityRow)
    requires annualRatePct > -1200.0
    ensures row.ltvPct == ltvPct
    ensures row.dscr == Coverage(noi, Leverage(price, ltvPct, annualRatePct, years).annualDebt)
    ensures row.cashOnCash ==
      CashOnCash(noi, Leverage(price, ltvPct, annualRatePct, years).annualDebt,
                 Leverage(price, ltvPct, annualRatePct, years).equity)
  {
    var f := Leverage(price, ltvPct, annualRatePct, years);
    SensitivityRow(ltvPct, Coverage(noi, f.annualDebt), CashOnCash(noi, f.annualDebt, f.equity))
  }

  /** The whole table: one row per ratio of `LtvRange`, in that order. */
  function Table(price: real, noi: real, annualRatePct: real, years: int): (t: seq<SensitivityRow>)
    requires annualRatePct > -1200.0
    ensures |t| == |LtvRange|
    ensures forall i :: 0 <= i < |t| ==> t[i] == Row(price, noi, annualRatePct, years, LtvRange[i])
  {
    seq(|LtvRange|, i requires 0 <= i < |LtvRange| => Row(price, noi, annualRatePct, years, LtvRange[i]))
  }

  /** Builds the table row by row, appending each ratio's row to those before. */
  method SensitivityTable(price: real, noi: real, annualRatePct: real, years: int)
    returns (rows: seq<SensitivityRow>)
    requires annualRatePct > -1200.0
    ensures rows == Table(price, noi, annualRatePct, years)
  {
    rows := [];
    for k := 0 to |LtvRange|
      invariant |rows| == k
      invariant forall j :: 0 <= j < k ==> rows[j] == Row(price, noi, annualRatePct, years, LtvRange[j])
    {
      var ltv := LtvRange[k];
      var loan := price * ((ltv as real) / 100.0);
      var equity := price - loan;
      var monthly := MonthlyPayment(loan, annualRatePct, years);
      var annual := monthly * 12.0;
      var dscr := if annual > 0.0 then Finite(noi / annual) else Infinite;
      var coc := if equity > 0.0 then (noi - annual) / equity * 100.0 else 0.0;
      rows := rows + [SensitivityRow(ltv, dscr, coc)];
    }
  }

  /** Five rows, at ratios 50, 60, 70, 80 and 90 in increasing order. */
  lemma TableShape(price: real, noi: real, annualRatePct: real, years: int)
    requires annualRatePct > -1200.0
    ensures |Table(price, noi, annualRatePct, years)| == 5
    ensures forall i :: 0 <= i < 5 ==> Table(price, noi, annualRatePct, years)[i].ltvPct == 50 + 10 * i
  {
  }

  /** The row at a deal's own ratio repeats the deal's coverage and
      cash-on-cash, so every row is the main scenario at another leverage. */
  lemma RowAtDealRatio(rawRent: real, rentFactor: real, d: Deal)
    requires d.annualRatePct > -1200.0
    ensures var m := Compute(rawRent, rentFactor, d);
      Row(d.price, m.income.noi, d.annualRatePct, d.years, d.ltvPct) ==
      SensitivityRow(d.ltvPct, m.dscr, m.cashOnCash)
  {
  }

  lemma LoanIncreasing(price: real, ltv1: int, ltv2: int)
    requires price > 0.0 && ltv1 < ltv2
    ensures price * ((ltv1 as real) / 100.0) < price * ((ltv2 as real) / 100.0)
  {
  }

  /** More leverage never lowers the annual debt service; with a positive
      price and term it strictly raises it. */
  lemma DebtServiceMonotone(price: real, annualRatePct: real, years: int, ltv1: int, ltv2: int)
    requires annualRatePct > -1200.0 && 0 <= ltv1 <= ltv2
    ensures Leverage(price, ltv1, annualRatePct, years).annualDebt
         <= Leverage(price, ltv2, annualRatePct, years).annualDebt
    ensures price > 0.0 && years > 0 && ltv1 < ltv2 ==>
      Leverage(price, ltv1, annualRatePct, years).annualDebt
         < Leverage(price, ltv2, annualRatePct, years).annualDebt
  {
    var f1 := Leverage(price, ltv1, annualRatePct, years);
    var f2 := Leverage(price, ltv2, annualRatePct, years);
    if price > 0.0 && years > 0 && ltv1 < ltv2 {
      LoanIncreasing(price, ltv1, ltv2);
      PaymentStrictlyIncreasing(f1.loan, f2.loan, annualRatePct, years);
    } else if price <= 0.0 {
      assert f2.loan <= 0.0;
    }
  }

  /** Down the table the annual debt service strictly rises (for a positive
      price and term) and, for a NOI that is not negative, the coverage never
      rises. */
  lemma TableMonotone(price: real, noi: real, annualRatePct: real, years: int)
    requires annualRatePct > -1200.0 && noi >= 0.0
    ensures forall i, j :: 0 <= i < j < |LtvRange| ==>
      DscrLe(Table(price, noi, annualRatePct, years)[j].dscr, Table(price, noi, annualRatePct, years)[i].dscr)
    ensures price > 0.0 && years > 0 ==> forall i, j :: 0 <= i < j < |LtvRange| ==>
      Leverage(price, LtvRange[i], annualRatePct, years).annualDebt
        < Leverage(price, LtvRange[j], annualRatePct, years).annualDebt
  {
    var t := Table(price, noi, annualRatePct, years);
    forall i, j | 0 <= i < j < |LtvRange|
      ensures DscrLe(t[j].dscr, t[i].dscr)
      ensures price > 0.0 && years > 0 ==>
        Leverage(price, LtvRange[i], annualRatePct, years).annualDebt
          < Leverage(price, LtvRange[j], annualRatePct, years).annualDebt
    {
      var f1 := Leverage(price, LtvRange[i], annualRatePct, years);
      var f2 := Leverage(price, LtvRange[j], annualRatePct, years);
      DebtServiceMonotone(price, annualRatePct, years, LtvRange[i], LtvRange[j]);
      CoverageNonIncreasing(noi, f1.annualDebt, f2.annualDebt);
    }
  }
}

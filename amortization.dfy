/** The level monthly payment of a fully amortising loan (`pago_mensual`). */
module Amortization {

  /** x raised to the natural power n. */
  function Pow(x: real, n: nat): real
  {
    if n == 0 then 1.0 else x * Pow(x, n - 1)
  }

  lemma {:induction false} PowPositive(x: real, n: nat)
    requires x > 0.0
    ensures Pow(x, n) > 0.0
  {
    if n > 0 {
      PowPositive(x, n - 1);
    }
  }

  /** A base above one stays above one under a positive power. */
  lemma {:induction false} PowAboveOne(x: real, n: nat)
    requires x > 1.0 && n > 0
    ensures Pow(x, n) > 1.0
  {
    if n > 1 {
      PowAboveOne(x, n - 1);
    }
  }

  /** A base strictly between zero and one stays below one under a positive power. */
  lemma {:induction false} PowBelowOne(x: real, n: nat)
    requires 0.0 < x < 1.0 && n > 0
    ensures 0.0 < Pow(x, n) < 1.0
  {
    if n > 1 {
      PowBelowOne(x, n - 1);
    }
  }

  /** The monthly rate of an annual percentage rate. */
  function MonthlyRate(annualRatePct: real): real
  {
    annualRatePct / 100.0 / 12.0
  }

  /** The number of monthly payments over a term in whole years. */
  function Periods(years: int): int
  {
    years * 12
  }

  /** The annuity denominator 1 - (1 + r)^-n. */
  function Discount(r: real, n: nat): real
    requires r > -1.0
  {
    PowPositive(1.0 + r, n);
    1.0 - 1.0 / Pow(1.0 + r, n)
  }

  /** For a nonzero monthly rate above -100% and at least one period, the
      annuity denominator has the sign of the rate, so `r / Discount(r, n)`
      is positive. */
  lemma DiscountSign(r: real, n: nat)
    requires r > -1.0 && r != 0.0 && n > 0
    ensures r > 0.0 ==> Discount(r, n) > 0.0
    ensures r < 0.0 ==> Discount(r, n) < 0.0
    ensures r / Discount(r, n) > 0.0
  {
    if r > 0.0 {
      PowAboveOne(1.0 + r, n);
    } else {
      PowBelowOne(1.0 + r, n);
    }
  }

  /** The level payment that amortises `loan` over n periods at a nonzero
      periodic rate r: it solves p * (1 - (1 + r)^-n) = loan * r, and it is
      positive exactly when the loan is. */
  function Annuity(loan: real, r: real, n: nat): (p: real)
    requires r > -1.0 && r != 0.0 && n > 0
    ensures p * Discount(r, n) == loan * r
    ensures p > 0.0 <==> loan > 0.0
  {
    DiscountSign(r, n);
    RatioSign(loan, r, Discount(r, n));
    loan * r / Discount(r, n)
  }

  /** The monthly payment on `loan` at `annualRatePct` over `years`.
      No debt or no term gives no payment; a zero rate repays the loan in
      equal instalments; otherwise the level payment p solves the annuity
      equation p * (1 - (1 + r)^-n) = loan * r. */
  function MonthlyPayment(loan: real, annualRatePct: real, years: int): (p: real)
    requires annualRatePct > -1200.0
    ensures loan <= 0.0 || years <= 0 ==> p == 0.0
    ensures loan > 0.0 && years > 0 ==> p > 0.0
    ensures loan > 0.0 && years > 0 && annualRatePct == 0.0 ==>
      p * (Periods(years) as real) == loan
    ensures loan > 0.0 && years > 0 && annualRatePct != 0.0 ==>
      p * Discount(MonthlyRate(annualRatePct), Periods(years)) == loan * MonthlyRate(annualRatePct)
  {
    if loan <= 0.0 || years <= 0 then
      0.0
    else
      var r := MonthlyRate(annualRatePct);
      var n := Periods(years);
      if r == 0.0 then
        loan / (n as real)
      else
        Annuity(loan, r, n)
  }

  /** Scaling by a positive ratio keeps a strict order. */
  lemma RatioPreservesOrder(a: real, b: real, r: real, d: real)
    requires a < b && d != 0.0 && r / d > 0.0
    ensures a * r / d < b * r / d
  {
  }

  /** Scaling by a positive ratio keeps the sign. */
  lemma RatioSign(a: real, r: real, d: real)
    requires d != 0.0 && r / d > 0.0
    ensures a * r / d > 0.0 <==> a > 0.0
  {
  }

  lemma AnnuityStrictlyIncreasing(loan1: real, loan2: real, r: real, n: nat)
    requires r > -1.0 && r != 0.0 && n > 0
    requires loan1 < loan2
    ensures Annuity(loan1, r, n) < Annuity(loan2, r, n)
  {
    DiscountSign(r, n);
    RatioPreservesOrder(loan1, loan2, r, Discount(r, n));
  }

  lemma StraightLineStrictlyIncreasing(loan1: real, loan2: real, years: int)
    requires years > 0
    requires 0.0 < loan1 < loan2
    ensures MonthlyPayment(loan1, 0.0, years) < MonthlyPayment(loan2, 0.0, years)
  {
    RatioPreservesOrder(loan1, loan2, 1.0, Periods(years) as real);
  }

  /** For a fixed rate and positive term, a larger loan (of which at least the
      larger is positive) has a strictly larger payment. */
  lemma PaymentStrictlyIncreasing(loan1: real, loan2: real, annualRatePct: real, years: int)
    requires annualRatePct > -1200.0 && years > 0
    requires loan1 < loan2 && loan2 > 0.0
    ensures MonthlyPayment(loan1, annualRatePct, years) < MonthlyPayment(loan2, annualRatePct, years)
  {
    if loan1 <= 0.0 {
    } else if annualRatePct == 0.0 {
      StraightLineStrictlyIncreasing(loan1, loan2, years);
    } else {
      AnnuityStrictlyIncreasing(loan1, loan2, MonthlyRate(annualRatePct), Periods(years));
    }
  }

  /** A loan of 1,000,000 at a zero rate over 20 years is repaid in 240 equal
      payments. */
  lemma StraightLineExample()
    ensures MonthlyPayment(1000000.0, 0.0, 20) * 240.0 == 1000000.0
  {
  }
}

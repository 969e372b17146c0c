/** The deal score (`calcular_score`): five bands whose points are added,
    and the label the score earns. */
module Scoring {
  import opened Metrics

  /** Points for the cap rate measured against the zone's target yield. */
  function RentabilityPoints(capRate: real, target: real): (pts: int)
    ensures 1 <= pts <= 4
    ensures pts == 4 <==> capRate >= target + 1.0
    ensures pts == 3 <==> target - 0.3 <= capRate < target + 1.0
    ensures pts == 2 <==> target - 1.0 <= capRate < target - 0.3
    ensures pts == 1 <==> capRate < target - 1.0
  {
    if capRate >= target + 1.0 then 4
    else if capRate >= target - 0.3 then 3
    else if capRate >= target - 1.0 then 2
    else 1
  }

  /** Points for the zone's risk tier: lower risk earns more. */
  function RiskPoints(risk: int): (pts: int)
    ensures 1 <= pts <= 3
    ensures pts == 3 <==> risk <= 2
    ensures pts == 2 <==> risk == 3
    ensures pts == 1 <==> risk >= 4
  {
    if risk <= 2 then 3
    else if risk == 3 then 2
    else 1
  }

  /** Points for the assumed vacancy percentage: lower vacancy earns more. */
  function VacancyPoints(vacancyPct: real): (pts: int)
    ensures 1 <= pts <= 3
    ensures pts == 3 <==> vacancyPct <= 4.0
    ensures pts == 2 <==> 4.0 < vacancyPct <= 7.0
    ensures pts == 1 <==> vacancyPct > 7.0
  {
    if vacancyPct <= 4.0 then 3
    else if vacancyPct <= 7.0 then 2
    else 1
  }

  /** Points for the cash-on-cash return, in percent. */
  function CashOnCashPoints(coc: real): (pts: int)
    ensures 0 <= pts <= 3
    ensures pts == 3 <==> coc >= 10.0
    ensures pts == 2 <==> 7.0 <= coc < 10.0
    ensures pts == 1 <==> 5.0 <= coc < 7.0
    ensures pts == 0 <==> coc < 5.0
  {
    if coc >= 10.0 then 3
    else if coc >= 7.0 then 2
    else if coc >= 5.0 then 1
    else 0
  }

  /** Points for the coverage ratio; unbounded coverage clears every band. */
  function DscrPoints(dscr: Dscr): (pts: int)
    ensures 0 <= pts <= 3
    ensures pts == 3 <==> AtLeast(dscr, 1.5)
    ensures pts == 2 <==> AtLeast(dscr, 1.2) && !AtLeast(dscr, 1.5)
    ensures pts == 1 <==> AtLeast(dscr, 1.0) && !AtLeast(dscr, 1.2)
    ensures pts == 0 <==> !AtLeast(dscr, 1.0)
    ensures dscr == Infinite ==> pts == 3
  {
    if AtLeast(dscr, 1.5) then 3
    else if AtLeast(dscr, 1.2) then 2
    else if AtLeast(dscr, 1.0) then 1
    else 0
  }

  /** The score of a deal: the sum of its five bands. */
  function Score(capRate: real, risk: int, vacancyPct: real, coc: real, dscr: Dscr, target: real): (s: int)
    ensures 3 <= s <= 16
  {
    RentabilityPoints(capRate, target) + RiskPoints(risk) + VacancyPoints(vacancyPct)
      + CashOnCashPoints(coc) + DscrPoints(dscr)
  }

  /** The score adds up the bands one at a time into a running total. */
  method DealScore(capRate: real, risk: int, vacancyPct: real, coc: real, dscr: Dscr, target: real)
    returns (score: int)
    ensures score == Score(capRate, risk, vacancyPct, coc, dscr, target)
    ensures 3 <= score <= 16
  {
    score := 0;
    if capRate >= target + 1.0 {
      score := score + 4;
    } else if capRate >= target - 0.3 {
      score := score + 3;
    } else if capRate >= target - 1.0 {
      score := score + 2;
    } else {
      score := score + 1;
    }
    if risk <= 2 {
      score := score + 3;
    } else if risk == 3 {
      score := score + 2;
    } else {
      score := score + 1;
    }
    if vacancyPct <= 4.0 {
      score := score + 3;
    } else if vacancyPct <= 7.0 {
      score := score + 2;
    } else {
      score := score + 1;
    }
    if coc >= 10.0 {
      score := score + 3;
    } else if coc >= 7.0 {
      score := score + 2;
    } else if coc >= 5.0 {
      score := score + 1;
    }
    if AtLeast(dscr, 1.5) {
      score := score + 3;
    } else if AtLeast(dscr, 1.2) {
      score := score + 2;
    } else if AtLeast(dscr, 1.0) {
      score := score + 1;
    }
  }

  /** Both ends of the range are reached: the rentability, risk and vacancy
      bands give at least one point each, while the cash-on-cash and coverage
      bands can give none. */
  lemma ScoreRangeAttained()
    ensures Score(0.0, 4, 10.0, 0.0, Finite(0.5), 7.0) == 3
    ensures Score(9.0, 1, 2.0, 12.0, Infinite, 7.0) == 16
  {
  }

  /** The score never falls when the cap rate, the cash-on-cash return or the
      coverage rises, nor when the risk tier or the vacancy falls. */
  lemma ScoreMonotone(
    capRate1: real, risk1: int, vacancy1: real, coc1: real, dscr1: Dscr,
    capRate2: real, risk2: int, vacancy2: real, coc2: real, dscr2: Dscr,
    target: real)
    requires capRate1 <= capRate2 && risk1 >= risk2 && vacancy1 >= vacancy2
    requires coc1 <= coc2 && DscrLe(dscr1, dscr2)
    ensures Score(capRate1, risk1, vacancy1, coc1, dscr1, target)
         <= Score(capRate2, risk2, vacancy2, coc2, dscr2, target)
  {
    DscrLeAtLeast(dscr1, dscr2, 1.5);
    DscrLeAtLeast(dscr1, dscr2, 1.2);
    DscrLeAtLeast(dscr1, dscr2, 1.0);
  }

  /** A higher target yield never raises the rentability band. */
  lemma RentabilityAntitoneInTarget(capRate: real, target1: real, target2: real)
    requires target1 <= target2
    ensures RentabilityPoints(capRate, target2) <= RentabilityPoints(capRate, target1)
  {
  }

  /** The qualitative tiers of a score. */
  datatype Label = Excellent | Good | Tight | Weak

  /** The tier of a score, tested from the top with inclusive lower bounds. */
  function LabelOf(score: int): (l: Label)
    ensures l == Excellent <==> score >= 13
    ensures l == Good <==> 10 <= score < 13
    ensures l == Tight <==> 7 <= score < 10
    ensures l == Weak <==> score < 7
  {
    if score >= 13 then Excellent
    else if score >= 10 then Good
    else if score >= 7 then Tight
    else Weak
  }

  /** The headline shown for a tier. */
  function Headline(l: Label): string
  {
    match l
    case Excellent => "\U{1F7E2} Excelente oportunidad"
    case Good => "\U{1F7E1} Buena oportunidad"
    case Tight => "\U{1F7E0} Oportunidad ajustada"
    case Weak => "\U{1F534} Oportunidad débil"
  }

  /** Each tier has its own headline. */
  lemma HeadlinesDistinct(l1: Label, l2: Label)
    requires l1 != l2
    ensures Headline(l1) != Headline(l2)
  {
  }

  /** A higher score never earns a lower tier. */
  lemma LabelMonotone(s1: int, s2: int)
    requires s1 <= s2
    ensures LabelOf(s1) == Excellent ==> LabelOf(s2) == Excellent
    ensures LabelOf(s1) == Good ==> LabelOf(s2) in {Excellent, Good}
    ensures LabelOf(s1) == Tight ==> LabelOf(s2) != Weak
  {
  }
}

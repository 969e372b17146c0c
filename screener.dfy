/** One screening of a deal: the zone's profile, the metrics, the score and
    its label, and the leverage sensitivity table, each computed from the
    step before. The predicted monthly rent comes from the rent estimator,
    which is not part of this model. */
module Screener {
  import opened Zones
  import opened Metrics
  import opened Scoring
  import opened Sensitivity

  datatype Report = Report(
    profile: ZoneProfile,
    metrics: FinancialMetrics,
    score: int,
    rating: Label,
    headline: string,
    sensitivity: seq<SensitivityRow>)

  /** Screens the deal `d` in `zone` given the estimator's monthly rent. */
  method Screen(zone: string, rawRent: real, d: Deal) returns (r: Report)
    requires d.annualRatePct > -1200.0
    ensures r.profile == Lookup(zone)
    ensures r.metrics == Compute(rawRent, r.profile.rentFactor, d)
    ensures r.score == Score(r.metrics.capRate, r.profile.risk, d.vacancyPct,
                             r.metrics.cashOnCash, r.metrics.dscr, r.profile.targetYield)
    ensures 3 <= r.score <= 16
    ensures r.rating == LabelOf(r.score)
    ensures r.headline == Headline(r.rating)
    ensures r.sensitivity == Table(d.price, r.metrics.income.noi, d.annualRatePct, d.years)
  {
    var profile := Lookup(zone);
    var metrics := Compute(rawRent, profile.rentFactor, d);
    var score := DealScore(metrics.capRate, profile.risk, d.vacancyPct,
                           metrics.cashOnCash, metrics.dscr, profile.targetYield);
    var rows := SensitivityTable(d.price, metrics.income.noi, d.annualRatePct, d.years);
    var rating := LabelOf(score);
    r := Report(profile, metrics, score, rating, Headline(rating), rows);
  }

  /** The reference scenario in Juriquilla (rent factor 1.05): a predicted
      rent of 22,000 a month on a 3,800,000 purchase with 5% vacancy, 18%
      operating expenses and 70% financed. */
  lemma ReferenceScenario()
    ensures var m := Compute(22000.0, Lookup("Juriquilla").rentFactor, Deal(3800000.0, 5.0, 18.0, 70, 10.5, 20));
      m.income.adjustedRent == 23100.0 &&
      m.income.grossIncome == 263340.0 &&
      m.income.noi == 215938.8 &&
      m.capRate * 3800000.0 == 21593880.0 &&
      m.financing.loan == 2660000.0 &&
      m.financing.equity == 1140000.0
  {
  }
}

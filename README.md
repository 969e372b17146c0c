# AI Deal Screener (Querétaro) — valuation and deal-scoring engine in Dafny

This project models the engine behind the Querétaro residential deal
screener: the zone reference tables with their fallback defaults, the
derivation of a deal's financial metrics (adjusted rent, gross income net
of vacancy, operating expenses, NOI, cap rate, loan and equity, monthly and
annual debt service, cash-on-cash, DSCR), the level-payment amortisation
formula, the additive five-band deal score with its four labels, and the
LTV sensitivity table at 50, 60, 70, 80 and 90 percent.

All quantities are Dafny `real`s. The `float("inf")` coverage of a deal
without debt service is the constructor `Infinite` of `Metrics.Dscr`, which
clears every threshold (`Metrics.AtLeast`) and sits above every finite
ratio (`Metrics.DscrLe`). The rent predicted by the Random Forest enters as
the parameter `rawRent`.

Modules, leaf first:

- `Zones` — the four zone dictionaries and their `.get` lookups, as one
  `Lookup` returning a `ZoneProfile`.
- `Amortization` — `pago_mensual` as `MonthlyPayment`, with `(1 + r)^-n`
  written `1 / Pow(1 + r, n)`.
- `Metrics` — the derivation of the financial metrics, with the three
  sentinel rules (cap rate 0, cash-on-cash 0, infinite DSCR) as the
  functions `CapRate`, `CashOnCash` and `Coverage`.
- `Scoring` — `calcular_score` as five band functions summed by `Score`,
  the accumulating method `DealScore` proved equal to it, and the label chain.
- `Sensitivity` — the `for` loop over `ltv_range` as the method
  `SensitivityTable`, proved to build `Table`.
- `Screener` — the script's order of evaluation, from zone to sensitivity
  table, as the method `Screen`.

The score lies in 3..16: the rentability, risk and vacancy bands give at
least one point each, while the cash-on-cash and DSCR bands can give none;
`Scoring.ScoreRangeAttained` exhibits a deal scoring 3 and one scoring 16.

## Model

| member | source | states |
|---|---|---|
| `Zones.Get` | app.py:103 | a dictionary read with a default gives the entry when the key is listed and the default otherwise |
| `Zones.TablesCoverSameZones` | app.py:93-157 | the risk, target-yield, appreciation and rent-factor tables list exactly the same eight zones |
| `Zones.Lookup` | app.py:103-157 | an unlisted zone gets risk 3, target yield 7.0, appreciation 3.0 and rent factor 1.0; a listed zone gets exactly its entry in each table; every profile has risk 1..4, target yield 6.8..8.2 and rent factor 0.95..1.10 |
| `Zones.LookupExamples` | app.py:93-157 | Zibatá and Centro get their table rows; an unlisted name gets the fallback profile |
| `Amortization.Annuity` | app.py:180 | for a nonzero monthly rate above -100% and n > 0 periods, the payment p solves p·(1 − (1+r)^−n) = loan·r and is positive exactly when the loan is |
| `Amortization.DiscountSign` | app.py:180 | the annuity denominator 1 − (1+r)^−n is nonzero and has the sign of r, so the formula never divides by zero |
| `Amortization.MonthlyPayment` | app.py:173-180 | no loan or no term gives payment 0; a positive loan and term give a positive payment; at rate 0 the payment times 12·years is the loan; otherwise it solves the annuity equation with r = rate/1200 and n = 12·years |
| `Amortization.AnnuityStrictlyIncreasing` | app.py:180 | at a fixed nonzero rate and term the annuity payment strictly increases with the loan |
| `Amortization.StraightLineStrictlyIncreasing` | app.py:178-179 | at rate 0 the payment strictly increases with a positive loan |
| `Amortization.PaymentStrictlyIncreasing` | app.py:173-180 | at a fixed rate and positive term a larger loan (the larger one positive) has a strictly larger payment |
| `Amortization.StraightLineExample` | app.py:178-179 | 1,000,000 at 0% over 20 years is repaid by 240 payments of loan/240 |
| `Metrics.DscrLeAtLeast` | app.py:188 | a larger coverage ratio clears every threshold a smaller one clears, with infinite coverage above all |
| `Metrics.CapRate` | app.py:168 | cap rate times price is 100·NOI for a positive price; 0 when the price is not positive |
| `Metrics.CashOnCash` | app.py:185-186 | cash-on-cash times equity is 100·(NOI − annual debt service) for positive equity, and is non-negative exactly when NOI covers the debt; 0 when equity is not positive |
| `Metrics.Coverage` | app.py:188 | DSCR is infinite exactly when annual debt service is not positive; otherwise DSCR times debt service is NOI |
| `Metrics.CoverageNonIncreasing` | app.py:188 | with a fixed non-negative NOI, more debt service never raises the DSCR |
| `Metrics.Leverage` | app.py:170-171 | the loan is LTV percent of the price, loan plus equity is the price, annual debt service is 12 monthly payments of `pago_mensual`, zero when there is no loan or term and positive otherwise |
| `Metrics.OperatingIncome` | app.py:158-166 | adjusted rent is raw rent times the zone factor; gross income is 12 adjusted rents less vacancy; expenses plus NOI is gross income; NOI is gross income times (1 − opex%/100) |
| `Metrics.NoiNonNegative` | app.py:164-166 | a non-negative rent and factor with vacancy and expenses of at most 100% give a non-negative NOI |
| `Metrics.Compute` | app.py:158-188 | the metrics are derived in order from income and leverage at the deal's LTV; price ≤ 0 gives cap rate 0, equity ≤ 0 gives cash-on-cash 0, debt service ≤ 0 gives infinite DSCR, and LTV 0 or no term gives infinite DSCR |
| `Metrics.CashDeal` | app.py:170-188 | a deal with nothing financed has infinite DSCR and a cash-on-cash return equal to its cap rate |
| `Scoring.RentabilityPoints` | app.py:193-200 | 4 exactly when the cap rate is at least target + 1; 3 exactly in [target − 0.3, target + 1); 2 exactly in [target − 1, target − 0.3); 1 exactly below target − 1 |
| `Scoring.RiskPoints` | app.py:201-206 | 3 exactly for tiers up to 2; 2 exactly at tier 3; 1 exactly for tiers from 4 |
| `Scoring.VacancyPoints` | app.py:207-212 | 3 exactly for vacancy up to 4%; 2 exactly above 4% up to 7%; 1 exactly above 7% |
| `Scoring.CashOnCashPoints` | app.py:213-218 | 3 exactly from 10%; 2 exactly in [7%, 10%); 1 exactly in [5%, 7%); 0 exactly below 5% |
| `Scoring.DscrPoints` | app.py:219-224 | 3 exactly when DSCR is at least 1.5; 2 exactly when it is at least 1.2 but not 1.5; 1 exactly when it is at least 1.0 but not 1.2; 0 exactly below 1.0; infinite DSCR earns 3 |
| `Scoring.Score` | app.py:191-225 | the sum of the five bands lies in 3..16 |
| `Scoring.DealScore` | app.py:191-225 | the running total built band by band equals the sum of the five bands and lies in 3..16 |
| `Scoring.ScoreRangeAttained` | app.py:191-225 | some deal scores 3 and some scores 16, so 3..16 is the exact range |
| `Scoring.ScoreMonotone` | app.py:191-225 | the score never decreases when cap rate, cash-on-cash or DSCR rise, nor when risk or vacancy fall |
| `Scoring.RentabilityAntitoneInTarget` | app.py:193-200 | a higher zone target never raises the rentability band |
| `Scoring.LabelOf` | app.py:229-236 | Excellent exactly from 13, Good exactly in 10..12, Tight exactly in 7..9, Weak exactly below 7 |
| `Scoring.HeadlinesDistinct` | app.py:229-236 | the four tiers have four different headlines, "Excelente", "Buena", "ajustada" and "débil" opportunity |
| `Scoring.LabelMonotone` | app.py:229-236 | a higher score never earns a lower label |
| `Sensitivity.Row` | app.py:245-250 | a row keeps its LTV; its DSCR and cash-on-cash come from the given NOI and the debt service and equity at that LTV |
| `Sensitivity.Table` | app.py:242-251 | one row per LTV of the range, in order, each computed with the same price, NOI, rate and term |
| `Sensitivity.SensitivityTable` | app.py:242-251 | the loop appending one row per LTV builds exactly the table |
| `Sensitivity.TableShape` | app.py:242 | the table has five rows at LTV 50, 60, 70, 80, 90 in that order |
| `Sensitivity.RowAtDealRatio` | app.py:244-250 | the row at the deal's own LTV reproduces the main scenario's DSCR and cash-on-cash |
| `Sensitivity.DebtServiceMonotone` | app.py:245-248 | more LTV never lowers annual debt service, and strictly raises it for a positive price and term |
| `Sensitivity.TableMonotone` | app.py:242-251 | down the table DSCR never rises when NOI is not negative, and annual debt service strictly rises for a positive price and term |
| `Screener.Screen` | app.py:103-251 | the report holds the zone's profile, the metrics derived with its rent factor, the score of those metrics against its risk and target, the label of that score with its headline, and the sensitivity table built on the same NOI |
| `Screener.ReferenceScenario` | app.py:147-171 | in Juriquilla, a rent of 22,000 on a 3,800,000 purchase with 5% vacancy, 18% expenses and 70% LTV gives adjusted rent 23,100, gross income 263,340, NOI 215,938.8, loan 2,660,000 and equity 1,140,000 |

## Left out

- Dashboard layout: page configuration, sidebar widgets, tabs, metrics, charts, the progress bar and the commentary texts (app.py:36-87, app.py:259-383); the DSCR banner thresholds 1.1 and 1.3 belong to that display text and are not the scorer's bands.
- The slider ranges (app.py:65-87) are the caller's validation; the model accepts any values except as stated below.
- Dataset loading with `pd.read_excel` and its cache (app.py:10-14): file I/O.
- The Random Forest fit and prediction and its feature row (app.py:20-30, app.py:134-145): a foreign library; its prediction is the input `rawRent`.
- Floating point: `**` and division in doubles, `round(x, 2)` in the sensitivity rows (app.py:251) and number formatting are not modelled; values are exact reals, and the rows carry unrounded values.
- The numeric check that 1,000,000 at 10% over 20 years pays about 9,650.22 a month is not proved: it needs (1 + 1/120)^240 as an exact rational.
- The appreciation assumption is looked up (`Zones.Lookup`) but only displayed, so nothing is proved about its use (app.py:311).
- Amortization.MonthlyPayment: requires an annual rate above −1200% (a monthly rate above −100%), where 1 + r is positive; the source divides by zero at −1200% and −2400% and raises a negative base to a negative power below −1200%, and the caller's slider keeps the rate in 5–16%.
- Sensitivity.TableMonotone: DSCR is non-increasing down the table only for a non-negative NOI; with a negative NOI a larger debt service makes the (negative) ratio rise. `Metrics.NoiNonNegative` gives the conditions under which NOI is non-negative.

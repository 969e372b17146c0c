/** Zone reference tables of the Querétaro market: four dictionaries keyed by
    zone name, each read with a fallback for zones it does not list. */
module Zones {

  /** What the engine knows about a zone. `risk` is an ordinal tier
      (1 = lowest risk, 4 = highest); yields and appreciation are percentages;
      `rentFactor` multiplies the predicted monthly rent. */
  datatype ZoneProfile = ZoneProfile(risk: int, targetYield: real, appreciation: real, rentFactor: real)

  const RiskByZone: map<string, int> := map[
    "Zibatá" := 1,
    "Cumbres del Lago" := 2,
    "Juriquilla" := 2,
    "Jurica" := 2,
    "El Refugio" := 3,
    "Corregidora" := 3,
    "Mileno III" := 3,
    "Centro" := 4
  ]

  const TargetYieldByZone: map<string, real> := map[
    "Zibatá" := 7.5,
    "Cumbres del Lago" := 7.2,
    "Juriquilla" := 7.0,
    "Jurica" := 6.8,
    "El Refugio" := 7.3,
    "Corregidora" := 7.8,
    "Mileno III" := 7.9,
    "Centro" := 8.2
  ]

  const AppreciationByZone: map<string, real> := map[
    "Zibatá" := 4.0,
    "Cumbres del Lago" := 3.8,
    "Juriquilla" := 3.5,
    "Jurica" := 3.2,
    "El Refugio" := 3.0,
    "Corregidora" := 2.8,
    "Mileno III" := 2.5,
    "Centro" := 2.2
  ]

  const RentFactorByZone: map<string, real> := map[
    "Zibatá" := 1.10,
    "Cumbres del Lago" := 1.08,
    "Juriquilla" := 1.05,
    "Jurica" := 1.03,
    "El Refugio" := 1.00,
    "Corregidora" := 0.97,
    "Mileno III" := 0.95,
    "Centro" := 0.98
  ]

  /** The zones the tables list. */
  const KnownZones: set<string> :=
    {"Zibatá", "Cumbres del Lago", "Juriquilla", "Jurica", "El Refugio", "Corregidora", "Mileno III", "Centro"}

  /** The profile an unlisted zone receives: the defaults of the four lookups. */
  const Fallback: ZoneProfile := ZoneProfile(3, 7.0, 3.0, 1.0)

  /** A dictionary read with a default, as a Python `dict.get(key, default)`. */
  function Get<V>(m: map<string, V>, key: string, default: V): (v: V)
    ensures key in m ==> v == m[key]
    ensures key !in m ==> v == default
  {
    if key in m then m[key] else default
  }

  /** Every table lists exactly the known zones, so a zone is either listed
      in all four or in none. */
  lemma TablesCoverSameZones()
    ensures RiskByZone.Keys == KnownZones
    ensures TargetYieldByZone.Keys == KnownZones
    ensures AppreciationByZone.Keys == KnownZones
    ensures RentFactorByZone.Keys == KnownZones
  {
  }

  /** The profile of a zone: each field is its own table's entry, or that
      table's default when the zone is not listed. */
  function Lookup(zone: string): (p: ZoneProfile)
    ensures zone !in KnownZones ==> p == Fallback
    ensures zone in KnownZones ==>
      p.risk == RiskByZone[zone] && p.targetYield == TargetYieldByZone[zone] &&
      p.appreciation == AppreciationByZone[zone] && p.rentFactor == RentFactorByZone[zone]
    ensures 1 <= p.risk <= 4
    ensures 6.8 <= p.targetYield <= 8.2
    ensures 0.95 <= p.rentFactor <= 1.10
  {
    TablesCoverSameZones();
    ZoneProfile(
      Get(RiskByZone, zone, 3),
      Get(TargetYieldByZone, zone, 7.0),
      Get(AppreciationByZone, zone, 3.0),
      Get(RentFactorByZone, zone, 1.0))
  }

  /** Two listed zones as the tables give them, and an unlisted one. */
  lemma LookupExamples()
    ensures Lookup("Zibatá") == ZoneProfile(1, 7.5, 4.0, 1.10)
    ensures Lookup("Centro") == ZoneProfile(4, 8.2, 2.2, 0.98)
    ensures Lookup("Polanco") == Fallback
  {
  }
}

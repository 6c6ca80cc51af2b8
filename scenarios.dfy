/** The fixed catalogue of named macroeconomic scenarios (data.py:11-58) and the
    lookup with its documented fallback to "Baseline" (data.py:74). */
module Scenarios {

  /** One immutable scenario record. Rates are fractions per year; the three risk
      baselines are a percentage, basis points and a percentage. */
  datatype ScenarioConfig = ScenarioConfig(
    name: string,
    revenueGrowthAnnual: real,
    depositGrowthAnnual: real,
    aumGrowthAnnual: real,
    marginPct: real,
    volatilityPct: real,
    nplBasePct: real,
    varBaseBps: real,
    lcrBasePct: real)

  const BaselineConfig := ScenarioConfig("Baseline", 0.05, 0.04, 0.06, 0.32, 0.06, 1.8, 85.0, 135.0)
  const AdverseConfig := ScenarioConfig("Adverse", 0.01, 0.00, 0.01, 0.28, 0.12, 3.2, 130.0, 115.0)
  const SevereConfig := ScenarioConfig("Severe", -0.03, -0.02, -0.04, 0.24, 0.18, 5.2, 180.0, 95.0)

  /** The catalogue, keyed by scenario name. */
  const Catalog: map<string, ScenarioConfig> :=
    map["Baseline" := BaselineConfig, "Adverse" := AdverseConfig, "Severe" := SevereConfig]

  /** A record every scenario must satisfy: finite rates (trivially, over reals),
      a non-negative volatility and annual rates above -100%, so that the monthly
      compounding factor exists. */
  predicate WellFormed(c: ScenarioConfig) {
    c.volatilityPct >= 0.0
    && c.revenueGrowthAnnual > -1.0 && c.depositGrowthAnnual > -1.0 && c.aumGrowthAnnual > -1.0
  }

  /** `SCENARIOS.get(scenario, SCENARIOS["Baseline"])`: an unknown name silently
      resolves to the Baseline record. */
  function Resolve(name: string): (c: ScenarioConfig)
    ensures name in Catalog ==> c == Catalog[name]
    ensures name !in Catalog ==> c == BaselineConfig
    ensures c in Catalog.Values && WellFormed(c)
  {
    if name in Catalog then Catalog[name] else Catalog["Baseline"]
  }

  /** The catalogue holds exactly the three documented scenarios, each stored
      under its own name and well formed. */
  lemma CatalogShape()
    ensures Catalog.Keys == {"Baseline", "Adverse", "Severe"}
    ensures forall k :: k in Catalog ==> Catalog[k].name == k && WellFormed(Catalog[k])
  {
  }

  /** Looking up a catalogued name returns the record of that name; every other
      name returns Baseline. */
  lemma ResolveByName(name: string)
    ensures Resolve(name).name == (if name in {"Baseline", "Adverse", "Severe"} then name else "Baseline")
    ensures Resolve(name) == BaselineConfig <==> name !in {"Adverse", "Severe"}
  {
  }

  /** The stress ordering the catalogue is built around: Severe is worse than
      Adverse, which is worse than Baseline, on every growth, margin and risk
      parameter. */
  lemma ScenariosOrderedBySeverity()
    ensures SevereConfig.revenueGrowthAnnual < AdverseConfig.revenueGrowthAnnual < BaselineConfig.revenueGrowthAnnual
    ensures SevereConfig.depositGrowthAnnual < AdverseConfig.depositGrowthAnnual < BaselineConfig.depositGrowthAnnual
    ensures SevereConfig.aumGrowthAnnual < AdverseConfig.aumGrowthAnnual < BaselineConfig.aumGrowthAnnual
    ensures SevereConfig.marginPct < AdverseConfig.marginPct < BaselineConfig.marginPct
    ensures BaselineConfig.volatilityPct < AdverseConfig.volatilityPct < SevereConfig.volatilityPct
    ensures BaselineConfig.nplBasePct < AdverseConfig.nplBasePct < SevereConfig.nplBasePct
    ensures BaselineConfig.varBaseBps < AdverseConfig.varBaseBps < SevereConfig.varBaseBps
    ensures SevereConfig.lcrBasePct < AdverseConfig.lcrBasePct < BaselineConfig.lcrBasePct
  {
  }
}

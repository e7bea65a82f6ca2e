/** The estimator's constant tables: emission factors, sector weights and
    seasonal patterns, each a map over the keys the source lists, with the
    lookup default written out. */
module Factors {
  import opened Wrappers

  /** kg CO2 per kWh of energy. */
  const EnergyPerKWh: real := 0.82
  /** kg CO2 per kg of material; waste is charged at 1.5 times this. */
  const MaterialPerKg: real := 0.01
  /** kg CO2 per machine hour. */
  const MachinePerHour: real := 0.05
  /** The surcharge on waste relative to material. */
  const WasteMultiplier: real := 1.5

  /** kg CO2 per km, by transport mode. */
  const TransportTable: map<string, real> := map[
    "truck" := 0.21,
    "car" := 0.18,
    "train" := 0.04,
    "airplane" := 0.15,
    "bike" := 0.0,
    "ship" := 0.09
  ]

  datatype Weights = Weights(energy: real, material: real, operation: real)

  const SectorTable: map<string, Weights> := map[
    "Manufacturing" := Weights(1.0, 1.0, 1.0),
    "Retail" := Weights(0.6, 0.4, 0.5),
    "Logistics" := Weights(0.9, 0.7, 1.2),
    "IT/Software" := Weights(0.4, 0.2, 0.5),
    "Healthcare" := Weights(0.8, 0.7, 0.9),
    "Hospitality" := Weights(0.7, 0.6, 0.8),
    "Food & Beverage" := Weights(0.9, 1.1, 1.0)
  ]

  /** Six monthly multipliers per sector, January to June. */
  const SeasonalTable: map<string, seq<real>> := map[
    "Manufacturing" := [1.0, 1.05, 1.1, 1.15, 1.2, 1.25],
    "Retail" := [1.2, 1.0, 0.9, 0.95, 1.0, 1.1],
    "Logistics" := [1.0, 1.05, 1.1, 1.15, 1.2, 1.25],
    "IT/Software" := [1.0, 1.0, 1.0, 1.05, 1.05, 1.1],
    "Healthcare" := [1.1, 1.05, 1.0, 1.0, 1.05, 1.1],
    "Hospitality" := [0.9, 0.95, 1.0, 1.1, 1.2, 1.3],
    "Food & Beverage" := [1.0, 1.05, 1.1, 1.15, 1.2, 1.25]
  ]

  /** `SECTOR_COMPONENT_WEIGHTS[sector] || SECTOR_COMPONENT_WEIGHTS["Manufacturing"]`:
      a weights record is never falsy, so only a missing sector falls back. */
  function SectorWeights(sector: string): (w: Weights)
    ensures sector in SectorTable ==> w == SectorTable[sector]
    ensures sector !in SectorTable ==> w == Weights(1.0, 1.0, 1.0)
    ensures 0.0 < w.energy <= 1.2 && 0.0 < w.material <= 1.2 && 0.0 < w.operation <= 1.2
  {
    if sector in SectorTable then SectorTable[sector] else SectorTable["Manufacturing"]
  }

  /** `EMISSION_FACTORS.transport[mode] || EMISSION_FACTORS.transport.truck`:
      the fallback fires on a missing mode AND on bike, whose factor 0.0 is
      falsy, so bike is charged at truck's rate. */
  function FactorOrTruck(mode: string): (f: real)
    ensures mode !in TransportTable || mode == "bike" ==> f == 0.21
    ensures mode in TransportTable && mode != "bike" ==> f == TransportTable[mode]
    ensures 0.04 <= f <= 0.21
  {
    if mode in TransportTable && TransportTable[mode] != 0.0 then TransportTable[mode]
    else TransportTable["truck"]
  }

  /** `EMISSION_FACTORS.transport[mode]` with no fallback: `undefined` (None)
      for a mode the table does not list. */
  function DirectFactor(mode: string): (f: Option<real>)
    ensures f.Some? <==> mode in TransportTable
    ensures f.Some? ==> 0.0 <= f.value <= 0.21
    ensures mode == "bike" ==> f == Some(0.0)
  {
    if mode in TransportTable then Some(TransportTable[mode]) else None
  }

  /** `seasonalPatterns[sector] || seasonalPatterns["Manufacturing"]`. */
  function SeasonalPattern(sector: string): (p: seq<real>)
    ensures |p| == 6
    ensures sector in SeasonalTable ==> p == SeasonalTable[sector]
    ensures sector !in SeasonalTable ==> p == [1.0, 1.05, 1.1, 1.15, 1.2, 1.25]
    ensures forall i :: 0 <= i < 6 ==> 0.9 <= p[i] <= 1.3
  {
    if sector in SeasonalTable then SeasonalTable[sector] else SeasonalTable["Manufacturing"]
  }

  /** The two tables keyed by sector list the same seven sectors, so one
      sector is "unrecognised" for the weights exactly when it is for the
      seasonal pattern. */
  lemma SectorTablesAgree(sector: string)
    ensures sector in SectorTable <==> sector in SeasonalTable
  {
  }

}

/** The four efficiency scores of the response's `metrics` object. */
module Metrics {
  import opened Wrappers
  import opened Factors
  import opened JsMath
  import opened Estimator

  /** A score is None where JavaScript computes NaN or an infinity (sent as
      null): a division by zero, or a transport mode the table lacks. */
  datatype Scores = Scores(
    energyEfficiency: Option<int>,
    materialEfficiency: Option<int>,
    transportEfficiency: Option<int>,
    overallScore: int)

  /** `Math.round((1 - energy / (output + 1) / 10) * 100)`. */
  function EnergyEfficiency(energy: real, output: real): (r: Option<int>)
    ensures r.None? <==> output == -1.0
    ensures energy >= 0.0 && output >= 0.0 ==> r.Some? && r.value <= 100
  {
    if output + 1.0 == 0.0 then None
    else
      var ratio := energy / (output + 1.0);
      assert energy >= 0.0 && output >= 0.0 ==> ratio >= 0.0;
      Some(Round((1.0 - ratio / 10.0) * 100.0))
  }

  /** `Math.round((1 - waste / (material + 1)) * 100)`. */
  function MaterialEfficiency(waste: real, material: real): (r: Option<int>)
    ensures r.None? <==> material == -1.0
    ensures waste >= 0.0 && material >= 0.0 ==> r.Some? && r.value <= 100
    ensures 0.0 <= waste <= material ==> r.Some? && 0 <= r.value <= 100
  {
    if material + 1.0 == 0.0 then None
    else
      var ratio := waste / (material + 1.0);
      assert waste >= 0.0 && material >= 0.0 ==> ratio >= 0.0;
      assert 0.0 <= waste <= material ==> ratio < 1.0;
      Some(Round((1.0 - ratio) * 100.0))
  }

  /** `Math.round((1 - EMISSION_FACTORS.transport[mode] / 0.21) * 100)`,
      with no fallback: an unlisted mode gives NaN. */
  function TransportEfficiency(mode: string): (r: Option<int>)
    ensures r.None? <==> mode !in TransportTable
    ensures r.Some? ==> 0 <= r.value <= 100
  {
    match DirectFactor(mode)
    case None => None
    case Some(f) => Some(Round((1.0 - f / 0.21) * 100.0))
  }

  /** `Math.round((1 - prediction / 2000) * 100)`. */
  function OverallScore(prediction: real): (r: int)
    ensures prediction >= 0.0 ==> r <= 100
    ensures 0.0 <= prediction <= 2000.0 ==> 0 <= r
  {
    Round((1.0 - prediction / 2000.0) * 100.0)
  }

  function ScoresOf(x: Inputs, prediction: real): Scores {
    Scores(
      EnergyEfficiency(x.energy, x.output),
      MaterialEfficiency(x.waste, x.material),
      TransportEfficiency(x.transport),
      OverallScore(prediction))
  }

  /** The transport score per listed mode: truck 0, car 14, train 81,
      airplane 29, bike 100, ship 57. */
  lemma TransportScores()
    ensures TransportEfficiency("truck") == Some(0)
    ensures TransportEfficiency("car") == Some(14)
    ensures TransportEfficiency("train") == Some(81)
    ensures TransportEfficiency("airplane") == Some(29)
    ensures TransportEfficiency("bike") == Some(100)
    ensures TransportEfficiency("ship") == Some(57)
  {
    RoundUnique(0.0, 0);
    RoundUnique((1.0 - 0.18 / 0.21) * 100.0, 14);
    RoundUnique((1.0 - 0.04 / 0.21) * 100.0, 81);
    RoundUnique((1.0 - 0.15 / 0.21) * 100.0, 29);
    RoundUnique(100.0, 100);
    RoundUnique((1.0 - 0.09 / 0.21) * 100.0, 57);
  }

  /** An unlisted mode scores as "truck" does, except on transport: it gets
      no score where truck gets 0. */
  lemma UnlistedModeScores(x: Inputs, prediction: real)
    requires x.transport !in TransportTable
    ensures ScoresOf(x, prediction).transportEfficiency == None
    ensures ScoresOf(x.(transport := "truck"), prediction).transportEfficiency == Some(0)
    ensures ScoresOf(x, prediction).(transportEfficiency := None) ==
      ScoresOf(x.(transport := "truck"), prediction).(transportEfficiency := None)
  {
    RoundUnique(0.0, 0);
  }

}

/** The estimate endpoint (`POST`): absent request fields take their
    defaults, then the estimate, breakdown, projection, advice and scores are
    assembled into one response. */
module Route {
  import opened Wrappers
  import opened Factors
  import opened JsMath
  import opened Estimator
  import opened Projection
  import opened Metrics
  import opened Advisor

  /** A request body; None is a field the JSON object does not have. */
  datatype Body = Body(
    hours: Option<real>, energy: Option<real>, material: Option<real>, waste: Option<real>,
    output: Option<real>, distance: Option<real>, sector: Option<string>, transport: Option<string>)

  /** The parsed JSON value of a request. Destructuring `null` throws, so
      the request fails; a number, string, boolean or array has none of the
      eight fields, so every field takes its default. */
  datatype Payload = JsonNull | NonObject | Object(fields: Body)

  datatype Response = Response(
    prediction: real,
    pieData: seq<Slice>,
    barData: seq<Bar>,
    recommendations: seq<Recommendation>,
    metrics: Scores)

  const DefaultInputs := Inputs(40.0, 1000.0, 500.0, 50.0, 100.0, 200.0, "Manufacturing", "truck")

  const EmptyBody := Body(None, None, None, None, None, None, None, None)

  function Or<T>(field: Option<T>, default: T): T {
    match field
    case Some(v) => v
    case None => default
  }

  /** The destructuring defaults: a field the body has is taken as is, an
      absent one takes its default. */
  function WithDefaults(b: Body): (x: Inputs)
    ensures b.hours.Some? ==> x.hours == b.hours.value
    ensures b.energy.Some? ==> x.energy == b.energy.value
    ensures b.material.Some? ==> x.material == b.material.value
    ensures b.waste.Some? ==> x.waste == b.waste.value
    ensures b.output.Some? ==> x.output == b.output.value
    ensures b.distance.Some? ==> x.distance == b.distance.value
    ensures b.sector.Some? ==> x.sector == b.sector.value
    ensures b.transport.Some? ==> x.transport == b.transport.value
    ensures b.hours.None? ==> x.hours == 40.0
    ensures b.energy.None? ==> x.energy == 1000.0
    ensures b.material.None? ==> x.material == 500.0
    ensures b.waste.None? ==> x.waste == 50.0
    ensures b.output.None? ==> x.output == 100.0
    ensures b.distance.None? ==> x.distance == 200.0
    ensures b.sector.None? ==> x.sector == "Manufacturing"
    ensures b.transport.None? ==> x.transport == "truck"
  {
    Inputs(
      Or(b.hours, DefaultInputs.hours),
      Or(b.energy, DefaultInputs.energy),
      Or(b.material, DefaultInputs.material),
      Or(b.waste, DefaultInputs.waste),
      Or(b.output, DefaultInputs.output),
      Or(b.distance, DefaultInputs.distance),
      Or(b.sector, DefaultInputs.sector),
      Or(b.transport, DefaultInputs.transport))
  }

  /** The fields the destructuring sees, or None where it throws. */
  function FieldsOf(p: Payload): (b: Option<Body>)
    ensures b.None? <==> p.JsonNull?
    ensures p.NonObject? ==> b == Some(EmptyBody)
    ensures p.Object? ==> b == Some(p.fields)
  {
    match p
    case JsonNull => None
    case NonObject => Some(EmptyBody)
    case Object(fields) => Some(fields)
  }

  /** The body that carries every field of x. */
  function FullBody(x: Inputs): Body {
    Body(Some(x.hours), Some(x.energy), Some(x.material), Some(x.waste),
      Some(x.output), Some(x.distance), Some(x.sector), Some(x.transport))
  }

  /** The response the endpoint computes for the given inputs. */
  function Evaluate(x: Inputs): Response {
    var prediction := Estimate(x);
    Response(prediction, PieData(x), BarData(prediction, x.sector), Advice(x), ScoresOf(x, prediction))
  }

  /** `POST`, after `req.json()` and without the artificial delay and the
      HTTP response object. None is the request that fails because the
      body is `null`. */
  method Post(p: Payload) returns (resp: Option<Response>)
    ensures resp.None? <==> p.JsonNull?
    ensures resp.Some? ==> resp.value == Evaluate(WithDefaults(FieldsOf(p).value))
    ensures resp.Some? ==> |resp.value.pieData| == 5 && |resp.value.barData| == 6
    ensures resp.Some? ==> 1 <= |resp.value.recommendations| <= 5
  {
    if p.JsonNull? {
      return None;
    }
    var b := FieldsOf(p).value;
    var x := WithDefaults(b);
    var prediction := Estimate(x);
    var pieData := PieData(x);
    var barData := BarData(prediction, x.sector);
    var recommendations := GenerateRecommendations(x, prediction);
    resp := Some(Response(prediction, pieData, barData, recommendations, ScoresOf(x, prediction)));
  }

  // ---- Properties ----

  /** A body that is not an object is answered as the empty request. */
  lemma NonObjectIsEmptyRequest()
    ensures FieldsOf(NonObject) == FieldsOf(Object(EmptyBody))
    ensures WithDefaults(FieldsOf(NonObject).value) == DefaultInputs
  {
  }

  /** A body carrying every field is evaluated on exactly those values. */
  lemma FullBodyKeepsEveryField(x: Inputs)
    ensures WithDefaults(FullBody(x)) == x
  {
  }

  /** The empty request: estimate 843.6575 from components 820, 5, 2, 42
      and 0.75; projection 844 to 1055; four recommendations; scores 1, 90,
      0 and 58. */
  lemma EmptyRequest()
    ensures var r := Evaluate(WithDefaults(EmptyBody));
      && r.prediction == 843.6575
      && SliceValues(r.pieData) == [820.0, 5.0, 2.0, 42.0, 0.75]
      && r.barData == [Bar("Jan", 844), Bar("Feb", 886), Bar("Mar", 928),
                       Bar("Apr", 970), Bar("May", 1012), Bar("Jun", 1055)]
      && r.recommendations == [
           Recommendation(Energy, "Reduce Energy Consumption", High, Some(246)),
           Recommendation(Waste, "Optimize Material Usage", Medium, Some(0)),
           Recommendation(Transport, "Consider Alternative Transport", High, Some(34)),
           Recommendation(Energy, "Switch to Renewable Energy", High, Some(574))]
      && r.metrics == Scores(Some(1), Some(90), Some(0), 58)
  {
    DefaultScenario();
    DefaultBars();
    DefaultAdvice();
    DefaultScores();
  }

  /** The default estimate 843.6575 rises from 844 in January to 1055 in
      June under the Manufacturing pattern. */
  lemma DefaultBars()
    ensures BarData(843.6575, DefaultInputs.sector) ==
      [Bar("Jan", 844), Bar("Feb", 886), Bar("Mar", 928),
       Bar("Apr", 970), Bar("May", 1012), Bar("Jun", 1055)]
  {
    var p := 843.6575;
    RoundUnique(p * 1.0, 844);
    RoundUnique(p * 1.05, 886);
    RoundUnique(p * 1.1, 928);
    RoundUnique(p * 1.15, 970);
    RoundUnique(p * 1.2, 1012);
    RoundUnique(p * 1.25, 1055);
  }

  /** The default inputs score 1 on energy, 90 on waste, 0 on transport
      and 58 overall. */
  lemma DefaultScores()
    ensures ScoresOf(DefaultInputs, 843.6575) == Scores(Some(1), Some(90), Some(0), 58)
  {
    var p := 843.6575;
    RoundUnique((1.0 - 1000.0 / 101.0 / 10.0) * 100.0, 1);
    RoundUnique((1.0 - 50.0 / 501.0) * 100.0, 90);
    RoundUnique((1.0 - 0.21 / 0.21) * 100.0, 0);
    RoundUnique((1.0 - p / 2000.0) * 100.0, 58);
  }

  /** The default inputs trigger the energy, waste and transport rules but
      not the operations rule (hours is exactly 40). */
  lemma DefaultAdvice()
    ensures Advice(DefaultInputs) == [
      Recommendation(Energy, "Reduce Energy Consumption", High, Some(246)),
      Recommendation(Waste, "Optimize Material Usage", Medium, Some(0)),
      Recommendation(Transport, "Consider Alternative Transport", High, Some(34)),
      Recommendation(Energy, "Switch to Renewable Energy", High, Some(574))]
  {
    var x := DefaultInputs;
    RoundUnique(1000.0 * 0.3 * 0.82, 246);
    RoundUnique(50.0 * 0.4 * 0.01 * 1.5, 0);
    RoundUnique(200.0 * (0.21 - 0.04), 34);
    RoundUnique(1000.0 * 0.82 * 0.7, 574);
    RuleFilterUnfolded(x);
  }

  /** An unrecognised sector yields the response for "Manufacturing". */
  lemma UnknownSectorRespondsAsManufacturing(x: Inputs)
    requires x.sector !in SectorTable
    ensures Evaluate(x) == Evaluate(x.(sector := "Manufacturing"))
  {
    var m := x.(sector := "Manufacturing");
    UnknownSectorIsManufacturing(x);
    SectorTablesAgree(x.sector);
    UnknownSectorProjectsAsManufacturing(Estimate(x), x.sector);
    assert BarData(Estimate(x), x.sector) == BarData(Estimate(m), m.sector);
    AdviceSeesOnlyWhetherSectorIsSoftware(x, "Manufacturing");
    assert ScoresOf(x, Estimate(x)) == ScoresOf(m, Estimate(m));
  }

  /** An unrecognised transport mode is estimated, broken down and projected
      as "truck", but its transport score is undefined where truck's is 0,
      and its transport saving (when the rule fires) is undefined too.
      Nothing else in the response differs. */
  lemma UnknownTransportDiffersFromTruck(x: Inputs)
    requires x.transport !in TransportTable
    ensures var t := x.(transport := "truck");
      && Evaluate(x).prediction == Evaluate(t).prediction
      && Evaluate(x).pieData == Evaluate(t).pieData
      && Evaluate(x).barData == Evaluate(t).barData
      && Evaluate(x).metrics.transportEfficiency == None
      && Evaluate(t).metrics.transportEfficiency == Some(0)
    ensures x.distance > 150.0 ==>
      Recommendation(Transport, "Consider Alternative Transport", High, None) in Evaluate(x).recommendations
    ensures var t := x.(transport := "truck");
      Evaluate(x).metrics.(transportEfficiency := None) == Evaluate(t).metrics.(transportEfficiency := None)
    ensures var a, b := Evaluate(x).recommendations, Evaluate(x.(transport := "truck")).recommendations;
      && |a| == |b|
      && forall i :: 0 <= i < |a| ==> a[i].(savingPotential := None) == b[i].(savingPotential := None)
  {
    UnknownTransportFiguresAsTruck(x);
    UnknownTransportAdviceAsTruck(x);
  }

  /** The figures part of UnknownTransportDiffersFromTruck. */
  lemma UnknownTransportFiguresAsTruck(x: Inputs)
    requires x.transport !in TransportTable
    ensures var t := x.(transport := "truck");
      && Evaluate(x).prediction == Evaluate(t).prediction
      && Evaluate(x).pieData == Evaluate(t).pieData
      && Evaluate(x).barData == Evaluate(t).barData
      && Evaluate(x).metrics.transportEfficiency == None
      && Evaluate(t).metrics.transportEfficiency == Some(0)
    ensures var t := x.(transport := "truck");
      Evaluate(x).metrics.(transportEfficiency := None) == Evaluate(t).metrics.(transportEfficiency := None)
  {
    var t, e := x.(transport := "truck"), Estimate(x);
    TransportFallsBackToTruck(x);
    UnlistedModeScores(x, e);
    assert Evaluate(t) == Response(e, PieData(x), BarData(e, x.sector), Advice(t), ScoresOf(t, e));
  }

  /** The recommendations part of UnknownTransportDiffersFromTruck. */
  lemma UnknownTransportAdviceAsTruck(x: Inputs)
    requires x.transport !in TransportTable
    ensures x.distance > 150.0 ==>
      Recommendation(Transport, "Consider Alternative Transport", High, None) in Evaluate(x).recommendations
    ensures var a, b := Evaluate(x).recommendations, Evaluate(x.(transport := "truck")).recommendations;
      && |a| == |b|
      && forall i :: 0 <= i < |a| ==> a[i].(savingPotential := None) == b[i].(savingPotential := None)
  {
    assert Evaluate(x).recommendations == Advice(x);
    assert Evaluate(x.(transport := "truck")).recommendations == Advice(x.(transport := "truck"));
    AdviceForUnlistedModeAsTruck(x);
    if x.distance > 150.0 {
      TransportSavingUndefinedForUnlistedMode(x);
    }
  }

  /** "bike" is estimated and broken down as "truck" (its 0.0 factor is
      falsy), yet scores 100 for transport and never gets the transport
      recommendation. */
  lemma BikeChargedAsTruck(x: Inputs)
    requires x.transport == "bike"
    ensures var t := x.(transport := "truck");
      && Evaluate(x).prediction == Evaluate(t).prediction
      && Evaluate(x).pieData == Evaluate(t).pieData
      && Evaluate(x).metrics.transportEfficiency == Some(100)
      && !HasTitle(Evaluate(x).recommendations, "Consider Alternative Transport")
  {
    TransportFallsBackToTruck(x);
    TransportScores();
    AdviceTriggers(x);
  }

}

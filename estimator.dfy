/** The emission estimate (`computeEmission`) and its breakdown
    (`generatePieData`). */
module Estimator {
  import opened Factors
  import opened JsMath

  /** The eight values a request is evaluated on. */
  datatype Inputs = Inputs(
    hours: real, energy: real, material: real, waste: real,
    output: real, distance: real, sector: string, transport: string)

  /** The five emission components, before the efficiency factor. */
  datatype Components = Components(
    energy: real, materials: real, operations: real, transport: real, waste: real)

  /** A pie-chart entry. */
  datatype Slice = Slice(name: string, value: real)

  /** The quantities the estimate scales; when all are non-negative so is
      every component. */
  predicate NonNegativeQuantities(x: Inputs) {
    x.energy >= 0.0 && x.material >= 0.0 && x.hours >= 0.0 && x.distance >= 0.0 && x.waste >= 0.0
  }

  function Total(c: Components): real {
    c.energy + c.materials + c.operations + c.transport + c.waste
  }

  /** The five components, computed identically in `computeEmission` and in
      `generatePieData`. */
  function ComponentsOf(x: Inputs): Components
  {
    var w := SectorWeights(x.sector);
    Components(
      x.energy * EnergyPerKWh * w.energy,
      x.material * MaterialPerKg * w.material,
      x.hours * MachinePerHour * w.operation,
      x.distance * FactorOrTruck(x.transport),
      x.waste * MaterialPerKg * WasteMultiplier)
  }

  /** `Math.max(0.7, 1 - (output / 1000) * 0.3)`: a linear discount that
      reaches its floor of 0.7 at an output of 1000 units. */
  function EfficiencyFactor(output: real): (f: real)
    ensures f >= 0.7
    ensures output >= 1000.0 ==> f == 0.7
    ensures output < 1000.0 ==> f == 1.0 - 0.3 * output / 1000.0
    ensures output >= 0.0 ==> f <= 1.0
  {
    var discounted := 1.0 - (output / 1000.0) * 0.3;
    if 0.7 >= discounted then 0.7 else discounted
  }

  /** `computeEmission`: the components' sum, discounted once for output. */
  function Estimate(x: Inputs): (r: real)
    ensures NonNegativeQuantities(x) ==> r >= 0.0
  {
    var s := Total(ComponentsOf(x));
    var f := EfficiencyFactor(x.output);
    ComponentSigns(x);
    ProductSign(s, f);
    s * f
  }

  lemma ProductSign(s: real, f: real)
    ensures s >= 0.0 && f >= 0.0 ==> s * f >= 0.0
  {
    if s >= 0.0 && f >= 0.0 {
      MultiplyMonotone(f, 0.0, s);
      assert f * s == s * f;
    }
  }

  /** Each component has the sign of the quantity it is made from, because
      every weight and factor is positive. */
  lemma ComponentSigns(x: Inputs)
    ensures var c := ComponentsOf(x);
      && (x.energy >= 0.0 <==> c.energy >= 0.0)
      && (x.material >= 0.0 <==> c.materials >= 0.0)
      && (x.hours >= 0.0 <==> c.operations >= 0.0)
      && (x.distance >= 0.0 <==> c.transport >= 0.0)
      && (x.waste >= 0.0 <==> c.waste >= 0.0)
  {
  }

  /** Five components, each rounded to two decimals, under the names
      `generatePieData` gives them. */
  function Breakdown(c: Components): (r: seq<Slice>)
    ensures |r| == 5
    ensures r[0].name == "Energy" && r[1].name == "Materials" && r[2].name == "Operations"
    ensures r[3].name == "Transport" && r[4].name == "Waste"
  {
    [ Slice("Energy", RoundTo2(c.energy)),
      Slice("Materials", RoundTo2(c.materials)),
      Slice("Operations", RoundTo2(c.operations)),
      Slice("Transport", RoundTo2(c.transport)),
      Slice("Waste", RoundTo2(c.waste)) ]
  }

  /** `generatePieData`: the pre-discount components, each rounded to two
      decimals, in a fixed order. */
  function PieData(x: Inputs): (r: seq<Slice>)
    ensures |r| == 5
    ensures r[0].name == "Energy" && r[1].name == "Materials" && r[2].name == "Operations"
    ensures r[3].name == "Transport" && r[4].name == "Waste"
  {
    Breakdown(ComponentsOf(x))
  }

  /** The components of a slice list, in the list's order. */
  function SliceValues(s: seq<Slice>): seq<real>
    requires |s| == 5
  {
    [s[0].value, s[1].value, s[2].value, s[3].value, s[4].value]
  }

  /** The total of a five-entry breakdown. */
  function SliceSum(s: seq<Slice>): real
    requires |s| == 5
  {
    s[0].value + s[1].value + s[2].value + s[3].value + s[4].value
  }

  function ComponentValues(c: Components): seq<real> {
    [c.energy, c.materials, c.operations, c.transport, c.waste]
  }

  // ---- Properties ----

  /** Each slice is its pre-discount component to within half a cent, has
      at most two decimals, and keeps the component's sign. */
  lemma PieSlicesAreRoundedComponents(x: Inputs)
    ensures var v := SliceValues(PieData(x)); var c := ComponentValues(ComponentsOf(x));
      forall i :: 0 <= i < 5 ==>
        && c[i] - 0.005 < v[i] <= c[i] + 0.005
        && (v[i] * 100.0).Floor as real == v[i] * 100.0
        && (c[i] >= 0.0 ==> v[i] >= 0.0)
  {
    BreakdownRounds(ComponentsOf(x));
  }

  lemma BreakdownRounds(k: Components)
    ensures var v := SliceValues(Breakdown(k)); var c := ComponentValues(k);
      forall i :: 0 <= i < 5 ==>
        && c[i] - 0.005 < v[i] <= c[i] + 0.005
        && (v[i] * 100.0).Floor as real == v[i] * 100.0
        && (c[i] >= 0.0 ==> v[i] >= 0.0)
  {
    var v := SliceValues(Breakdown(k));
    var c := ComponentValues(k);
    forall i | 0 <= i < 5
      ensures c[i] - 0.005 < v[i] <= c[i] + 0.005
      ensures (v[i] * 100.0).Floor as real == v[i] * 100.0
      ensures c[i] >= 0.0 ==> v[i] >= 0.0
    {
      assert v[i] == RoundTo2(c[i]);
      RoundTo2HasTwoDecimals(c[i]);
      if c[i] >= 0.0 { RoundedNonNegative(c[i]); }
    }
  }

  lemma RoundedNonNegative(c: real)
    requires c >= 0.0
    ensures RoundTo2(c) >= 0.0
  {
    RoundMonotone(0.0, c * 100.0);
  }

  /** The breakdown is not discounted: its slices add up to the estimate
      divided by the efficiency factor, up to the five roundings. */
  lemma PieSumMatchesUndiscountedEstimate(x: Inputs)
    ensures var undiscounted := Estimate(x) / EfficiencyFactor(x.output);
      undiscounted - 0.025 < SliceSum(PieData(x)) <= undiscounted + 0.025
  {
    EstimateIsDiscountedTotal(x);
    DiscountedBreakdown(ComponentsOf(x), EfficiencyFactor(x.output), Estimate(x));
  }

  /** Undoing a positive discount e = total * f recovers the breakdown's
      total up to the five roundings. */
  lemma DiscountedBreakdown(k: Components, f: real, e: real)
    requires f > 0.0 && e == Total(k) * f
    ensures e / f - 0.025 < SliceSum(Breakdown(k)) <= e / f + 0.025
  {
    BreakdownSum(k);
    UndoDiscount(e, Total(k), f, SliceSum(Breakdown(k)));
  }

  /** The rounded slices sum to the components' total to within five
      half-cents. */
  lemma BreakdownSum(k: Components)
    ensures Total(k) - 0.025 < SliceSum(Breakdown(k)) <= Total(k) + 0.025
  {
    var v := SliceValues(Breakdown(k));
    var c := ComponentValues(k);
    assert forall i :: 0 <= i < 5 ==> v[i] == RoundTo2(c[i]);
    SumWithinRounding(c, v);
  }

  /** The discount is applied once, to the components' sum. */
  lemma EstimateIsDiscountedTotal(x: Inputs)
    ensures Estimate(x) == Total(ComponentsOf(x)) * EfficiencyFactor(x.output)
  {
  }

  lemma UndoDiscount(e: real, s: real, f: real, sum: real)
    requires f > 0.0 && e == s * f
    requires s - 0.025 < sum <= s + 0.025
    ensures e / f - 0.025 < sum <= e / f + 0.025
  {
    DivideOutFactor(s, f);
  }

  /** Five values each within half a cent of their targets sum to within
      2.5 cents of the targets' sum. */
  lemma SumWithinRounding(c: seq<real>, v: seq<real>)
    requires |c| == 5 && |v| == 5
    requires forall i :: 0 <= i < 5 ==> c[i] - 0.005 < v[i] <= c[i] + 0.005
    ensures var s := c[0] + c[1] + c[2] + c[3] + c[4];
      s - 0.025 < v[0] + v[1] + v[2] + v[3] + v[4] <= s + 0.025
  {
    assert c[0] - 0.005 < v[0] <= c[0] + 0.005;
    assert c[1] - 0.005 < v[1] <= c[1] + 0.005;
    assert c[2] - 0.005 < v[2] <= c[2] + 0.005;
    assert c[3] - 0.005 < v[3] <= c[3] + 0.005;
    assert c[4] - 0.005 < v[4] <= c[4] + 0.005;
  }

  lemma DivideOutFactor(s: real, f: real)
    requires f > 0.0
    ensures (s * f) / f == s
  {
  }

  /** With output at least 0 and non-negative quantities the discount keeps
      the estimate between 70% and 100% of the components' sum. */
  lemma EstimateBetweenDiscountBounds(x: Inputs)
    requires NonNegativeQuantities(x) && x.output >= 0.0
    ensures 0.7 * Total(ComponentsOf(x)) <= Estimate(x) <= Total(ComponentsOf(x))
  {
    var s := Total(ComponentsOf(x));
    var f := EfficiencyFactor(x.output);
    ComponentSigns(x);
    assert s >= 0.0;
    assert 0.7 <= f <= 1.0;
    DiscountBounds(s, f);
    assert Estimate(x) == s * f;
  }

  lemma DiscountBounds(s: real, f: real)
    requires s >= 0.0 && 0.7 <= f <= 1.0
    ensures 0.7 * s <= s * f <= s
  {
    MultiplyMonotone(s, 0.7, f);
    MultiplyMonotone(s, f, 1.0);
  }

  /** Economies of scale: for a non-negative component sum, more output
      never raises the estimate. */
  lemma MoreOutputNeverRaisesEstimate(x: Inputs, more: real)
    requires Total(ComponentsOf(x)) >= 0.0 && x.output <= more
    ensures Estimate(x.(output := more)) <= Estimate(x)
  {
    var y := x.(output := more);
    var s := Total(ComponentsOf(x));
    var f, g := EfficiencyFactor(x.output), EfficiencyFactor(y.output);
    assert ComponentsOf(y) == ComponentsOf(x);
    EfficiencyNonIncreasing(x.output, more);
    MultiplyMonotone(s, g, f);
    calc {
      Estimate(y);
      s * g;
    <= 
      s * f;
      Estimate(x);
    }
  }

  lemma EfficiencyNonIncreasing(a: real, b: real)
    requires a <= b
    ensures EfficiencyFactor(b) <= EfficiencyFactor(a)
  {
  }

  /** An unrecognised sector is costed, and broken down, with
      Manufacturing's weights. */
  lemma UnknownSectorIsManufacturing(x: Inputs)
    requires x.sector !in SectorTable
    ensures Estimate(x) == Estimate(x.(sector := "Manufacturing"))
    ensures PieData(x) == PieData(x.(sector := "Manufacturing"))
  {
    assert ComponentsOf(x) == ComponentsOf(x.(sector := "Manufacturing"));
  }

  /** An unrecognised mode and "bike" are both charged at truck's 0.21/km,
      in the estimate and in the breakdown; every other listed mode at its
      own factor. */
  lemma TransportFallsBackToTruck(x: Inputs)
    requires x.transport !in TransportTable || x.transport == "bike"
    ensures ComponentsOf(x).transport == x.distance * 0.21
    ensures Estimate(x) == Estimate(x.(transport := "truck"))
    ensures PieData(x) == PieData(x.(transport := "truck"))
  {
    assert ComponentsOf(x) == ComponentsOf(x.(transport := "truck"));
  }

  /** The default request: components 820, 5, 2, 42 and 0.75 (sum 869.75),
      efficiency 0.97, estimate 843.6575. */
  lemma DefaultScenario()
    ensures var x := Inputs(40.0, 1000.0, 500.0, 50.0, 100.0, 200.0, "Manufacturing", "truck");
      && ComponentsOf(x) == Components(820.0, 5.0, 2.0, 42.0, 0.75)
      && Total(ComponentsOf(x)) == 869.75
      && EfficiencyFactor(x.output) == 0.97
      && Estimate(x) == 843.6575
      && SliceValues(PieData(x)) == [820.0, 5.0, 2.0, 42.0, 0.75]
  {
    var x := Inputs(40.0, 1000.0, 500.0, 50.0, 100.0, 200.0, "Manufacturing", "truck");
    RoundUnique(82000.0, 82000);
    RoundUnique(500.0, 500);
    RoundUnique(200.0, 200);
    RoundUnique(4200.0, 4200);
    RoundUnique(75.0, 75);
  }

}

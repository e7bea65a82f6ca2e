/** The six-month projection (`generateBarData`). */
module Projection {
  import opened Factors
  import opened JsMath

  /** A bar-chart entry. */
  datatype Bar = Bar(name: string, emissions: int)

  const Months: seq<string> := ["Jan", "Feb", "Mar", "Apr", "May", "Jun"]

  /** One month's bar: the estimate scaled by that month's multiplier,
      rounded to a whole number. */
  function MonthBar(prediction: real, pattern: seq<real>, i: nat): (b: Bar)
    requires i < 6 && |pattern| == 6
    ensures b.name == Months[i]
    ensures prediction * pattern[i] - 0.5 < b.emissions as real <= prediction * pattern[i] + 0.5
  {
    Bar(Months[i], Round(prediction * pattern[i]))
  }

  /** `generateBarData`: the estimate scaled by the sector's seasonal
      multiplier for each month, rounded to a whole number. */
  function BarData(prediction: real, sector: string): (r: seq<Bar>)
    ensures |r| == 6
    ensures forall i :: 0 <= i < 6 ==> r[i].name == Months[i]
    ensures forall i :: 0 <= i < 6 ==>
      prediction * SeasonalPattern(sector)[i] - 0.5 < r[i].emissions as real
        <= prediction * SeasonalPattern(sector)[i] + 0.5
  {
    var pattern := SeasonalPattern(sector);
    seq(6, i requires 0 <= i < 6 => MonthBar(prediction, pattern, i))
  }

  /** A non-negative estimate projects to non-negative months, each within
      0.9 to 1.3 times the estimate (up to rounding). */
  lemma ProjectionBounds(prediction: real, sector: string)
    requires prediction >= 0.0
    ensures forall i :: 0 <= i < 6 ==>
      && 0 <= BarData(prediction, sector)[i].emissions
      && 0.9 * prediction - 0.5 < BarData(prediction, sector)[i].emissions as real <= 1.3 * prediction + 0.5
  {
    var r := BarData(prediction, sector);
    var p := SeasonalPattern(sector);
    forall i | 0 <= i < 6
      ensures 0 <= r[i].emissions
      ensures 0.9 * prediction - 0.5 < r[i].emissions as real <= 1.3 * prediction + 0.5
    {
      ScaleWithin(prediction, p[i]);
    }
  }

  lemma ScaleWithin(prediction: real, m: real)
    requires prediction >= 0.0 && 0.9 <= m <= 1.3
    ensures 0.9 * prediction <= prediction * m <= 1.3 * prediction
  {
    assert prediction * m - 0.9 * prediction == prediction * (m - 0.9);
    assert 1.3 * prediction - prediction * m == prediction * (1.3 - m);
  }

  /** An unrecognised sector is projected with Manufacturing's pattern. */
  lemma UnknownSectorProjectsAsManufacturing(prediction: real, sector: string)
    requires sector !in SeasonalTable
    ensures BarData(prediction, sector) == BarData(prediction, "Manufacturing")
  {
  }

  /** Every sector except Retail and Healthcare (including an unlisted one)
      has a pattern that never falls from one month to the next. */
  lemma PatternNeverFalls(sector: string)
    requires sector != "Retail" && sector != "Healthcare"
    ensures var p := SeasonalPattern(sector);
      forall i, j :: 0 <= i <= j < 6 ==> p[i] <= p[j]
  {
    var p := SeasonalPattern(sector);
    if sector == "IT/Software" {
      assert p == [1.0, 1.0, 1.0, 1.05, 1.05, 1.1];
    } else if sector == "Hospitality" {
      assert p == [0.9, 0.95, 1.0, 1.1, 1.2, 1.3];
    } else {
      assert p == [1.0, 1.05, 1.1, 1.15, 1.2, 1.25];
    }
  }

  /** For every sector except Retail and Healthcare, a non-negative
      estimate gives a projection that never falls from one month to the
      next. */
  lemma RisingSectorsNeverFall(prediction: real, sector: string)
    requires prediction >= 0.0
    requires sector != "Retail" && sector != "Healthcare"
    ensures forall i, j :: 0 <= i <= j < 6 ==>
      BarData(prediction, sector)[i].emissions <= BarData(prediction, sector)[j].emissions
  {
    PatternNeverFalls(sector);
    forall i, j | 0 <= i <= j < 6
      ensures BarData(prediction, sector)[i].emissions <= BarData(prediction, sector)[j].emissions
    {
      MonthsInOrder(prediction, sector, i, j);
    }
  }

  lemma MonthsInOrder(prediction: real, sector: string, i: nat, j: nat)
    requires prediction >= 0.0 && i < 6 && j < 6
    requires SeasonalPattern(sector)[i] <= SeasonalPattern(sector)[j]
    ensures BarData(prediction, sector)[i].emissions <= BarData(prediction, sector)[j].emissions
  {
    var p := SeasonalPattern(sector);
    MonthBarsInOrder(prediction, p, i, j);
  }

  lemma MonthBarsInOrder(prediction: real, pattern: seq<real>, i: nat, j: nat)
    requires prediction >= 0.0 && i < 6 && j < 6 && |pattern| == 6
    requires pattern[i] <= pattern[j]
    ensures MonthBar(prediction, pattern, i).emissions <= MonthBar(prediction, pattern, j).emissions
  {
    MultiplyMonotone(prediction, pattern[i], pattern[j]);
    RoundMonotone(prediction * pattern[i], prediction * pattern[j]);
  }

  /** Retail, estimate 1000: 1200, 1000, 900, 950, 1000, 1100. */
  lemma RetailExample()
    ensures BarData(1000.0, "Retail") ==
      [Bar("Jan", 1200), Bar("Feb", 1000), Bar("Mar", 900),
       Bar("Apr", 950), Bar("May", 1000), Bar("Jun", 1100)]
  {
    var r := BarData(1000.0, "Retail");
    RoundUnique(1200.0, 1200);
    RoundUnique(1000.0, 1000);
    RoundUnique(900.0, 900);
    RoundUnique(950.0, 950);
    RoundUnique(1100.0, 1100);
  }

}

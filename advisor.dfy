/** The recommendations (`generateRecommendations`): independent threshold
    rules, evaluated in a fixed order, each adding one record when it fires,
    followed by a renewable-energy record that is always added. */
module Advisor {
  import opened Wrappers
  import opened Factors
  import opened JsMath
  import opened Estimator

  datatype Category = Energy | Waste | Transport | Operations

  datatype Impact = Medium | High

  /** A recommendation record; its free-text description is not modelled. */
  datatype Recommendation = Recommendation(
    category: Category, title: string, impact: Impact, savingPotential: Option<int>)

  datatype Rule = ReduceEnergy | OptimizeMaterial | AlternativeTransport | OptimizeHours | RenewableEnergy

  /** The conditional rules, in the order they are evaluated. */
  const ConditionalRules: seq<Rule> := [ReduceEnergy, OptimizeMaterial, AlternativeTransport, OptimizeHours]

  /** A rule's place in the evaluation order. */
  function Rank(r: Rule): nat {
    match r
    case ReduceEnergy => 0
    case OptimizeMaterial => 1
    case AlternativeTransport => 2
    case OptimizeHours => 3
    case RenewableEnergy => 4
  }

  function Title(r: Rule): string {
    match r
    case ReduceEnergy => "Reduce Energy Consumption"
    case OptimizeMaterial => "Optimize Material Usage"
    case AlternativeTransport => "Consider Alternative Transport"
    case OptimizeHours => "Optimize Operational Hours"
    case RenewableEnergy => "Switch to Renewable Energy"
  }

  /** The rank of the rule a title belongs to; 5 for any other text. Each
      length test is implied by the equality after it and only lets a
      mismatch be seen without comparing characters. */
  function TitleRank(t: string): nat {
    if |t| == 25 && t == Title(ReduceEnergy) then 0
    else if |t| == 23 && t == Title(OptimizeMaterial) then 1
    else if |t| == 30 && t == Title(AlternativeTransport) then 2
    else if |t| == 26 && t == Title(OptimizeHours) then 3
    else if |t| == 26 && t == Title(RenewableEnergy) then 4
    else 5
  }

  /** The trigger of each rule. */
  predicate Fires(r: Rule, x: Inputs) {
    match r
    case ReduceEnergy => x.energy > 800.0
    case OptimizeMaterial => x.waste > 40.0
    case AlternativeTransport => x.distance > 150.0 && x.transport != "train" && x.transport != "bike"
    case OptimizeHours => x.hours > 40.0 && x.sector != "IT/Software"
    case RenewableEnergy => true
  }

  /** `Math.round(distance * (EMISSION_FACTORS.transport[mode] - EMISSION_FACTORS.transport.train))`:
      a direct lookup, so NaN (None) for a mode the table lacks. */
  function TransportSaving(x: Inputs): Option<int> {
    match DirectFactor(x.transport)
    case None => None
    case Some(f) => Some(Round(x.distance * (f - TransportTable["train"])))
  }

  /** The record a rule adds. */
  function Record(r: Rule, x: Inputs): (rec: Recommendation)
    ensures rec.title == Title(r)
  {
    match r
    case ReduceEnergy =>
      Recommendation(Energy, Title(r), High, Some(Round(x.energy * 0.3 * EnergyPerKWh)))
    case OptimizeMaterial =>
      Recommendation(Waste, Title(r), Medium, Some(Round(x.waste * 0.4 * MaterialPerKg * WasteMultiplier)))
    case AlternativeTransport =>
      Recommendation(Transport, Title(r), High, TransportSaving(x))
    case OptimizeHours =>
      Recommendation(Operations, Title(r), Medium, Some(Round(x.hours * 0.1 * MachinePerHour)))
    case RenewableEnergy =>
      Recommendation(Energy, Title(r), High, Some(Round(x.energy * EnergyPerKWh * 0.7)))
  }

  /** The record a rule pushes: one record when its trigger holds, none
      otherwise. */
  function Guarded(r: Rule, x: Inputs): (a: seq<Recommendation>)
    ensures |a| <= 1
  {
    if Fires(r, x) then [Record(r, x)] else []
  }

  /** The records of the rules that fire, in the rules' order. */
  function Triggered(rules: seq<Rule>, x: Inputs): (a: seq<Recommendation>)
    ensures |a| <= |rules|
    decreases |rules|
  {
    if rules == [] then []
    else Guarded(rules[0], x) + Triggered(rules[1..], x)
  }

  /** What `generateRecommendations` returns, as a specification. */
  function Advice(x: Inputs): seq<Recommendation> {
    Triggered(ConditionalRules, x) + [Record(RenewableEnergy, x)]
  }

  /** `generateRecommendations`: guarded pushes onto a list, in the
      source's order. `prediction` is accepted and never read. */
  method GenerateRecommendations(x: Inputs, prediction: real) returns (recs: seq<Recommendation>)
    ensures recs == Advice(x)
    ensures 1 <= |recs| <= 5
    ensures recs[|recs| - 1] == Record(RenewableEnergy, x)
  {
    recs := [];
    if x.energy > 800.0 {
      recs := recs + [Record(ReduceEnergy, x)];
    }
    assert recs == Guarded(ReduceEnergy, x);
    if x.waste > 40.0 {
      recs := recs + [Record(OptimizeMaterial, x)];
    }
    assert recs == Guarded(ReduceEnergy, x) + Guarded(OptimizeMaterial, x);
    if x.distance > 150.0 && x.transport != "train" && x.transport != "bike" {
      recs := recs + [Record(AlternativeTransport, x)];
    }
    assert recs == Guarded(ReduceEnergy, x) + Guarded(OptimizeMaterial, x)
      + Guarded(AlternativeTransport, x);
    if x.hours > 40.0 && x.sector != "IT/Software" {
      recs := recs + [Record(OptimizeHours, x)];
    }
    assert recs == Guarded(ReduceEnergy, x) + Guarded(OptimizeMaterial, x)
      + Guarded(AlternativeTransport, x) + Guarded(OptimizeHours, x);
    RuleFilterUnfolded(x);
    recs := recs + [Record(RenewableEnergy, x)];
    AdviceShape(x);
  }

  // ---- Properties ----

  /** Evaluating one more rule appends its record when it fires. */
  lemma {:induction false} TriggeredSnoc(rules: seq<Rule>, r: Rule, x: Inputs)
    ensures Triggered(rules + [r], x) == Triggered(rules, x) + Guarded(r, x)
    decreases |rules|
  {
    if rules == [] {
      assert rules + [r] == [r];
      assert [r][1..] == [];
      assert Guarded(r, x) + [] == Guarded(r, x);
    } else {
      assert (rules + [r])[0] == rules[0];
      assert (rules + [r])[1..] == rules[1..] + [r];
      TriggeredSnoc(rules[1..], r, x);
    }
  }

  /** The rule filter over the four conditional rules is their guarded
      pushes, one after the other. */
  lemma RuleFilterUnfolded(x: Inputs)
    ensures Triggered(ConditionalRules, x) == Guarded(ReduceEnergy, x) + Guarded(OptimizeMaterial, x)
      + Guarded(AlternativeTransport, x) + Guarded(OptimizeHours, x)
  {
    var r1, r2, r3 := [ReduceEnergy], [ReduceEnergy, OptimizeMaterial],
      [ReduceEnergy, OptimizeMaterial, AlternativeTransport];
    TriggeredSnoc([], ReduceEnergy, x);
    assert [] + [ReduceEnergy] == r1;
    TriggeredSnoc(r1, OptimizeMaterial, x);
    assert r1 + [OptimizeMaterial] == r2;
    TriggeredSnoc(r2, AlternativeTransport, x);
    assert r2 + [AlternativeTransport] == r3;
    TriggeredSnoc(r3, OptimizeHours, x);
    assert r3 + [OptimizeHours] == ConditionalRules;
    assert [] + Guarded(ReduceEnergy, x) == Guarded(ReduceEnergy, x);
  }

  /** Two inputs on which every rule fires alike and gives the same record
      get the same conditional records. */
  lemma {:induction false} TriggeredAgree(rules: seq<Rule>, x: Inputs, y: Inputs)
    requires forall r :: Fires(r, x) == Fires(r, y)
    requires forall r :: Record(r, x) == Record(r, y)
    ensures Triggered(rules, x) == Triggered(rules, y)
    decreases |rules|
  {
    if rules != [] {
      TriggeredAgree(rules[1..], x, y);
    }
  }

  /** Every record Triggered returns is the record of a listed rule that
      fired. */
  lemma {:induction false} TriggeredComesFromFiringRule(rules: seq<Rule>, x: Inputs, k: nat)
    requires k < |Triggered(rules, x)|
    ensures exists r :: r in rules && Fires(r, x) && Triggered(rules, x)[k] == Record(r, x)
    decreases |rules|
  {
    var rest := rules[1..];
    assert rules == [rules[0]] + rest;
    if Fires(rules[0], x) {
      assert Triggered(rules, x) == [Record(rules[0], x)] + Triggered(rest, x);
      if k > 0 {
        TriggeredComesFromFiringRule(rest, x, k - 1);
      }
    } else {
      assert Triggered(rules, x) == [] + Triggered(rest, x) == Triggered(rest, x);
      TriggeredComesFromFiringRule(rest, x, k);
    }
  }

  /** Every listed rule that fires contributes its record. */
  lemma {:induction false} FiringRuleIsTriggered(rules: seq<Rule>, x: Inputs, r: Rule)
    requires r in rules && Fires(r, x)
    ensures Record(r, x) in Triggered(rules, x)
    decreases |rules|
  {
    var rest := rules[1..];
    assert rules == [rules[0]] + rest;
    if rules[0] != r {
      FiringRuleIsTriggered(rest, x, r);
    }
  }

  /** The records' titles rank strictly increasing from first to last. */
  predicate TitlesAscend(a: seq<Recommendation>) {
    forall i, j :: 0 <= i < j < |a| ==> TitleRank(a[i].title) < TitleRank(a[j].title)
  }

  /** Rules listed in strictly increasing rank give records whose titles
      are in strictly increasing rank. */
  lemma {:induction false} TriggeredOrdered(rules: seq<Rule>, x: Inputs)
    requires forall i, j :: 0 <= i < j < |rules| ==> Rank(rules[i]) < Rank(rules[j])
    ensures TitlesAscend(Triggered(rules, x))
    decreases |rules|
  {
    if rules != [] {
      var rest := rules[1..];
      TriggeredOrdered(rest, x);
      var b := Triggered(rest, x);
      if Fires(rules[0], x) {
        var h := Record(rules[0], x);
        forall r | r in rest
          ensures Rank(rules[0]) < Rank(r)
        {
          var m :| 0 <= m < |rest| && rest[m] == r;
          assert rules[m + 1] == r;
        }
        TriggeredRanksAbove(rest, x, Rank(rules[0]));
        TitleRankOfTitle(rules[0]);
        AscendCons(h, b);
      }
    }
  }

  /** A record ranked below every record of an ascending list can be put
      in front of it. */
  lemma AscendCons(h: Recommendation, b: seq<Recommendation>)
    requires TitlesAscend(b)
    requires forall j :: 0 <= j < |b| ==> TitleRank(h.title) < TitleRank(b[j].title)
    ensures TitlesAscend([h] + b)
  {
    var a := [h] + b;
    forall i, j | 0 <= i < j < |a|
      ensures TitleRank(a[i].title) < TitleRank(a[j].title)
    {
      assert a[j] == b[j - 1];
      if i > 0 {
        assert a[i] == b[i - 1];
      }
    }
  }

  /** Rules ranked above a bound give records whose titles rank above it. */
  lemma {:induction false} TriggeredRanksAbove(rules: seq<Rule>, x: Inputs, bound: int)
    requires forall r :: r in rules ==> bound < Rank(r)
    ensures forall rec :: rec in Triggered(rules, x) ==> bound < TitleRank(rec.title)
    decreases |rules|
  {
    if rules != [] {
      assert rules == [rules[0]] + rules[1..];
      TriggeredRanksAbove(rules[1..], x, bound);
      TitleRankOfTitle(rules[0]);
    }
  }

  lemma TitleRankOfTitle(r: Rule)
    ensures TitleRank(Title(r)) == Rank(r)
  {
  }

  /** No two rules share a title. */
  lemma TitleInjective(r: Rule, s: Rule)
    ensures Title(r) == Title(s) <==> r == s
  {
    TitleRankOfTitle(r);
    TitleRankOfTitle(s);
  }

  /** The conditional rules are all the rules but the renewable one. */
  lemma ConditionalRule(r: Rule)
    ensures r in ConditionalRules <==> r != RenewableEnergy
  {
  }


  predicate HasTitle(a: seq<Recommendation>, t: string) {
    exists i :: 0 <= i < |a| && a[i].title == t
  }

  /** Between one and five records; the last is always the renewable-energy
      record, with saving round(energy * 0.82 * 0.7). */
  lemma AdviceShape(x: Inputs)
    ensures var a := Advice(x);
      && 1 <= |a| <= 5
      && a[|a| - 1] == Recommendation(Energy, "Switch to Renewable Energy", High,
           Some(Round(x.energy * 0.82 * 0.7)))
  {
  }

  /** Each conditional record is present exactly when its trigger holds. */
  lemma AdviceTriggers(x: Inputs)
    ensures HasTitle(Advice(x), "Reduce Energy Consumption") <==> x.energy > 800.0
    ensures HasTitle(Advice(x), "Optimize Material Usage") <==> x.waste > 40.0
    ensures HasTitle(Advice(x), "Consider Alternative Transport") <==>
      x.distance > 150.0 && x.transport != "train" && x.transport != "bike"
    ensures HasTitle(Advice(x), "Optimize Operational Hours") <==>
      x.hours > 40.0 && x.sector != "IT/Software"
  {
    PresentIffFires(x, ReduceEnergy);
    PresentIffFires(x, OptimizeMaterial);
    PresentIffFires(x, AlternativeTransport);
    PresentIffFires(x, OptimizeHours);
  }

  lemma PresentIffFires(x: Inputs, r: Rule)
    requires r != RenewableEnergy
    ensures HasTitle(Advice(x), Title(r)) <==> Fires(r, x)
  {
    if Fires(r, x) {
      FiresThenPresent(x, r);
    }
    if HasTitle(Advice(x), Title(r)) {
      PresentThenFires(x, r);
    }
  }

  lemma FiresThenPresent(x: Inputs, r: Rule)
    requires r != RenewableEnergy && Fires(r, x)
    ensures HasTitle(Advice(x), Title(r))
  {
    ConditionalRule(r);
    var t := Triggered(ConditionalRules, x);
    FiringRuleIsTriggered(ConditionalRules, x, r);
    var i :| 0 <= i < |t| && t[i] == Record(r, x);
    assert Advice(x)[i] == t[i];
  }

  lemma PresentThenFires(x: Inputs, r: Rule)
    requires r != RenewableEnergy && HasTitle(Advice(x), Title(r))
    ensures Fires(r, x)
  {
    var a := Advice(x);
    var t := Triggered(ConditionalRules, x);
    var i :| 0 <= i < |a| && a[i].title == Title(r);
    TitleInjective(r, RenewableEnergy);
    assert a[|t|] == Record(RenewableEnergy, x);
    assert a[i] == t[i];
    TriggeredComesFromFiringRule(ConditionalRules, x, i);
    var q :| q in ConditionalRules && Fires(q, x) && t[i] == Record(q, x);
    TitleInjective(q, r);
  }



  /** The records follow the evaluation order (energy, waste, transport,
      operations, renewable), so no title appears twice. */
  lemma AdviceOrdered(x: Inputs)
    ensures TitlesAscend(Advice(x))
    ensures var a := Advice(x);
      forall i, j :: 0 <= i < j < |a| ==> a[i].title != a[j].title
  {
    var rs := ConditionalRules;
    var t, h := Triggered(rs, x), Record(RenewableEnergy, x);
    TriggeredOrdered(rs, x);
    ConditionalRule(RenewableEnergy);
    TriggeredRanksBelowRenewable(rs, x);
    TitleRankOfTitle(RenewableEnergy);
    assert forall j :: 0 <= j < |t| ==> TitleRank(t[j].title) < TitleRank(h.title);
    AscendSnoc(t, h);
    assert Advice(x) == t + [h];
  }


  /** Records of rules other than the renewable one rank below it. */
  lemma {:induction false} TriggeredRanksBelowRenewable(rules: seq<Rule>, x: Inputs)
    requires RenewableEnergy !in rules
    ensures forall rec :: rec in Triggered(rules, x) ==> TitleRank(rec.title) < 4
    decreases |rules|
  {
    if rules != [] {
      assert rules == [rules[0]] + rules[1..];
      TriggeredRanksBelowRenewable(rules[1..], x);
      TitleRankOfTitle(rules[0]);
    }
  }

  /** A record ranked above every record of an ascending list can be put
      after it. */
  lemma AscendSnoc(b: seq<Recommendation>, h: Recommendation)
    requires TitlesAscend(b)
    requires forall j :: 0 <= j < |b| ==> TitleRank(b[j].title) < TitleRank(h.title)
    ensures TitlesAscend(b + [h])
  {
    var a := b + [h];
    forall i, j | 0 <= i < j < |a|
      ensures TitleRank(a[i].title) < TitleRank(a[j].title)
    {
      assert a[i] == b[i];
      if j < |b| {
        assert a[j] == b[j];
      }
    }
  }

  predicate NonNegativeSaving(r: Recommendation) {
    r.savingPotential.None? || r.savingPotential.value >= 0
  }

  /** A conditional record never promises a negative saving; the renewable
      one does not when energy is non-negative. */
  lemma AdviceSavingsNonNegative(x: Inputs)
    ensures var a := Advice(x);
      forall i :: 0 <= i < |a| - 1 ==> NonNegativeSaving(a[i])
    ensures x.energy >= 0.0 ==> NonNegativeSaving(Advice(x)[|Advice(x)| - 1])
  {
    var t := Triggered(ConditionalRules, x);
    ConditionalRule(RenewableEnergy);
    TriggeredSavesNonNegative(ConditionalRules, x);
    assert forall i :: 0 <= i < |t| ==> Advice(x)[i] == t[i];
  }

  lemma FiringRecordSavesNonNegative(r: Rule, x: Inputs)
    requires r != RenewableEnergy && Fires(r, x)
    ensures NonNegativeSaving(Record(r, x))
  {
    if r == AlternativeTransport && x.transport in TransportTable {
      var f := TransportTable[x.transport];
      assert f - 0.04 >= 0.0;
      MultiplyMonotone(x.distance, 0.0, f - 0.04);
    }
  }

  /** No rule but the renewable one promises a negative saving. */
  lemma {:induction false} TriggeredSavesNonNegative(rules: seq<Rule>, x: Inputs)
    requires RenewableEnergy !in rules
    ensures forall rec :: rec in Triggered(rules, x) ==> NonNegativeSaving(rec)
    decreases |rules|
  {
    if rules != [] {
      assert rules == [rules[0]] + rules[1..];
      TriggeredSavesNonNegative(rules[1..], x);
      if Fires(rules[0], x) {
        FiringRecordSavesNonNegative(rules[0], x);
      }
    }
  }

  /** The transport record's saving is undefined exactly for an unlisted
      mode. */
  lemma TransportSavingUndefinedForUnlistedMode(x: Inputs)
    requires x.distance > 150.0 && x.transport != "train" && x.transport != "bike"
    ensures Record(AlternativeTransport, x) in Advice(x)
    ensures Record(AlternativeTransport, x).savingPotential.None? <==> x.transport !in TransportTable
    ensures x.transport !in TransportTable ==>
      Recommendation(Transport, "Consider Alternative Transport", High, None) in Advice(x)
  {
    var rs := ConditionalRules;
    FiringRuleIsTriggered(rs, x, AlternativeTransport);
    assert Advice(x) == Triggered(rs, x) + [Record(RenewableEnergy, x)];
  }

  /** Material, output and the estimate do not influence the advice. */
  lemma AdviceIgnoresMaterialAndOutput(x: Inputs, material: real, output: real)
    ensures Advice(x.(material := material, output := output)) == Advice(x)
  {
    var y := x.(material := material, output := output);
    forall r | true
      ensures Fires(r, y) == Fires(r, x) && Record(r, y) == Record(r, x)
    {
    }
    TriggeredAgree(ConditionalRules, y, x);
  }

  /** The sector matters to the advice only through being "IT/Software" or
      not. */
  lemma AdviceSeesOnlyWhetherSectorIsSoftware(x: Inputs, sector: string)
    requires (x.sector == "IT/Software") == (sector == "IT/Software")
    ensures Advice(x.(sector := sector)) == Advice(x)
  {
    var y := x.(sector := sector);
    forall r | true
      ensures Fires(r, y) == Fires(r, x) && Record(r, y) == Record(r, x)
    {
    }
    TriggeredAgree(ConditionalRules, y, x);
  }

  /** Two inputs on which every rule fires alike, and whose records differ
      at most in their saving, get the same records up to the saving. */
  lemma {:induction false} TriggeredAgreeUpToSaving(rules: seq<Rule>, x: Inputs, y: Inputs)
    requires forall r :: Fires(r, x) == Fires(r, y)
    requires forall r :: Record(r, x).(savingPotential := None) == Record(r, y).(savingPotential := None)
    ensures var a, b := Triggered(rules, x), Triggered(rules, y);
      && |a| == |b|
      && forall i :: 0 <= i < |a| ==> a[i].(savingPotential := None) == b[i].(savingPotential := None)
    decreases |rules|
  {
    if rules != [] {
      TriggeredAgreeUpToSaving(rules[1..], x, y);
      var a, b := Triggered(rules, x), Triggered(rules, y);
      var a', b' := Triggered(rules[1..], x), Triggered(rules[1..], y);
      if Fires(rules[0], x) {
        assert a == [Record(rules[0], x)] + a';
        assert b == [Record(rules[0], y)] + b';
        forall i | 0 <= i < |a|
          ensures a[i].(savingPotential := None) == b[i].(savingPotential := None)
        {
          if i > 0 {
            assert a[i] == a'[i - 1] && b[i] == b'[i - 1];
          }
        }
      } else {
        assert a == a' && b == b';
      }
    }
  }

  lemma RenewableSeesOnlyEnergy(x: Inputs, y: Inputs)
    requires x.energy == y.energy
    ensures Record(RenewableEnergy, x) == Record(RenewableEnergy, y)
  {
  }

  /** An unlisted mode gets the advice "truck" gets, record by record,
      except for the transport saving. */
  lemma AdviceForUnlistedModeAsTruck(x: Inputs)
    requires x.transport !in TransportTable
    ensures var a, b := Advice(x), Advice(x.(transport := "truck"));
      && |a| == |b|
      && forall i :: 0 <= i < |a| ==> a[i].(savingPotential := None) == b[i].(savingPotential := None)
  {
    var t := x.(transport := "truck");
    forall r | true
      ensures Fires(r, x) == Fires(r, t)
      ensures Record(r, x).(savingPotential := None) == Record(r, t).(savingPotential := None)
    {
    }
    TriggeredAgreeUpToSaving(ConditionalRules, x, t);
    var a, b := Triggered(ConditionalRules, x), Triggered(ConditionalRules, t);
    var ra, rb := Record(RenewableEnergy, x), Record(RenewableEnergy, t);
    RenewableSeesOnlyEnergy(x, t);
    assert Advice(x) == a + [ra];
    assert Advice(t) == b + [rb];
  }

}

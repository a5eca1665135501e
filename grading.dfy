/** The weighted-average grade that both the front end and the back end compute,
    Σ(score/total·weight) / Σweight · 100, and the first-match 90/85/75 tiers.
    The sums are defined by recursion on the last component, the order in which
    the source's loops accumulate them. */
module Grading {
  import opened Models

  /** Every component has a positive maximum, so score/total is defined. */
  predicate WellFormed(comps: seq<Component>) {
    forall i :: 0 <= i < |comps| ==> comps[i].total > 0.0
  }

  predicate NonNegativeWeights(comps: seq<Component>) {
    forall i :: 0 <= i < |comps| ==> comps[i].weight >= 0.0
  }

  /** Component names are unique within a subject. */
  predicate UniqueNames(comps: seq<Component>) {
    forall i, j :: 0 <= i < j < |comps| ==> comps[i].name != comps[j].name
  }

  /** The score a component is graded with: its what-if override when there is
      one (an override of 0 included), its recorded score otherwise. */
  function EffectiveScore(c: Component, sims: map<string, real>): real {
    if c.name in sims then sims[c.name] else c.scored
  }

  /** Every effective score lies between 0 and the component's maximum. */
  predicate ScoresInRange(comps: seq<Component>, sims: map<string, real>) {
    forall i :: 0 <= i < |comps| ==> 0.0 <= EffectiveScore(comps[i], sims) <= comps[i].total
  }

  /** What one component adds to the weighted score: score/total·weight. */
  function Contribution(c: Component, sims: map<string, real>): real
    requires c.total > 0.0
  {
    EffectiveScore(c, sims) / c.total * c.weight
  }

  /** Σ score/total·weight over every component, each counted once. */
  function WeightedScore(comps: seq<Component>, sims: map<string, real>): real
    requires WellFormed(comps)
  {
    if comps == [] then 0.0
    else WeightedScore(comps[..|comps| - 1], sims) + Contribution(comps[|comps| - 1], sims)
  }

  /** Σ weight over every component. */
  function TotalWeight(comps: seq<Component>): real {
    if comps == [] then 0.0 else TotalWeight(comps[..|comps| - 1]) + comps[|comps| - 1].weight
  }

  /** The back end's guarded ratio: weighted / weight · 100 when the weight is
      positive, and 0 otherwise. */
  function Percentage(weighted: real, weight: real): (p: real)
    ensures weight <= 0.0 ==> p == 0.0
    ensures weight > 0.0 ==> p * weight == weighted * 100.0
  {
    if weight > 0.0 then weighted / weight * 100.0 else 0.0
  }

  /** First-match classification: >= 90 Excellent, >= 85 On Track, >= 75 At
      Risk, anything else Critical. */
  function Tier(grade: real): (s: Status)
    ensures s == Excellent <==> grade >= 90.0
    ensures s == OnTrack <==> 85.0 <= grade < 90.0
    ensures s == AtRisk <==> 75.0 <= grade < 85.0
    ensures s == Critical <==> grade < 75.0
  {
    if grade >= 90.0 then Excellent
    else if grade >= 85.0 then OnTrack
    else if grade >= 75.0 then AtRisk
    else Critical
  }

  /** The tiers in increasing order of standing. */
  function Rank(s: Status): nat {
    match s
    case Critical => 0
    case AtRisk => 1
    case OnTrack => 2
    case Excellent => 3
  }

  /** A higher grade never lands in a lower tier. */
  lemma TierMonotone(a: real, b: real)
    requires a <= b
    ensures Rank(Tier(a)) <= Rank(Tier(b))
  {
  }

  /** One component contributes between 0 and its weight when its score is in range. */
  lemma ContributionBounds(c: Component, sims: map<string, real>)
    requires c.total > 0.0 && c.weight >= 0.0
    requires 0.0 <= EffectiveScore(c, sims) <= c.total
    ensures 0.0 <= Contribution(c, sims) <= c.weight
  {
    var f := EffectiveScore(c, sims) / c.total;
    assert f * c.total == EffectiveScore(c, sims);
    assert 0.0 <= f <= 1.0;
    assert c.weight - f * c.weight == (1.0 - f) * c.weight;
    assert (1.0 - f) * c.weight >= 0.0;
  }

  /** With every score in range and no negative weight, the weighted score lies
      between 0 and the total weight. */
  lemma {:induction false} WeightedScoreBounds(comps: seq<Component>, sims: map<string, real>)
    requires WellFormed(comps) && NonNegativeWeights(comps) && ScoresInRange(comps, sims)
    ensures 0.0 <= WeightedScore(comps, sims) <= TotalWeight(comps)
  {
    if comps != [] {
      var n := |comps| - 1;
      var init := comps[..n];
      assert WellFormed(init) && NonNegativeWeights(init) && ScoresInRange(init, sims) by {
        forall i | 0 <= i < |init| ensures init[i] == comps[i] { }
      }
      WeightedScoreBounds(init, sims);
      ContributionBounds(comps[n], sims);
    }
  }

  /** The guarded percentage of such a subject lies between 0 and 100. */
  lemma PercentageBounds(comps: seq<Component>, sims: map<string, real>)
    requires WellFormed(comps) && NonNegativeWeights(comps) && ScoresInRange(comps, sims)
    ensures 0.0 <= Percentage(WeightedScore(comps, sims), TotalWeight(comps)) <= 100.0
  {
    var w := TotalWeight(comps);
    var s := WeightedScore(comps, sims);
    WeightedScoreBounds(comps, sims);
    if w > 0.0 {
      var f := s / w;
      assert f * w == s;
      assert 0.0 <= f <= 1.0;
    }
  }

  /** An override for a name that no component carries changes nothing. */
  lemma {:induction false} OverrideElsewhere(comps: seq<Component>, sims: map<string, real>, name: string, v: real)
    requires WellFormed(comps)
    requires forall i :: 0 <= i < |comps| ==> comps[i].name != name
    ensures WeightedScore(comps, sims[name := v]) == WeightedScore(comps, sims)
  {
    if comps != [] {
      var n := |comps| - 1;
      OverrideElsewhere(comps[..n], sims, name, v);
      assert EffectiveScore(comps[n], sims[name := v]) == EffectiveScore(comps[n], sims);
    }
  }

  /** Raising one component's score raises its contribution when its weight is positive. */
  lemma RaisedScoreRaisesContribution(c: Component, sims: map<string, real>, v: real)
    requires c.total > 0.0 && c.weight > 0.0
    requires v > EffectiveScore(c, sims)
    ensures Contribution(c, sims[c.name := v]) > Contribution(c, sims)
  {
    var e := EffectiveScore(c, sims);
    assert EffectiveScore(c, sims[c.name := v]) == v;
    var d := v / c.total - e / c.total;
    assert d * c.total == v - e;
    assert d > 0.0;
    assert v / c.total * c.weight - e / c.total * c.weight == d * c.weight;
    assert d * c.weight > 0.0;
  }

  /** Raising the override of a component with positive weight strictly raises
      the weighted score, all other inputs held fixed. */
  lemma {:induction false} RaisingOverrideRaisesScore(comps: seq<Component>, sims: map<string, real>, k: nat, v: real)
    requires WellFormed(comps) && UniqueNames(comps)
    requires k < |comps| && comps[k].weight > 0.0
    requires v > EffectiveScore(comps[k], sims)
    ensures WeightedScore(comps, sims[comps[k].name := v]) > WeightedScore(comps, sims)
  {
    var n := |comps| - 1;
    var init := comps[..n];
    var name := comps[k].name;
    assert WellFormed(init) && UniqueNames(init);
    if k == n {
      OverrideElsewhere(init, sims, name, v);
      RaisedScoreRaisesContribution(comps[n], sims, v);
    } else {
      assert init[k] == comps[k];
      RaisingOverrideRaisesScore(init, sims, k, v);
      assert comps[n].name != name;
      assert EffectiveScore(comps[n], sims[name := v]) == EffectiveScore(comps[n], sims);
    }
  }

  /** The same, for the percentage of a subject whose total weight is positive. */
  lemma RaisingOverrideRaisesPercentage(comps: seq<Component>, sims: map<string, real>, k: nat, v: real)
    requires WellFormed(comps) && UniqueNames(comps)
    requires k < |comps| && comps[k].weight > 0.0 && TotalWeight(comps) > 0.0
    requires v > EffectiveScore(comps[k], sims)
    ensures Percentage(WeightedScore(comps, sims[comps[k].name := v]), TotalWeight(comps))
          > Percentage(WeightedScore(comps, sims), TotalWeight(comps))
  {
    RaisingOverrideRaisesScore(comps, sims, k, v);
    var w := TotalWeight(comps);
    var a := WeightedScore(comps, sims);
    var b := WeightedScore(comps, sims[comps[k].name := v]);
    var d := b / w - a / w;
    assert d * w == b - a;
    assert d > 0.0;
  }

  /** A subject whose weights are all zero has neither weight nor weighted score. */
  lemma {:induction false} ZeroWeightsScoreNothing(comps: seq<Component>, sims: map<string, real>)
    requires WellFormed(comps)
    requires forall i :: 0 <= i < |comps| ==> comps[i].weight == 0.0
    ensures WeightedScore(comps, sims) == 0.0 && TotalWeight(comps) == 0.0
  {
    if comps != [] {
      ZeroWeightsScoreNothing(comps[..|comps| - 1], sims);
    }
  }

  /** One step of either sum: the prefix of length k is the prefix of length
      k - 1 plus component k - 1. */
  lemma SumsStep(comps: seq<Component>, sims: map<string, real>, k: nat)
    requires WellFormed(comps) && 0 < k <= |comps|
    ensures WellFormed(comps[..k]) && WellFormed(comps[..k - 1])
    ensures WeightedScore(comps[..k], sims) == WeightedScore(comps[..k - 1], sims) + Contribution(comps[k - 1], sims)
    ensures TotalWeight(comps[..k]) == TotalWeight(comps[..k - 1]) + comps[k - 1].weight
  {
    assert comps[..k][..k - 1] == comps[..k - 1];
  }

  /** Appending a component adds its contribution and its weight. */
  lemma SumsAppend(comps: seq<Component>, sims: map<string, real>, c: Component)
    requires WellFormed(comps) && c.total > 0.0
    ensures WellFormed(comps + [c])
    ensures WeightedScore(comps + [c], sims) == WeightedScore(comps, sims) + Contribution(c, sims)
    ensures TotalWeight(comps + [c]) == TotalWeight(comps) + c.weight
  {
    assert (comps + [c])[..|comps|] == comps;
  }

  /** Both sums of a five-component subject, written out term by term. */
  lemma SumsOfFive(comps: seq<Component>, sims: map<string, real>)
    requires WellFormed(comps) && |comps| == 5
    ensures WeightedScore(comps, sims) == Contribution(comps[0], sims) + Contribution(comps[1], sims)
      + Contribution(comps[2], sims) + Contribution(comps[3], sims) + Contribution(comps[4], sims)
    ensures TotalWeight(comps) == comps[0].weight + comps[1].weight + comps[2].weight + comps[3].weight + comps[4].weight
  {
    assert comps[..0] == [];
    SumsStep(comps, sims, 1);
    SumsStep(comps, sims, 2);
    SumsStep(comps, sims, 3);
    SumsStep(comps, sims, 4);
    SumsStep(comps, sims, 5);
    assert comps[..5] == comps;
  }
}

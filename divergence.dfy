/** How the two copies of the grade computation relate. The page's simulator
    and the back end's `simulate_grade` grade every component and agree whenever
    the total weight is positive; without weight the page shows NaN where the
    back end answers 0. The back end's `create_subject` grades only the
    components that are not pending, so it divides by their weight alone and
    records a higher figure than the page predicts for the same subject. */
module Divergence {
  import opened Models
  import opened Grading
  import opened GradeSimulator
  import Server
  import Mock

  /** With positive total weight, the page's prediction is the back end's
      simulated grade, and both give the same status. */
  lemma SimulationsAgreeWithWeight(comps: seq<Component>, sims: map<string, real>)
    requires WellFormed(comps) && TotalWeight(comps) > 0.0
    ensures PredictedGrade(comps, sims) == Finite(Percentage(WeightedScore(comps, sims), TotalWeight(comps)))
    ensures GetComplianceStatus(PredictedGrade(comps, sims)) == Tier(Percentage(WeightedScore(comps, sims), TotalWeight(comps)))
  {
  }

  /** Without any weight the page predicts NaN and the back end 0; both then
      report Critical. */
  lemma NoWeightDiverges(comps: seq<Component>, sims: map<string, real>)
    requires WellFormed(comps)
    requires forall i :: 0 <= i < |comps| ==> comps[i].weight == 0.0
    ensures PredictedGrade(comps, sims) == NaN
    ensures Percentage(WeightedScore(comps, sims), TotalWeight(comps)) == 0.0
    ensures GetComplianceStatus(PredictedGrade(comps, sims)) == Critical
    ensures Tier(Percentage(WeightedScore(comps, sims), TotalWeight(comps))) == Critical
  {
    ZeroWeightsScoreNothing(comps, sims);
  }

  /** Pending components that still score 0 add nothing to the weighted score:
      only their weight differs between the two copies. */
  lemma {:induction false} UnscoredPendingAddNothing(comps: seq<Component>)
    requires WellFormed(comps)
    requires forall i :: 0 <= i < |comps| && comps[i].pending ==> comps[i].scored == 0.0
    ensures WeightedScore(Server.Graded(comps), map[]) == WeightedScore(comps, map[])
  {
    if comps != [] {
      var n := |comps| - 1;
      var init := comps[..n];
      var last := comps[n];
      assert WellFormed(init);
      UnscoredPendingAddNothing(init);
      var g := Server.Graded(init);
      if last.pending {
        assert Server.Graded(comps) == g + [];
        assert g + [] == g;
        assert Contribution(last, map[]) == 0.0 / last.total * last.weight;
      } else {
        assert Server.Graded(comps) == g + [last];
        SumsAppend(g, map[], last);
      }
    }
  }

  /** For a subject whose pending components still score 0, the page and
      `create_subject` divide the same weighted score, that of the graded
      components: the page by the whole weight, the back end by the graded
      weight alone. */
  lemma CreateSubjectRescales(comps: seq<Component>)
    requires WellFormed(comps)
    requires forall i :: 0 <= i < |comps| && comps[i].pending ==> comps[i].scored == 0.0
    requires TotalWeight(comps) > 0.0
    ensures PredictedGrade(comps, map[])
         == Finite(Percentage(WeightedScore(Server.Graded(comps), map[]), TotalWeight(comps)))
    ensures Server.CurrentMarks(comps)
         == Percentage(WeightedScore(Server.Graded(comps), map[]), TotalWeight(Server.Graded(comps)))
  {
    UnscoredPendingAddNothing(comps);
    SimulationsAgreeWithWeight(comps, map[]);
  }

  /** Three recorded components followed by two pending ones: the first three are graded. */
  lemma ThreeRecordedTwoPending(c0: Component, c1: Component, c2: Component, c3: Component, c4: Component)
    requires !c0.pending && !c1.pending && !c2.pending && c3.pending && c4.pending
    ensures Server.Graded([c0, c1, c2, c3, c4]) == [c0, c1, c2]
  {
    var done: seq<Component> := [c0, c1, c2];
    var open: seq<Component> := [c3, c4];
    assert [c0, c1, c2, c3, c4] == done + open;
    Server.GradedAppend(done, open);
    Server.NothingPendingAllGraded(done);
    assert open[..1] == [c3] && open[..1][..0] == [];
  }

  /** The graded components of "Data Structures" are its first three. */
  lemma DataStructuresGraded()
    ensures Server.Graded(Mock.DataStructures) == Mock.DataStructures[..3]
  {
    var ds := Mock.DataStructures;
    assert ds == [ds[0], ds[1], ds[2], ds[3], ds[4]];
    ThreeRecordedTwoPending(ds[0], ds[1], ds[2], ds[3], ds[4]);
    assert ds[..3] == [ds[0], ds[1], ds[2]];
  }

  /** "Data Structures": the page predicts 1541/30 ≈ 51.37 (Critical), while
      `create_subject` records 3082/39 ≈ 79.03 (At Risk), dividing the same
      weighted score by the graded weight 65 instead of 100. */
  lemma DataStructuresDiverges()
    ensures PredictedGrade(Mock.DataStructures, map[]) == Finite(1541.0 / 30.0)
    ensures GetComplianceStatus(PredictedGrade(Mock.DataStructures, map[])) == Critical
    ensures Server.CurrentMarks(Mock.DataStructures) == 3082.0 / 39.0
    ensures Tier(Server.CurrentMarks(Mock.DataStructures)) == AtRisk
  {
    var ds := Mock.DataStructures;
    DataStructuresExample();
    DataStructuresGraded();
    SumsStep(ds, map[], 1);
    SumsStep(ds, map[], 2);
    SumsStep(ds, map[], 3);
    assert ds[..0] == [];
    assert WeightedScore(ds[..3], map[]) == 1541.0 / 30.0;
    assert TotalWeight(ds[..3]) == 65.0;
  }
}

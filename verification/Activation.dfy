/** The check that an activation runs on a comparison report, independent of the
    comparison that produced it. */
module Activation {
  import opened Common
  import opened Comparison

  predicate SegmentConsistent(r: ComparisonReport, s: SegmentComparison) {
    var recomputed := CompareSegment(s.segmentId, s.baseline, s.candidate, r.policy);
    && s.segmentId != 0
    && s.baseline.segment.modelVersion == r.baselineVersion && s.candidate.segment.modelVersion == r.candidateVersion
    && s.baseline.segment.modeId == s.candidate.segment.modeId
    && s.baseline.segment.scoringRulesVersion == s.candidate.segment.scoringRulesVersion
    && s.baseline.segment.roomSize == s.candidate.segment.roomSize
    && s.baseline.rooms == s.candidate.rooms && s.baseline.players == s.candidate.players
    && recomputed.passed && s.passed && s.reasons == []
    && s.modeId == recomputed.modeId && s.scoringRulesVersion == recomputed.scoringRulesVersion
    && s.roomSize == recomputed.roomSize && s.rooms == recomputed.rooms && s.players == recomputed.players
    && Close(s.delta, recomputed.delta)
  }

  ghost predicate SegmentsConsistent(r: ComparisonReport, k: nat)
    requires k <= |r.segments|
  {
    && (forall i :: 0 <= i < k ==> SegmentConsistent(r, r.segments[i]))
    && (forall i, j :: 0 <= i < j < k ==> r.segments[i].segmentId != r.segments[j].segmentId)
  }

  predicate HeaderValid(r: ComparisonReport) {
    && r.eligible && r.reasons == []
    && r.baselineVersion != 0 && r.candidateVersion != 0 && r.baselineVersion != r.candidateVersion
    && r.cutoff != 0 && r.baselineTrainedThrough != 0 && r.candidateTrainedThrough != 0
    && r.baselineTrainedThrough <= r.cutoff && r.candidateTrainedThrough <= r.cutoff
    && r.holdoutThrough != 0 && r.cutoff < r.holdoutThrough
    && r.policy.Valid() && r.segments != []
  }

  /** Totals without players or cells average to not-a-number, which no comparison
      below accepts. */
  predicate TotalsValid(r: ComparisonReport, rooms: nat, players: nat, baseline: Sums, candidate: Sums) {
    && baseline.players > 0 && baseline.cells > 0 && candidate.players > 0 && candidate.cells > 0
    && var b, c := baseline.Averages(), candidate.Averages();
      && b.brierScore - c.brierScore + COMPARISON_TOLERANCE >= r.policy.minimumBrierImprovement
      && r.rooms == rooms && r.players == players
      && Close(r.baseline, b) && Close(r.candidate, c) && Close(r.delta, Subtract(c, b))
  }

  ghost predicate ActivationValid(r: ComparisonReport) {
    && HeaderValid(r) && SegmentsConsistent(r, |r.segments|)
    && TotalsValid(r, RoomsOf(r.segments), PlayersOf(r.segments),
                   SumsOf(BaselineReports(r.segments)), SumsOf(CandidateReports(r.segments)))
  }

  /** What the loop has recomputed from the first segments. */
  ghost predicate Recomputed(ss: seq<SegmentComparison>, rooms: nat, players: nat, baseline: Sums, candidate: Sums) {
    && rooms == RoomsOf(ss) && players == PlayersOf(ss)
    && baseline == SumsOf(BaselineReports(ss)) && candidate == SumsOf(CandidateReports(ss))
  }

  lemma RecomputedStep(
    ss: seq<SegmentComparison>, rooms: nat, players: nat, baseline: Sums, candidate: Sums, s: SegmentComparison)
    requires Recomputed(ss, rooms, players, baseline, candidate)
    ensures Recomputed(ss + [s], rooms + s.baseline.rooms, players + s.baseline.players,
                       baseline.Add(s.baseline), candidate.Add(s.candidate))
  {
    hide RoomsOf, PlayersOf, SumsOf, BaselineReports, CandidateReports, Sums.Add;
    StepSegments(ss, s);
    SumsStep(BaselineReports(ss), s.baseline);
    SumsStep(CandidateReports(ss), s.candidate);
  }

  lemma NothingYet(r: ComparisonReport)
    ensures Recomputed([], 0, 0, NOTHING, NOTHING) && SegmentsConsistent(r, 0)
  {
  }

  lemma OneMoreConsistent(r: ComparisonReport, k: nat, seen: set<Id>)
    requires k < |r.segments| && SegmentsConsistent(r, k) && seen == set i | 0 <= i < k :: r.segments[i].segmentId
    ensures SegmentsConsistent(r, k + 1) <==> r.segments[k].segmentId !in seen && SegmentConsistent(r, r.segments[k])
    ensures !SegmentsConsistent(r, k + 1) ==> !SegmentsConsistent(r, |r.segments|)
  {
    hide SegmentConsistent;
  }

  lemma ActivationIs(r: ComparisonReport, rooms: nat, players: nat, baseline: Sums, candidate: Sums)
    requires Recomputed(r.segments, rooms, players, baseline, candidate)
    ensures ActivationValid(r)
      <==> HeaderValid(r) && SegmentsConsistent(r, |r.segments|) && TotalsValid(r, rooms, players, baseline, candidate)
  {
    hide HeaderValid, SegmentsConsistent, TotalsValid, SumsOf, RoomsOf, PlayersOf;
  }

  lemma Refused(r: ComparisonReport)
    ensures !HeaderValid(r) || !SegmentsConsistent(r, |r.segments|) ==> !ActivationValid(r)
  {
    hide HeaderValid, SegmentsConsistent, TotalsValid;
  }

  /** The loop over the segments recomputes everything it checks. */
  method ValidateForActivation(r: ComparisonReport) returns (valid: bool)
    ensures valid == ActivationValid(r)
  {
    hide *;
    Refused(r);
    if !HeaderValid(r) {
      return false;
    }
    var seen: set<Id> := {};
    var rooms: nat, players: nat := 0, 0;
    var baselineTotals := new MetricTotals();
    var candidateTotals := new MetricTotals();
    NothingYet(r);
    assert r.segments[..0] == [];
    for k := 0 to |r.segments|
      invariant fresh(baselineTotals) && fresh(candidateTotals) && baselineTotals != candidateTotals
      invariant SegmentsConsistent(r, k) && seen == set i | 0 <= i < k :: r.segments[i].segmentId
      invariant Recomputed(r.segments[..k], rooms, players, baselineTotals.Value(), candidateTotals.Value())
    {
      var s := r.segments[k];
      OneMoreConsistent(r, k, seen);
      if s.segmentId in seen || !SegmentConsistent(r, s) {
        return false;
      }
      seen := seen + {s.segmentId};
      assert r.segments[..k + 1] == r.segments[..k] + [s];
      RecomputedStep(r.segments[..k], rooms, players, baselineTotals.Value(), candidateTotals.Value(), s);
      rooms, players := rooms + s.baseline.rooms, players + s.baseline.players;
      baselineTotals.Add(s.baseline);
      candidateTotals.Add(s.candidate);
    }
    assert r.segments[..|r.segments|] == r.segments;
    valid := TotalsValid(r, rooms, players, baselineTotals.Value(), candidateTotals.Value());
    ActivationIs(r, rooms, players, baselineTotals.Value(), candidateTotals.Value());
  }
}

/** What the verdict of a comparison means, score by score. */
module ComparisonVerdict {
  import opened Common
  import opened Calibration
  import opened SortedIds
  import opened Comparison

  /** The candidate is no worse than the baseline by more than the allowance. */
  predicate WithinAllowance(candidate: real, baseline: real, allowance: real) {
    candidate <= baseline + allowance + COMPARISON_TOLERANCE
  }

  /** A segment is good enough: it has the rooms, and no score got worse by more than
      the policy allows. */
  predicate GoodSegment(policy: Policy, baseline: Report, candidate: Report) {
    && baseline.rooms >= policy.minimumRooms
    && WithinAllowance(candidate.brierScore, baseline.brierScore, policy.maximumBrierRegression)
    && WithinAllowance(candidate.logLoss, baseline.logLoss, policy.maximumLogLossRegression)
    && WithinAllowance(candidate.calibrationError, baseline.calibrationError, policy.maximumCalibrationRegression)
  }

  /** Which complaint a segment gets. */
  predicate Complains(policy: Policy, baseline: Report, candidate: Report, reason: Reason) {
    match reason
    case TooFewRooms => baseline.rooms < policy.minimumRooms
    case BrierRegression =>
      !WithinAllowance(candidate.brierScore, baseline.brierScore, policy.maximumBrierRegression)
    case LogLossRegression =>
      !WithinAllowance(candidate.logLoss, baseline.logLoss, policy.maximumLogLossRegression)
    case CalibrationRegression =>
      !WithinAllowance(candidate.calibrationError, baseline.calibrationError, policy.maximumCalibrationRegression)
    case _ => false
  }

  lemma LineMeaning(id: Id, baseline: Report, candidate: Report, policy: Policy)
    ensures var line := CompareSegment(id, baseline, candidate, policy);
      && (line.passed <==> GoodSegment(policy, baseline, candidate))
      && (forall reason :: reason in line.reasons <==> Complains(policy, baseline, candidate, reason))
      && line.delta == Metrics(
        candidate.brierScore - baseline.brierScore, candidate.logLoss - baseline.logLoss,
        candidate.calibrationError - baseline.calibrationError)
  {
  }

  /** Every line of a produced report passes exactly if its segment is good enough,
      complains of exactly what is wrong, and shows the candidate's scores minus the
      baseline's. */
  lemma SegmentVerdict(log: real -> real, os: seq<Paired>, config: Config, r: ComparisonReport, i: nat)
    requires Produced(log, os, config, r) && i < |r.segments|
    ensures var s := r.segments[i];
      && (s.passed <==> GoodSegment(config.policy, s.baseline, s.candidate))
      && (s.passed <==> s.reasons == [])
      && (forall reason :: reason in s.reasons <==> Complains(config.policy, s.baseline, s.candidate, reason))
      && s.delta == Metrics(
        s.candidate.brierScore - s.baseline.brierScore, s.candidate.logLoss - s.baseline.logLoss,
        s.candidate.calibrationError - s.baseline.calibrationError)
  {
    hide *;
    ProducedLine(log, os, config, r, i);
    var s := r.segments[i];
    LineMeaning(s.segmentId, s.baseline, s.candidate, config.policy);
    LineReasons(s.segmentId, s.baseline, s.candidate, config.policy);
  }

  lemma LineReasons(id: Id, baseline: Report, candidate: Report, policy: Policy)
    ensures var line := CompareSegment(id, baseline, candidate, policy);
      line.passed <==> line.reasons == []
  {
  }

  lemma ProducedLine(log: real -> real, os: seq<Paired>, config: Config, r: ComparisonReport, i: nat)
    requires Produced(log, os, config, r) && i < |r.segments|
    ensures var s := r.segments[i];
      s == CompareSegment(s.segmentId, s.baseline, s.candidate, config.policy)
  {
    hide ReportFor, SumsOf, RoomsOf, PlayersOf, SegmentReasons, LatestAvailable, SortedList, SegmentIds, Sums.Averages;
    hide If, Subtract;
    assert SegmentOk(log, os, config, SortedList(SegmentIds(os))[i], r.segments[i]);
  }

  lemma {:induction false} NoReasonsIff(ss: seq<SegmentComparison>)
    ensures SegmentReasons(ss) == [] <==> forall i :: 0 <= i < |ss| ==> ss[i].reasons == []
  {
    if ss != [] {
      var front, last := ss[..|ss| - 1], ss[|ss| - 1];
      NoReasonsIff(front);
      assert |Tagged(last.segmentId, last.reasons)| == |last.reasons|;
      assert SegmentReasons(ss) == SegmentReasons(front) + Tagged(last.segmentId, last.reasons);
      assert forall i :: 0 <= i < |front| ==> ss[i] == front[i];
    }
  }

  /** A report is eligible exactly if every segment is good enough and the pooled Brier
      score improves by at least the minimum; the deltas of the whole are again the
      candidate's scores minus the baseline's. */
  lemma ReportVerdict(log: real -> real, os: seq<Paired>, config: Config, r: ComparisonReport)
    requires Produced(log, os, config, r)
    ensures r.eligible <==>
      && (forall i :: 0 <= i < |r.segments| ==>
        GoodSegment(config.policy, r.segments[i].baseline, r.segments[i].candidate))
      && r.candidate.brierScore + config.policy.minimumBrierImprovement
        <= r.baseline.brierScore + COMPARISON_TOLERANCE
    ensures r.delta == Metrics(
      r.candidate.brierScore - r.baseline.brierScore, r.candidate.logLoss - r.baseline.logLoss,
      r.candidate.calibrationError - r.baseline.calibrationError)
  {
    hide *;
    forall i | 0 <= i < |r.segments|
      ensures r.segments[i].reasons == []
        <==> GoodSegment(config.policy, r.segments[i].baseline, r.segments[i].candidate)
    {
      SegmentVerdict(log, os, config, r, i);
    }
    NoReasonsIff(r.segments);
    VerdictParts(log, os, config, r);
    SubtractIs(r.candidate, r.baseline);
  }

  lemma SubtractIs(a: Metrics, b: Metrics)
    ensures Subtract(a, b) == Metrics(
      a.brierScore - b.brierScore, a.logLoss - b.logLoss, a.calibrationError - b.calibrationError)
  {
  }

  lemma VerdictParts(log: real -> real, os: seq<Paired>, config: Config, r: ComparisonReport)
    requires Produced(log, os, config, r)
    ensures r.eligible <==>
      SegmentReasons(r.segments) == []
      && r.candidate.brierScore + config.policy.minimumBrierImprovement
        <= r.baseline.brierScore + COMPARISON_TOLERANCE
    ensures r.delta == Subtract(r.candidate, r.baseline)
  {
    hide SegmentsOk, SumsOf, RoomsOf, PlayersOf, SegmentReasons, LatestAvailable, SortedList, SegmentIds, Sums.Averages;
    hide Subtract;
  }
}

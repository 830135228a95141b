/** What a report that passes the activation check is known to be. */
module ActivationLaws {
  import opened Common
  import opened Totals
  import opened Calibration
  import opened Comparison
  import opened ComparisonVerdict
  import opened Activation

  function ByPlayers(score: Report -> real): Report -> real {
    r => score(r) * r.players as real
  }

  function ByCells(score: Report -> real): Report -> real {
    r => score(r) * (r.players * r.segment.roomSize) as real
  }

  const BRIER := (r: Report) => r.brierScore
  const LOSS := (r: Report) => r.logLoss
  const CALIBRATION := (r: Report) => r.calibrationError

  function PlayersIn(rs: seq<Report>): nat {
    if rs == [] then 0 else PlayersIn(rs[..|rs| - 1]) + rs[|rs| - 1].players
  }

  function RoomsIn(rs: seq<Report>): nat {
    if rs == [] then 0 else RoomsIn(rs[..|rs| - 1]) + rs[|rs| - 1].rooms
  }

  function CellsIn(rs: seq<Report>): nat {
    if rs == [] then 0 else CellsIn(rs[..|rs| - 1]) + rs[|rs| - 1].players * rs[|rs| - 1].segment.roomSize
  }

  /** The running totals are sums weighted by players, for the calibration error by
      cells. */
  lemma {:induction false} TotalsAreSums(rs: seq<Report>)
    ensures SumsOf(rs) == Sums(
      SumBy(ByPlayers(BRIER), rs), SumBy(ByPlayers(LOSS), rs), SumBy(ByCells(CALIBRATION), rs), PlayersIn(rs),
      CellsIn(rs))
  {
    hide SumBy, Sums.Add, ByPlayers, ByCells, SumsOf, PlayersIn, CellsIn;
    if rs == [] {
      SumNil(ByPlayers(BRIER));
      SumNil(ByPlayers(LOSS));
      SumNil(ByCells(CALIBRATION));
      NoTotals();
    } else {
      var front, last := rs[..|rs| - 1], rs[|rs| - 1];
      assert rs == front + [last];
      TotalsAreSums(front);
      SumsStep(front, last);
      AddIs(SumsOf(front), last);
      CountsStep(front, last);
      SumOne(ByPlayers(BRIER), front, last);
      SumOne(ByPlayers(LOSS), front, last);
      SumOne(ByCells(CALIBRATION), front, last);
    }
  }

  lemma NoTotals()
    ensures SumsOf([]) == Sums(0.0, 0.0, 0.0, 0, 0) && PlayersIn([]) == 0 && CellsIn([]) == 0
  {
  }

  lemma AddIs(s: Sums, r: Report)
    ensures s.Add(r) == Sums(
      s.brier + ByPlayers(BRIER)(r), s.logLoss + ByPlayers(LOSS)(r), s.calibration + ByCells(CALIBRATION)(r),
      s.players + r.players, s.cells + r.players * r.segment.roomSize)
  {
  }

  lemma CountsStep(rs: seq<Report>, r: Report)
    ensures PlayersIn(rs + [r]) == PlayersIn(rs) + r.players
    ensures CellsIn(rs + [r]) == CellsIn(rs) + r.players * r.segment.roomSize
  {
    assert (rs + [r])[..|rs|] == rs;
  }

  lemma SumNil(g: Report -> real)
    ensures SumBy(g, []) == 0.0
  {
  }

  predicate Near(a: real, b: real) {
    b - COMPARISON_TOLERANCE <= a <= b + COMPARISON_TOLERANCE
  }

  predicate AllNear(m: Metrics, n: Metrics) {
    && Near(m.brierScore, n.brierScore) && Near(m.logLoss, n.logLoss)
    && Near(m.calibrationError, n.calibrationError)
  }

  /** The averages over all players, and for the calibration error over all cells. */
  function AverageOf(rs: seq<Report>): Metrics
    requires PlayersIn(rs) > 0 && CellsIn(rs) > 0
  {
    Metrics(
      SumBy(ByPlayers(BRIER), rs) / PlayersIn(rs) as real,
      SumBy(ByPlayers(LOSS), rs) / PlayersIn(rs) as real,
      SumBy(ByCells(CALIBRATION), rs) / CellsIn(rs) as real)
  }

  function Difference(c: Metrics, b: Metrics): Metrics {
    Metrics(
      c.brierScore - b.brierScore, c.logLoss - b.logLoss, c.calibrationError - b.calibrationError)
  }

  lemma CloseIsNear(a: Metrics, b: Metrics)
    ensures Close(a, b) <==> AllNear(a, b)
  {
  }

  /** A line of the report: one good segment, scored on the same rooms by the two
      models of the report, with a summary that follows from its two reports. */
  ghost predicate SoundLine(r: ComparisonReport, s: SegmentComparison) {
    && s.segmentId != 0 && s.passed && s.reasons == []
    && GoodSegment(r.policy, s.baseline, s.candidate)
    && s.baseline.segment.modelVersion == r.baselineVersion && s.candidate.segment.modelVersion == r.candidateVersion
    && s.baseline.segment.modeId == s.candidate.segment.modeId == s.modeId
    && s.baseline.segment.scoringRulesVersion == s.candidate.segment.scoringRulesVersion == s.scoringRulesVersion
    && s.baseline.segment.roomSize == s.candidate.segment.roomSize == s.roomSize
    && s.baseline.rooms == s.candidate.rooms == s.rooms && s.baseline.players == s.candidate.players == s.players
    && AllNear(s.delta, Difference(MetricsOf(s.candidate), MetricsOf(s.baseline)))
  }

  lemma LineIff(r: ComparisonReport, s: SegmentComparison)
    ensures SegmentConsistent(r, s) <==> SoundLine(r, s)
  {
    LineMeaning(s.segmentId, s.baseline, s.candidate, r.policy);
    CloseIsNear(s.delta, CompareSegment(s.segmentId, s.baseline, s.candidate, r.policy).delta);
    hide GoodSegment, Near, Close, If, Subtract, AllNear;
  }

  /** The overall scores are the averages of the segments, the improvement among them
      is large enough, and rooms and players are counted right. */
  ghost predicate SoundTotals(r: ComparisonReport) {
    var bs, cs := BaselineReports(r.segments), CandidateReports(r.segments);
    && PlayersIn(bs) > 0 && CellsIn(bs) > 0 && PlayersIn(cs) > 0 && CellsIn(cs) > 0
    && AllNear(r.baseline, AverageOf(bs)) && AllNear(r.candidate, AverageOf(cs))
    && AllNear(r.delta, Difference(AverageOf(cs), AverageOf(bs)))
    && AverageOf(cs).brierScore + r.policy.minimumBrierImprovement
      <= AverageOf(bs).brierScore + COMPARISON_TOLERANCE
    && r.rooms == RoomsIn(bs) && r.players == PlayersIn(bs)
  }

  lemma {:induction false} CountsAre(ss: seq<SegmentComparison>)
    ensures PlayersOf(ss) == PlayersIn(BaselineReports(ss))
    ensures RoomsOf(ss) == RoomsIn(BaselineReports(ss))
  {
    if ss == [] {
      assert BaselineReports(ss) == [];
    } else {
      var front, last := ss[..|ss| - 1], ss[|ss| - 1];
      CountsAre(front);
      assert BaselineReports(ss) == BaselineReports(front) + [last.baseline];
    }
  }

  lemma AveragesAre(rs: seq<Report>)
    ensures SumsOf(rs).players == PlayersIn(rs) && SumsOf(rs).cells == CellsIn(rs)
    ensures PlayersIn(rs) > 0 && CellsIn(rs) > 0 ==> SumsOf(rs).Averages() == AverageOf(rs)
  {
    hide SumBy, SumsOf, PlayersIn, CellsIn;
    TotalsAreSums(rs);
  }

  lemma TotalsIff(r: ComparisonReport)
    ensures TotalsValid(
        r, RoomsOf(r.segments), PlayersOf(r.segments), SumsOf(BaselineReports(r.segments)),
        SumsOf(CandidateReports(r.segments)))
      <==> SoundTotals(r)
  {
    hide RoomsOf, PlayersOf, SumsOf, RoomsIn, PlayersIn, CellsIn, AverageOf, AllNear, Close, BaselineReports,
      CandidateReports;
    hide Sums.Averages;
    var bs, cs := BaselineReports(r.segments), CandidateReports(r.segments);
    AveragesAre(bs);
    AveragesAre(cs);
    CountsAre(r.segments);
    if PlayersIn(bs) > 0 && CellsIn(bs) > 0 && PlayersIn(cs) > 0 && CellsIn(cs) > 0 {
      CloseIsNear(r.baseline, AverageOf(bs));
      CloseIsNear(r.candidate, AverageOf(cs));
      CloseIsNear(r.delta, Difference(AverageOf(cs), AverageOf(bs)));
      assert Subtract(AverageOf(cs), AverageOf(bs)) == Difference(AverageOf(cs), AverageOf(bs));
    }
  }

  /** The check accepts exactly the sound reports: eligible without a reason, of two
      different models trained no later than the cutoff and tested after it, under a
      proper policy, with at least one segment, each segment once and sound, and sound
      totals. */
  lemma ActivationIff(r: ComparisonReport)
    ensures ActivationValid(r) <==>
      && r.eligible && r.reasons == []
      && r.baselineVersion != 0 && r.candidateVersion != 0 && r.baselineVersion != r.candidateVersion
      && r.cutoff != 0 && r.baselineTrainedThrough != 0 && r.candidateTrainedThrough != 0 && r.holdoutThrough != 0
      && r.baselineTrainedThrough <= r.cutoff && r.candidateTrainedThrough <= r.cutoff < r.holdoutThrough
      && r.policy.minimumRooms >= 1 && r.policy.minimumBrierImprovement >= 0.0
      && r.policy.maximumBrierRegression >= 0.0 && r.policy.maximumLogLossRegression >= 0.0
      && r.policy.maximumCalibrationRegression >= 0.0
      && |r.segments| > 0
      && (forall i :: 0 <= i < |r.segments| ==> SoundLine(r, r.segments[i]))
      && (forall i, j :: 0 <= i < j < |r.segments| ==> r.segments[i].segmentId != r.segments[j].segmentId)
      && SoundTotals(r)
  {
    hide SegmentConsistent, SoundLine, TotalsValid, SoundTotals;
    forall i | 0 <= i < |r.segments|
      ensures SegmentConsistent(r, r.segments[i]) <==> SoundLine(r, r.segments[i])
    {
      LineIff(r, r.segments[i]);
    }
    TotalsIff(r);
    hide RoomsOf, PlayersOf, SumsOf;
  }
}

/** What a comparison report means: pooled scores that no segmentation changes, and
    exactly when an eligible report passes the activation check. */
module ComparisonLaws {
  import opened Common
  import opened RatingTypes
  import opened Totals
  import opened SortedIds
  import opened Calibration
  import opened CalibrationLaws
  import opened Comparison
  import opened Activation

  // ---------------------------------------------------------------------
  // One report as a sum over its observations
  // ---------------------------------------------------------------------

  ghost function RoomBrier(o: Observation): real {
    SumBy(SquaredError, CellsOfRoom(o))
  }

  ghost function RoomLossBy(log: real -> real): Observation -> real {
    o => LossOfRoom(log, o)
  }

  ghost function RoomPlayers(o: Observation): real {
    |o.prediction.participants| as real
  }

  lemma {:induction false} TalliesAreSums(log: real -> real, os: seq<Observation>, k: nat)
    requires k <= |os|
    ensures SumBy(SquaredError, AllCells(os, k)) == SumBy(RoomBrier, os[..k])
    ensures TotalLoss(log, os, k) == SumBy(RoomLossBy(log), os[..k])
    ensures PlayersUpTo(os, k) as real == SumBy(RoomPlayers, os[..k])
  {
    hide CellsOfRoom, LossOfRoom;
    if k > 0 {
      TalliesAreSums(log, os, k - 1);
      assert os[..k] == os[..k - 1] + [os[k - 1]];
      SumOne(RoomBrier, os[..k - 1], os[k - 1]);
      SumOne(RoomLossBy(log), os[..k - 1], os[k - 1]);
      SumOne(RoomPlayers, os[..k - 1], os[k - 1]);
      SumAppend(SquaredError, AllCells(os, k - 1), CellsOfRoom(os[k - 1]));
    }
  }

  /** Averages times players are plain sums over the rooms. */
  lemma CalibratedSums(log: real -> real, os: seq<Observation>, n: int, r: Report)
    requires Calibrated(log, os, n) == Ok(r)
    ensures os != [] && r.rooms == |os| && r.players == |os| * r.segment.roomSize
    ensures r.players as real == SumBy(RoomPlayers, os)
    ensures r.brierScore * r.players as real == SumBy(RoomBrier, os)
    ensures r.logLoss * r.players as real == SumBy(RoomLossBy(log), os)
    ensures forall o :: o in os ==> r.segment == SegmentOf(o)
  {
    hide *;
    ScorableFrom(log, os, n);
    CalibratedUnfold(log, os, n);
    ScorableCells(os, n);
    TalliesAreSums(log, os, |os|);
    assert os[..|os|] == os;
    var cells := AllCells(os, |os|);
    TallyIsKept(cells, n);
    TallyBrier(TallyOf(cells, n), n, cells);
    AverageBack(SegmentOf(os[0]), |os|, PlayersUpTo(os, |os|), TallyOf(cells, n), TotalLoss(log, os, |os|), n);
    AllInSegment(os);
  }

  lemma CalibratedFrom(log: real -> real, ms: seq<Observation>, cutoff: Time, trainedThrough: Time, n: int, r: Report)
    returns (sorted: seq<Observation>)
    requires ReportFor(log, ms, cutoff, trainedThrough, n, r)
    ensures multiset(sorted) == multiset(ms) && Calibrated(log, sorted, n) == Ok(r)
  {
    hide Calibrated;
    sorted :| multiset(sorted) == multiset(ms) && HoldoutCalibrated(log, sorted, cutoff, trainedThrough, n) == Ok(r);
  }

  /** The same for a segment's report, whose observations were sorted first. */
  lemma ReportSums(log: real -> real, ms: seq<Observation>, cutoff: Time, trainedThrough: Time, n: int, r: Report)
    requires ReportFor(log, ms, cutoff, trainedThrough, n, r)
    ensures ms != [] && r.rooms == |ms| && r.players == |ms| * r.segment.roomSize
    ensures r.players as real == SumBy(RoomPlayers, ms)
    ensures r.brierScore * r.players as real == SumBy(RoomBrier, ms)
    ensures r.logLoss * r.players as real == SumBy(RoomLossBy(log), ms)
    ensures forall o :: o in ms ==> r.segment == SegmentOf(o)
  {
    hide *;
    var sorted := CalibratedFrom(log, ms, cutoff, trainedThrough, n, r);
    CalibratedSums(log, sorted, n, r);
    SameMembers(sorted, ms);
    SumPermutes(RoomBrier, sorted, ms);
    SumPermutes(RoomLossBy(log), sorted, ms);
    SumPermutes(RoomPlayers, sorted, ms);
  }

  lemma AverageBack(segment: Segment, rooms: nat, players: nat, t: Tally, loss: real, n: nat)
    requires Sized(t, n) && players > 0 && segment.roomSize > 0
    ensures var r := ReportOf(segment, rooms, players, t, loss, n);
      && r.segment == segment && r.rooms == rooms && r.players == players
      && r.brierScore * players as real == t.brier && r.logLoss * players as real == loss
  {
    hide CalibrationErrorOf, BinsOf;
    var r := ReportOf(segment, rooms, players, t, loss, n);
    TimesBack(t.brier, players as real);
    TimesBack(loss, players as real);
  }

  lemma TimesBack(x: real, d: real)
    requires d > 0.0
    ensures x / d * d == x
  {
  }

  lemma AllInSegment(os: seq<Observation>)
    requires os != [] && AllAccepted(SegmentOf(os[0]), os, |os|)
    ensures forall o :: o in os ==> SegmentOf(o) == SegmentOf(os[0])
  {
    hide PredictionsAccepted, MatchResult.Valid;
    forall o | o in os ensures SegmentOf(o) == SegmentOf(os[0]) {
      var i :| 0 <= i < |os| && os[i] == o;
      assert Accepted(SegmentOf(os[0]), os[i]);
    }
  }

  // ---------------------------------------------------------------------
  // Segments partition the observations
  // ---------------------------------------------------------------------

  ghost function OverSegments(g: Paired -> real, os: seq<Paired>, ids: seq<Id>, k: nat): real
    requires k <= |ids|
  {
    if k == 0 then 0.0 else OverSegments(g, os, ids, k - 1) + SumBy(g, Members(os, ids[k - 1]))
  }

  ghost predicate Listed(id: Id, ids: seq<Id>, k: nat)
    requires k <= |ids|
  {
    exists i :: 0 <= i < k && ids[i] == id
  }

  lemma {:induction false} OneMorePair(g: Paired -> real, os: seq<Paired>, o: Paired, ids: seq<Id>, k: nat)
    requires Ascending(ids) && k <= |ids|
    ensures OverSegments(g, os + [o], ids, k) == OverSegments(g, os, ids, k) + if Listed(o.segmentId, ids, k) then g(o)
      else 0.0
  {
    hide Members, SumBy;
    if k > 0 {
      OneMorePair(g, os, o, ids, k - 1);
      MembersStep(os, o, ids[k - 1]);
      var ms := Members(os, ids[k - 1]);
      SumOne(g, ms, o);
      assert ms + [] == ms;
      assert Listed(o.segmentId, ids, k) <==> Listed(o.segmentId, ids, k - 1) || ids[k - 1] == o.segmentId;
      assert Listed(o.segmentId, ids, k - 1) ==> ids[k - 1] != o.segmentId;
    }
  }

  lemma {:induction false} NoPairs(g: Paired -> real, ids: seq<Id>, k: nat)
    requires k <= |ids|
    ensures OverSegments(g, [], ids, k) == 0.0
  {
    if k > 0 {
      NoPairs(g, ids, k - 1);
    }
  }

  /** Summing segment by segment counts every observation once. */
  lemma {:induction false} SegmentsPartition(g: Paired -> real, os: seq<Paired>, ids: seq<Id>)
    requires Ascending(ids) && forall o :: o in os ==> o.segmentId in ids
    ensures OverSegments(g, os, ids, |ids|) == SumBy(g, os)
  {
    if os == [] {
      NoPairs(g, ids, |ids|);
    } else {
      var front, last := os[..|os| - 1], os[|os| - 1];
      assert os == front + [last];
      SegmentsPartition(g, front, ids);
      OneMorePair(g, front, last, ids, |ids|);
      assert last in os;
      var i :| 0 <= i < |ids| && ids[i] == last.segmentId;
      assert Listed(last.segmentId, ids, |ids|);
      hide OverSegments;
    }
  }

  // ---------------------------------------------------------------------
  // Pooled scores
  // ---------------------------------------------------------------------

  /** A measure of an observation, read off one side of a pair. */
  ghost function On(side: Paired -> Observation, f: Observation -> real): Paired -> real {
    o => f(side(o))
  }

  ghost function Side(side: Paired -> Observation, ms: seq<Paired>): seq<Observation> {
    seq(|ms|, i requires 0 <= i < |ms| => side(ms[i]))
  }

  lemma {:induction false} SideSums(side: Paired -> Observation, f: Observation -> real, ms: seq<Paired>)
    ensures SumBy(f, Side(side, ms)) == SumBy(On(side, f), ms)
  {
    if ms != [] {
      SideSums(side, f, ms[..|ms| - 1]);
      assert Side(side, ms)[..|ms| - 1] == Side(side, ms[..|ms| - 1]);
    }
  }

  /** The reports of one side, segment by segment. */
  ghost predicate SideReports(
    log: real -> real, side: Paired -> Observation, os: seq<Paired>, ids: seq<Id>, reports: seq<Report>,
    cutoff: Time, trainedThrough: Time, n: int)
  {
    && |reports| == |ids|
    && forall i :: 0 <= i < |reports| ==>
      ReportFor(log, Side(side, Members(os, ids[i])), cutoff, trainedThrough, n, reports[i])
  }

  lemma OneReport(
      log: real -> real, side: Paired -> Observation, ms: seq<Paired>, cutoff: Time, trainedThrough: Time, n: int,
      r: Report, sums: Sums)
    requires ReportFor(log, Side(side, ms), cutoff, trainedThrough, n, r)
    ensures sums.Add(r).brier == sums.brier + SumBy(On(side, RoomBrier), ms)
    ensures sums.Add(r).logLoss == sums.logLoss + SumBy(On(side, RoomLossBy(log)), ms)
    ensures sums.Add(r).players as real == sums.players as real + SumBy(On(side, RoomPlayers), ms)
  {
    AddFields(sums, r);
    hide *;
    ReportSums(log, Side(side, ms), cutoff, trainedThrough, n, r);
    SideSums(side, RoomBrier, ms);
    SideSums(side, RoomLossBy(log), ms);
    SideSums(side, RoomPlayers, ms);
  }

  lemma AddFields(sums: Sums, r: Report)
    ensures sums.Add(r).brier == sums.brier + r.brierScore * r.players as real
    ensures sums.Add(r).logLoss == sums.logLoss + r.logLoss * r.players as real
    ensures sums.Add(r).players == sums.players + r.players
  {
  }

  lemma {:induction false} SidePooled(
    log: real -> real, side: Paired -> Observation, os: seq<Paired>, ids: seq<Id>, reports: seq<Report>,
    cutoff: Time, trainedThrough: Time, n: int, k: nat)
    requires k <= |reports| && SideReports(log, side, os, ids, reports, cutoff, trainedThrough, n)
    ensures SumsOf(reports[..k]).brier == OverSegments(On(side, RoomBrier), os, ids, k)
    ensures SumsOf(reports[..k]).logLoss == OverSegments(On(side, RoomLossBy(log)), os, ids, k)
    ensures SumsOf(reports[..k]).players as real == OverSegments(On(side, RoomPlayers), os, ids, k)
  {
    hide Side, On, ReportFor, Members, SumBy, Sums.Add, RoomBrier, RoomLossBy, RoomPlayers;
    if k > 0 {
      SidePooled(log, side, os, ids, reports, cutoff, trainedThrough, n, k - 1);
      OneReport(log, side, Members(os, ids[k - 1]), cutoff, trainedThrough, n, reports[k - 1],
        SumsOf(reports[..k - 1]));
      assert reports[..k] == reports[..k - 1] + [reports[k - 1]];
      SumsStep(reports[..k - 1], reports[k - 1]);
    }
  }

  lemma SegmentSides(log: real -> real, os: seq<Paired>, config: Config, id: Id, s: SegmentComparison)
    requires SegmentOk(log, os, config, id, s)
    ensures ReportFor(log, Side(BaselineOf, Members(os, id)), config.cutoff, config.baselineTrainedThrough,
      config.binCount, s.baseline)
    ensures ReportFor(log, Side(CandidateOf, Members(os, id)), config.cutoff, config.candidateTrainedThrough,
      config.binCount, s.candidate)
    ensures s == CompareSegment(id, s.baseline, s.candidate, config.policy)
  {
    hide ReportFor, Members, CompareSegment;
    assert Side(BaselineOf, Members(os, id)) == Baselines(Members(os, id));
    assert Side(CandidateOf, Members(os, id)) == Candidates(Members(os, id));
  }

  /** Both sides of a report, and what it averages. */
  lemma ProducedSides(log: real -> real, os: seq<Paired>, config: Config, r: ComparisonReport)
    requires Produced(log, os, config, r)
    ensures var ids, bs, cs := SortedList(SegmentIds(os)), BaselineReports(r.segments), CandidateReports(r.segments);
      && |ids| == |bs| == |cs|
      && SideReports(log, BaselineOf, os, ids, bs, config.cutoff, config.baselineTrainedThrough, config.binCount)
      && SideReports(log, CandidateOf, os, ids, cs, config.cutoff, config.candidateTrainedThrough, config.binCount)
      && SumsOf(bs).players > 0 && SumsOf(bs).cells > 0 && SumsOf(cs).players > 0 && SumsOf(cs).cells > 0
      && r.baseline == SumsOf(bs).Averages() && r.candidate == SumsOf(cs).Averages()
  {
    hide SegmentOk, ReportFor, Side, SumsOf, SegmentReasons, RoomsOf, PlayersOf, LatestAvailable, SortedList,
      Sums.Averages;
    var ids := SortedList(SegmentIds(os));
    forall i | 0 <= i < |r.segments| ensures SegmentOk(log, os, config, ids[i], r.segments[i]) {
    }
    forall i | 0 <= i < |r.segments|
      ensures ReportFor(log, Side(BaselineOf, Members(os, ids[i])), config.cutoff, config.baselineTrainedThrough,
        config.binCount, r.segments[i].baseline)
      ensures ReportFor(log, Side(CandidateOf, Members(os, ids[i])), config.cutoff, config.candidateTrainedThrough,
        config.binCount, r.segments[i].candidate)
    {
      SegmentSides(log, os, config, ids[i], r.segments[i]);
    }
  }

  lemma EveryoneListed(os: seq<Paired>, ids: seq<Id>)
    requires IsSortedList(SegmentIds(os), ids)
    ensures forall o :: o in os ==> o.segmentId in ids
  {
    forall o | o in os ensures o.segmentId in ids {
      assert o.segmentId in SegmentIds(os);
      assert o.segmentId in Ids(ids);
    }
  }

  /** Pooled averages of one side. */
  ghost predicate Pooled(log: real -> real, side: Paired -> Observation, os: seq<Paired>, m: Metrics) {
    var players := SumBy(On(side, RoomPlayers), os);
    && players > 0.0
    && m.brierScore == SumBy(On(side, RoomBrier), os) / players
    && m.logLoss == SumBy(On(side, RoomLossBy(log)), os) / players
  }

  lemma SideAverages(
    log: real -> real, side: Paired -> Observation, os: seq<Paired>, ids: seq<Id>, reports: seq<Report>,
    cutoff: Time, trainedThrough: Time, n: int)
    requires SideReports(log, side, os, ids, reports, cutoff, trainedThrough, n) && |reports| == |ids|
    requires IsSortedList(SegmentIds(os), ids)
    requires SumsOf(reports).players > 0 && SumsOf(reports).cells > 0
    ensures Pooled(log, side, os, SumsOf(reports).Averages())
  {
    hide SideReports, SumsOf, SumBy, On, OverSegments, RoomBrier, RoomLossBy, RoomPlayers, SegmentIds;
    EveryoneListed(os, ids);
    SidePooled(log, side, os, ids, reports, cutoff, trainedThrough, n, |ids|);
    assert reports[..|reports|] == reports;
    SegmentsPartition(On(side, RoomBrier), os, ids);
    SegmentsPartition(On(side, RoomLossBy(log)), os, ids);
    SegmentsPartition(On(side, RoomPlayers), os, ids);
  }

  /** The overall Brier score and log loss are the pooled averages over the players
      of all observations, whatever the segments are. */
  lemma PooledScores(log: real -> real, os: seq<Paired>, config: Config, r: ComparisonReport)
    requires Produced(log, os, config, r)
    ensures Pooled(log, BaselineOf, os, r.baseline) && Pooled(log, CandidateOf, os, r.candidate)
  {
    hide *;
    ProducedSides(log, os, config, r);
    var ids, bs, cs := SortedList(SegmentIds(os)), BaselineReports(r.segments), CandidateReports(r.segments);
    SideAverages(log, BaselineOf, os, ids, bs, config.cutoff, config.baselineTrainedThrough, config.binCount);
    SideAverages(log, CandidateOf, os, ids, cs, config.cutoff, config.candidateTrainedThrough, config.binCount);
  }

  // ---------------------------------------------------------------------
  // Segmentation does not matter
  // ---------------------------------------------------------------------

  /** An observation without its segment. */
  function Unsegmented(o: Paired): Paired {
    o.(segmentId := 0)
  }

  function AllUnsegmented(os: seq<Paired>): seq<Paired> {
    seq(|os|, i requires 0 <= i < |os| => Unsegmented(os[i]))
  }

  /** The side of a pair has nothing to do with its segment. */
  ghost predicate IgnoresSegment(side: Paired -> Observation) {
    forall o: Paired :: side(o) == side(Unsegmented(o))
  }

  lemma {:induction false} SegmentIgnored(side: Paired -> Observation, f: Observation -> real, os: seq<Paired>)
    requires IgnoresSegment(side)
    ensures SumBy(On(side, f), os) == SumBy(On(side, f), AllUnsegmented(os))
  {
    if os != [] {
      var front, last := os[..|os| - 1], os[|os| - 1];
      SegmentIgnored(side, f, front);
      assert AllUnsegmented(os)[..|os| - 1] == AllUnsegmented(front);
      assert side(last) == side(Unsegmented(last));
    }
  }

  lemma SameSums(side: Paired -> Observation, f: Observation -> real, a: seq<Paired>, b: seq<Paired>)
    requires IgnoresSegment(side) && multiset(AllUnsegmented(a)) == multiset(AllUnsegmented(b))
    ensures SumBy(On(side, f), a) == SumBy(On(side, f), b)
  {
    hide *;
    SegmentIgnored(side, f, a);
    SegmentIgnored(side, f, b);
    SumPermutes(On(side, f), AllUnsegmented(a), AllUnsegmented(b));
  }

  lemma SamePooled(
      log: real -> real, side: Paired -> Observation, a: seq<Paired>, b: seq<Paired>, r: Metrics, s: Metrics)
    requires IgnoresSegment(side) && multiset(AllUnsegmented(a)) == multiset(AllUnsegmented(b))
    requires Pooled(log, side, a, r) && Pooled(log, side, b, s)
    ensures r.brierScore == s.brierScore && r.logLoss == s.logLoss
  {
    hide On, SumBy, RoomBrier, RoomLossBy, RoomPlayers, AllUnsegmented, IgnoresSegment;
    SameSums(side, RoomBrier, a, b);
    SameSums(side, RoomLossBy(log), a, b);
    SameSums(side, RoomPlayers, a, b);
  }

  lemma SidesIgnoreSegment()
    ensures IgnoresSegment(BaselineOf) && IgnoresSegment(CandidateOf)
  {
  }

  /** Two comparisons of the same observations, split into segments and ordered in
      any two ways, report the same overall Brier scores and log losses. */
  lemma SegmentationIrrelevant(
    log: real -> real, a: seq<Paired>, b: seq<Paired>, config: Config, other: Config, r: ComparisonReport,
    s: ComparisonReport)
    requires Produced(log, a, config, r) && Produced(log, b, other, s)
    requires multiset(AllUnsegmented(a)) == multiset(AllUnsegmented(b))
    ensures r.baseline.brierScore == s.baseline.brierScore && r.baseline.logLoss == s.baseline.logLoss
    ensures r.candidate.brierScore == s.candidate.brierScore && r.candidate.logLoss == s.candidate.logLoss
  {
    hide *;
    SidesIgnoreSegment();
    PooledScores(log, a, config, r);
    PooledScores(log, b, other, s);
    SamePooled(log, BaselineOf, a, b, r.baseline, s.baseline);
    SamePooled(log, CandidateOf, a, b, r.candidate, s.candidate);
  }

  // ---------------------------------------------------------------------
  // Eligible reports and activation
  // ---------------------------------------------------------------------

  lemma {:induction false} LatestBounds(os: seq<Paired>)
    ensures forall o :: o in os ==> o.result.availableAt <= LatestAvailable(os)
    ensures LatestAvailable(os) == 0 || exists o :: o in os && o.result.availableAt == LatestAvailable(os)
    ensures LatestAvailable(os) >= 0
  {
    if os != [] {
      var front, last := os[..|os| - 1], os[|os| - 1];
      LatestBounds(front);
      assert os == front + [last];
      assert last in os;
    }
  }

  lemma {:induction false} NoReasons(ss: seq<SegmentComparison>, i: nat)
    requires SegmentReasons(ss) == [] && i < |ss|
    ensures ss[i].reasons == []
  {
    var front, last := ss[..|ss| - 1], ss[|ss| - 1];
    assert |Tagged(last.segmentId, last.reasons)| == |last.reasons|;
    if i < |ss| - 1 {
      NoReasons(front, i);
    }
  }

  lemma ProducedSegment(log: real -> real, os: seq<Paired>, config: Config, r: ComparisonReport, i: nat)
    requires Comparable(os, config) && Produced(log, os, config, r) && r.reasons == [] && i < |r.segments|
    ensures i < |SortedList(SegmentIds(os))|
    ensures SegmentConsistent(r, r.segments[i]) && r.segments[i].segmentId == SortedList(SegmentIds(os))[i]
  {
    hide *;
    ProducedLine(log, os, config, r, i);
    ComparableParts(os, config);
    var s, id := r.segments[i], SortedList(SegmentIds(os))[i];
    SegmentSides(log, os, config, id, s);
    var ms := Members(os, id);
    ReportSums(log, Side(BaselineOf, ms), config.cutoff, config.baselineTrainedThrough, config.binCount, s.baseline);
    ReportSums(log, Side(CandidateOf, ms), config.cutoff, config.candidateTrainedThrough, config.binCount, s.candidate);
    FirstMember(os, ms, id, s.baseline, s.candidate);
    SegmentAgrees(r, s, id);
  }

  lemma ProducedLine(log: real -> real, os: seq<Paired>, config: Config, r: ComparisonReport, i: nat)
    requires Produced(log, os, config, r) && r.reasons == [] && i < |r.segments|
    ensures os != [] && r.baselineVersion == os[0].baseline.modelVersion
      && r.candidateVersion == os[0].candidate.modelVersion
    ensures r.policy == config.policy && r.segments[i].reasons == []
    ensures i < |SortedList(SegmentIds(os))|
    ensures SegmentOk(log, os, config, SortedList(SegmentIds(os))[i], r.segments[i])
  {
    hide SegmentOk, SumsOf, RoomsOf, PlayersOf, LatestAvailable, SortedList, SegmentReasons, Sums.Averages;
    assert SegmentReasons(r.segments) == [];
    NoReasons(r.segments, i);
  }

  lemma ComparableParts(os: seq<Paired>, config: Config)
    requires Comparable(os, config)
    ensures Grouped(os) && OneVersionEach(os)
  {
    hide Grouped, OneVersionEach, PairScores, Horizon, Policy.Valid;
  }

  /** Both sides of a segment describe the same rooms. */
  lemma FirstMember(os: seq<Paired>, ms: seq<Paired>, id: Id, baseline: Report, candidate: Report)
    requires ms == Members(os, id) && Side(BaselineOf, ms) != [] && Grouped(os) && OneVersionEach(os)
    requires forall o :: o in Side(BaselineOf, ms) ==> baseline.segment == SegmentOf(o)
    requires forall o :: o in Side(CandidateOf, ms) ==> candidate.segment == SegmentOf(o)
    ensures os != [] && id != 0 && |Side(BaselineOf, ms)| == |Side(CandidateOf, ms)|
    ensures baseline.segment == candidate.segment.(modelVersion := os[0].baseline.modelVersion)
    ensures candidate.segment.modelVersion == os[0].candidate.modelVersion
  {
    MembersAre(os, id);
    hide Members;
    assert ms[0] in ms;
    var j :| 0 <= j < |os| && os[j] == ms[0];
    assert Side(BaselineOf, ms)[0] in Side(BaselineOf, ms) && Side(CandidateOf, ms)[0] in Side(CandidateOf, ms);
  }

  lemma SegmentAgrees(r: ComparisonReport, s: SegmentComparison, id: Id)
    requires id != 0 && s == CompareSegment(id, s.baseline, s.candidate, r.policy) && s.reasons == []
    requires s.baseline.segment == s.candidate.segment.(modelVersion := r.baselineVersion)
    requires s.candidate.segment.modelVersion == r.candidateVersion
    requires s.baseline.rooms == s.candidate.rooms && s.baseline.players == s.candidate.players
    ensures SegmentConsistent(r, s) && s.segmentId == id
  {
  }

  /** A report of the comparison passes the activation check exactly when it is
      eligible and some result became available after the zero time: only then is
      the latest availability recorded at all. */
  lemma EligibleActivates(log: real -> real, os: seq<Paired>, config: Config, r: ComparisonReport)
    requires Comparable(os, config) && Produced(log, os, config, r)
    ensures ActivationValid(r) <==> r.eligible && exists o :: o in os && o.result.availableAt > 0
  {
    hide *;
    LatestBounds(os);
    ActivationParts(log, os, config, r);
    if r.eligible {
      ProducedReasons(log, os, config, r);
      forall i | 0 <= i < |r.segments|
        ensures SegmentConsistent(r, r.segments[i]) && r.segments[i].segmentId == SortedList(SegmentIds(os))[i]
      {
        ProducedSegment(log, os, config, r, i);
      }
      SegmentsDistinct(log, os, config, r);
    }
  }

  lemma ProducedReasons(log: real -> real, os: seq<Paired>, config: Config, r: ComparisonReport)
    requires Produced(log, os, config, r) && r.eligible
    ensures r.reasons == [] && |r.segments| == |SortedList(SegmentIds(os))|
  {
    hide SegmentsOk, SumsOf, SegmentReasons, RoomsOf, PlayersOf, LatestAvailable, SortedList, SegmentIds;
  }

  lemma SegmentsDistinct(log: real -> real, os: seq<Paired>, config: Config, r: ComparisonReport)
    requires |r.segments| == |SortedList(SegmentIds(os))|
    requires forall i :: 0 <= i < |r.segments| ==>
      SegmentConsistent(r, r.segments[i]) && r.segments[i].segmentId == SortedList(SegmentIds(os))[i]
    ensures SegmentsConsistent(r, |r.segments|)
  {
    hide SegmentConsistent, SortedList;
    assert Ascending(SortedList(SegmentIds(os)));
  }

  /** Everything but the segments of the activation check. */
  lemma ActivationParts(log: real -> real, os: seq<Paired>, config: Config, r: ComparisonReport)
    requires Comparable(os, config) && Produced(log, os, config, r)
    ensures ActivationValid(r) ==> r.eligible && LatestAvailable(os) != 0
    ensures r.eligible && LatestAvailable(os) > 0 && SegmentsConsistent(r, |r.segments|) ==> ActivationValid(r)
  {
    hide SegmentsOk, SumsOf, SegmentReasons, RoomsOf, PlayersOf, LatestAvailable, SortedList, SegmentIds, Accepted,
      Grouped,
         SegmentsConsistent, Members, Policy.Valid;
    FirstVersions(os, config);
    LatestBounds(os);
    AfterCutoff(os, config);
    SegmentsListed(os, r.segments);
  }

  lemma AfterCutoff(os: seq<Paired>, config: Config)
    requires Comparable(os, config)
    ensures forall o :: o in os ==> config.cutoff < o.result.availableAt
    ensures config.policy.Valid()
  {
    hide Accepted, Grouped, OneVersionEach, Horizon, Policy.Valid;
    forall o | o in os ensures config.cutoff < o.result.availableAt {
      var i :| 0 <= i < |os| && os[i] == o;
      assert PairScores(os[i], config);
    }
  }

  lemma SegmentsListed(os: seq<Paired>, ss: seq<SegmentComparison>)
    requires os != [] && |ss| == |SortedList(SegmentIds(os))|
    ensures ss != []
  {
    hide SortedList;
    FirstHasSegment(os, SortedList(SegmentIds(os)));
  }
}

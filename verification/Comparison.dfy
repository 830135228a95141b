/** Comparison of two frozen models on the same holdout results, and the check an
    activation runs on the report. */
module Comparison {
  import opened Common
  import opened RatingTypes
  import opened Totals
  import opened SortedIds
  import opened Calibration

  const COMPARISON_TOLERANCE := 0.000000000001

  /** Two predictions of the same verified result. */
  datatype Paired = Paired(segmentId: Id, baseline: RoomPrediction, candidate: RoomPrediction, result: MatchResult)

  datatype Policy = Policy(
    minimumRooms: int,
    minimumBrierImprovement: real,
    maximumBrierRegression: real,
    maximumLogLossRegression: real,
    maximumCalibrationRegression: real)
  {
    predicate Valid() {
      && minimumRooms >= 1 && minimumBrierImprovement >= 0.0
      && maximumBrierRegression >= 0.0 && maximumLogLossRegression >= 0.0 && maximumCalibrationRegression >= 0.0
    }
  }

  datatype Config = Config(
    cutoff: Time,
    baselineTrainedThrough: Time,
    candidateTrainedThrough: Time,
    binCount: int,
    policy: Policy)

  datatype Metrics = Metrics(brierScore: real, logLoss: real, calibrationError: real)

  datatype Reason =
    | TooFewRooms
    | BrierRegression
    | LogLossRegression
    | CalibrationRegression
    | OverallImprovement
    | InSegment(segmentId: Id, reason: Reason)

  datatype SegmentComparison = SegmentComparison(
    segmentId: Id,
    modeId: Id,
    scoringRulesVersion: Id,
    roomSize: nat,
    rooms: nat,
    players: nat,
    baseline: Report,
    candidate: Report,
    delta: Metrics,
    passed: bool,
    reasons: seq<Reason>)

  datatype ComparisonReport = ComparisonReport(
    baselineVersion: Id,
    candidateVersion: Id,
    cutoff: Time,
    baselineTrainedThrough: Time,
    candidateTrainedThrough: Time,
    holdoutThrough: Time,
    rooms: nat,
    players: nat,
    baseline: Metrics,
    candidate: Metrics,
    delta: Metrics,
    policy: Policy,
    segments: seq<SegmentComparison>,
    eligible: bool,
    reasons: seq<Reason>)

  // ---------------------------------------------------------------------
  // Metrics
  // ---------------------------------------------------------------------

  function MetricsOf(r: Report): Metrics {
    Metrics(r.brierScore, r.logLoss, r.calibrationError)
  }

  function Subtract(a: Metrics, b: Metrics): Metrics {
    Metrics(a.brierScore - b.brierScore, a.logLoss - b.logLoss, a.calibrationError - b.calibrationError)
  }

  predicate Close(a: Metrics, b: Metrics) {
    && Abs(a.brierScore - b.brierScore) <= COMPARISON_TOLERANCE
    && Abs(a.logLoss - b.logLoss) <= COMPARISON_TOLERANCE
    && Abs(a.calibrationError - b.calibrationError) <= COMPARISON_TOLERANCE
  }

  /** Weighted sums over segments. */
  datatype Sums = Sums(brier: real, logLoss: real, calibration: real, players: nat, cells: nat) {
    function Add(r: Report): Sums {
      var more := r.players * r.segment.roomSize;
      Sums(
        brier + r.brierScore * r.players as real,
        logLoss + r.logLoss * r.players as real,
        calibration + r.calibrationError * more as real,
        players + r.players,
        cells + more)
    }

    function Averages(): Metrics
      requires players > 0 && cells > 0
    {
      Metrics(brier / players as real, logLoss / players as real, calibration / cells as real)
    }
  }

  const NOTHING := Sums(0.0, 0.0, 0.0, 0, 0)

  function SumsOf(reports: seq<Report>): Sums {
    if reports == [] then NOTHING else SumsOf(reports[..|reports| - 1]).Add(reports[|reports| - 1])
  }

  lemma SumsStep(reports: seq<Report>, r: Report)
    ensures SumsOf(reports + [r]) == SumsOf(reports).Add(r)
  {
    assert (reports + [r])[..|reports|] == reports;
  }

  class MetricTotals {
    var brierWeighted: real
    var logLossWeighted: real
    var calibrationWeighted: real
    var players: nat
    var cells: nat

    function Value(): Sums
      reads this
    {
      Sums(brierWeighted, logLossWeighted, calibrationWeighted, players, cells)
    }

    constructor ()
      ensures Value() == NOTHING
    {
      brierWeighted, logLossWeighted, calibrationWeighted, players, cells := 0.0, 0.0, 0.0, 0, 0;
    }

    method Add(r: Report)
      modifies this
      ensures Value() == old(Value()).Add(r)
    {
      var more := r.players * r.segment.roomSize;
      brierWeighted := brierWeighted + r.brierScore * r.players as real;
      logLossWeighted := logLossWeighted + r.logLoss * r.players as real;
      calibrationWeighted := calibrationWeighted + r.calibrationError * more as real;
      players, cells := players + r.players, cells + more;
    }
  }

  // ---------------------------------------------------------------------
  // One segment
  // ---------------------------------------------------------------------

  function If(condition: bool, reason: Reason): seq<Reason> {
    if condition then [reason] else []
  }

  function CompareSegment(segmentId: Id, baseline: Report, candidate: Report, policy: Policy): SegmentComparison {
    var delta := Subtract(MetricsOf(candidate), MetricsOf(baseline));
    var reasons :=
      If(baseline.rooms < policy.minimumRooms, TooFewRooms)
      + If(delta.brierScore > policy.maximumBrierRegression + COMPARISON_TOLERANCE, BrierRegression)
      + If(delta.logLoss > policy.maximumLogLossRegression + COMPARISON_TOLERANCE, LogLossRegression)
      + If(delta.calibrationError > policy.maximumCalibrationRegression + COMPARISON_TOLERANCE, CalibrationRegression);
    SegmentComparison(
      segmentId, baseline.segment.modeId, baseline.segment.scoringRulesVersion, baseline.segment.roomSize,
      baseline.rooms, baseline.players, baseline, candidate, delta, reasons == [], reasons)
  }

  // ---------------------------------------------------------------------
  // Grouping
  // ---------------------------------------------------------------------

  function BaselineOf(o: Paired): Observation {
    Observation(o.baseline, o.result)
  }

  function CandidateOf(o: Paired): Observation {
    Observation(o.candidate, o.result)
  }

  function Baselines(os: seq<Paired>): seq<Observation> {
    seq(|os|, i requires 0 <= i < |os| => BaselineOf(os[i]))
  }

  function Candidates(os: seq<Paired>): seq<Observation> {
    seq(|os|, i requires 0 <= i < |os| => CandidateOf(os[i]))
  }

  /** The observations of one segment, in input order. */
  function Members(os: seq<Paired>, id: Id): seq<Paired> {
    if os == [] then []
    else
      var last := os[|os| - 1];
      Members(os[..|os| - 1], id) + if last.segmentId == id then [last] else []
  }

  function SegmentIds(os: seq<Paired>): set<Id> {
    set o | o in os :: o.segmentId
  }

  predicate SameShape(a: Paired, b: Paired) {
    && a.result.modeId == b.result.modeId && a.result.scoringRulesVersion == b.result.scoringRulesVersion
    && |a.result.participants| == |b.result.participants|
  }

  ghost predicate Grouped(os: seq<Paired>) {
    && (forall i :: 0 <= i < |os| ==> os[i].segmentId != 0)
    && (forall i, j :: 0 <= i < j < |os| ==> os[i].result.eventId != os[j].result.eventId)
    && (forall i, j :: 0 <= i < |os| && 0 <= j < |os| && os[i].segmentId == os[j].segmentId ==> SameShape(os[i], os[j]))
  }

  lemma MembersStep(os: seq<Paired>, o: Paired, id: Id)
    ensures Members(os + [o], id) == Members(os, id) + if o.segmentId == id then [o] else []
  {
    assert (os + [o])[..|os|] == os;
  }

  /** Members are exactly the observations with the identifier. */
  lemma {:induction false} MembersAre(os: seq<Paired>, id: Id)
    ensures forall o :: o in Members(os, id) <==> o in os && o.segmentId == id
    ensures id in SegmentIds(os) <==> Members(os, id) != []
  {
    if os != [] {
      var front, last := os[..|os| - 1], os[|os| - 1];
      MembersAre(front, id);
      assert os == front + [last];
      forall o ensures o in Members(os, id) <==> o in os && o.segmentId == id {
        assert o in os <==> o in front || o == last;
      }
      if id in SegmentIds(os) {
        var o :| o in os && o.segmentId == id;
        assert o in Members(os, id);
      }
      assert Members(os, id) != [] ==> Members(os, id)[0] in os;
    }
  }

  // ---------------------------------------------------------------------
  // Which observations can be compared
  // ---------------------------------------------------------------------

  predicate Horizon(cutoff: Time, trainedThrough: Time, n: int) {
    cutoff != 0 && trainedThrough != 0 && trainedThrough <= cutoff && 2 <= n <= 100
  }

  /** An observation that scores on its own, after the cutoff. */
  ghost predicate Scores(o: Observation, cutoff: Time, trainedThrough: Time) {
    && cutoff < o.result.availableAt && trainedThrough <= o.prediction.generatedAt
    && Accepted(SegmentOf(o), o)
  }

  ghost predicate Homogeneous(os: seq<Observation>) {
    forall a, b :: a in os && b in os ==> SegmentOf(a) == SegmentOf(b)
  }

  ghost predicate AllScore(os: seq<Observation>, cutoff: Time, trainedThrough: Time) {
    forall o :: o in os ==> Scores(o, cutoff, trainedThrough)
  }

  /** The order of a list decides nothing about whether it calibrates. */
  lemma CalibratesIff(log: real -> real, os: seq<Observation>, cutoff: Time, trainedThrough: Time, n: int)
    ensures HoldoutCalibrated(log, os, cutoff, trainedThrough, n).Ok? <==>
      os != [] && Horizon(cutoff, trainedThrough, n) && Homogeneous(os) && AllScore(os, cutoff, trainedThrough)
  {
    hide PredictionsAccepted, MatchResult.Valid, ReportOf, TallyOf, AllCells;
    if HoldoutCalibrated(log, os, cutoff, trainedThrough, n).Ok? {
      forall o | o in os ensures SegmentOf(o) == SegmentOf(os[0]) && Scores(o, cutoff, trainedThrough) {
        var i :| 0 <= i < |os| && os[i] == o;
        assert Accepted(SegmentOf(os[0]), os[i]);
      }
    } else if os != [] && Horizon(cutoff, trainedThrough, n) && Homogeneous(os)
      && AllScore(os, cutoff, trainedThrough) {
      forall i | 0 <= i < |os|
        ensures Accepted(SegmentOf(os[0]), os[i])
        ensures cutoff < os[i].result.availableAt && trainedThrough <= os[i].prediction.generatedAt
      {
        assert os[i] in os && os[0] in os;
        assert Scores(os[i], cutoff, trainedThrough);
      }
    }
  }

  ghost predicate ReportFor(
    log: real -> real, ms: seq<Observation>, cutoff: Time, trainedThrough: Time, n: int, report: Report)
  {
    exists sorted: seq<Observation> ::
      multiset(sorted) == multiset(ms) && HoldoutCalibrated(log, sorted, cutoff, trainedThrough, n) == Ok(report)
  }

  function StampOf(o: Observation): Stamp {
    Stamp(o.result.availableAt, o.result.eventId)
  }

  lemma SameMembers(a: seq<Observation>, b: seq<Observation>)
    requires multiset(a) == multiset(b)
    ensures forall o :: o in a <==> o in b
    ensures |a| == |b|
  {
    forall o ensures o in a <==> o in b {
      assert o in a <==> o in multiset(a);
      assert o in b <==> o in multiset(b);
    }
    assert |multiset(a)| == |multiset(b)|;
  }

  /** One side of one segment: sorted by availability, then scored. */
  method CalibrateSegment(log: real -> real, ms: seq<Observation>, cutoff: Time, trainedThrough: Time, n: int)
    returns (r: Result<Report>)
    ensures r.Ok? <==>
      ms != [] && Horizon(cutoff, trainedThrough, n) && Homogeneous(ms) && AllScore(ms, cutoff, trainedThrough)
    ensures r.Ok? ==> ReportFor(log, ms, cutoff, trainedThrough, n, r.value)
  {
    hide HoldoutCalibrated, Scores, Horizon;
    var sorted := SortByStamp(StampOf, ms);
    r := EvaluateHoldoutCalibration(log, sorted, cutoff, trainedThrough, n);
    CalibratesIff(log, sorted, cutoff, trainedThrough, n);
    SameMembers(sorted, ms);
  }

  ghost predicate PairScores(o: Paired, config: Config) {
    && Scores(BaselineOf(o), config.cutoff, config.baselineTrainedThrough)
    && Scores(CandidateOf(o), config.cutoff, config.candidateTrainedThrough)
  }

  ghost predicate OneVersionEach(os: seq<Paired>) {
    && (forall i :: 0 <= i < |os| ==>
      && os[i].baseline.modelVersion == os[0].baseline.modelVersion
      && os[i].candidate.modelVersion == os[0].candidate.modelVersion)
    && (os != [] ==> os[0].baseline.modelVersion != os[0].candidate.modelVersion)
  }

  /** Exactly the inputs that a comparison accepts. */
  ghost predicate Comparable(os: seq<Paired>, config: Config) {
    && os != [] && config.policy.Valid()
    && Horizon(config.cutoff, config.baselineTrainedThrough, config.binCount)
    && Horizon(config.cutoff, config.candidateTrainedThrough, config.binCount)
    && Grouped(os) && OneVersionEach(os)
    && forall i :: 0 <= i < |os| ==> PairScores(os[i], config)
  }

  // ---------------------------------------------------------------------
  // The grouping loop
  // ---------------------------------------------------------------------

  datatype Input = Input(reference: Paired, baseline: seq<Observation>, candidate: seq<Observation>)

  ghost predicate InputsOf(os: seq<Paired>, inputs: map<Id, Input>) {
    && inputs.Keys == SegmentIds(os)
    && forall id :: id in inputs ==>
      && inputs[id].baseline == Baselines(Members(os, id)) && inputs[id].candidate == Candidates(Members(os, id))
      && inputs[id].reference in os && inputs[id].reference.segmentId == id
  }

  /** The two versions are those of the first observation that names a baseline
      version, and no other is named beside them. */
  ghost predicate VersionsSeen(os: seq<Paired>, baselineVersion: Id, candidateVersion: Id) {
    && (forall i :: 0 <= i < |os| && os[i].baseline.modelVersion != 0 ==>
      os[i].baseline.modelVersion == baselineVersion && os[i].candidate.modelVersion == candidateVersion)
    && (baselineVersion != 0 ==> SomePair(os, baselineVersion, candidateVersion))
  }

  ghost predicate SomePair(os: seq<Paired>, baselineVersion: Id, candidateVersion: Id) {
    exists i :: 0 <= i < |os|
      && os[i].baseline.modelVersion == baselineVersion && os[i].candidate.modelVersion == candidateVersion
  }

  lemma InputsStep(os: seq<Paired>, o: Paired, inputs: map<Id, Input>)
    requires InputsOf(os, inputs)
    ensures var input := if o.segmentId in inputs then inputs[o.segmentId] else Input(o, [], []);
      InputsOf(os + [o], inputs[o.segmentId := input.(
        baseline := input.baseline + [BaselineOf(o)], candidate := input.candidate + [CandidateOf(o)])])
  {
    hide Members, Baselines, Candidates, SegmentIds;
    SegmentIdsStep(os, o);
    forall id | id in inputs || id == o.segmentId
      ensures Baselines(Members(os + [o], id))
        == Baselines(Members(os, id)) + if id == o.segmentId then [BaselineOf(o)] else []
      ensures Candidates(Members(os + [o], id))
        == Candidates(Members(os, id)) + if id == o.segmentId then [CandidateOf(o)] else []
    {
      MemberLists(os, o, id);
    }
    NoMembers(os, o.segmentId);
  }

  lemma MemberLists(os: seq<Paired>, o: Paired, id: Id)
    ensures Baselines(Members(os + [o], id))
      == Baselines(Members(os, id)) + if id == o.segmentId then [BaselineOf(o)] else []
    ensures Candidates(Members(os + [o], id))
      == Candidates(Members(os, id)) + if id == o.segmentId then [CandidateOf(o)] else []
  {
    MembersStep(os, o, id);
    hide Members;
  }

  lemma NoMembers(os: seq<Paired>, id: Id)
    ensures id !in SegmentIds(os) ==> Baselines(Members(os, id)) == [] && Candidates(Members(os, id)) == []
  {
    MembersAre(os, id);
  }

  lemma SegmentIdsStep(os: seq<Paired>, o: Paired)
    ensures SegmentIds(os + [o]) == SegmentIds(os) + {o.segmentId}
  {
    assert o in os + [o];
    forall id | id in SegmentIds(os) ensures id in SegmentIds(os + [o]) {
      var p :| p in os && p.segmentId == id;
      assert p in os + [o];
    }
  }

  method GroupSegments(os: seq<Paired>)
    returns (ok: bool, inputs: map<Id, Input>, baselineVersion: Id, candidateVersion: Id)
    ensures ok ==> Grouped(os) && InputsOf(os, inputs) && VersionsSeen(os, baselineVersion, candidateVersion)
    ensures !ok ==> !Grouped(os) || !OneVersionEach(os)
  {
    hide Members, InputsOf;
    ok, inputs, baselineVersion, candidateVersion := true, map[], 0, 0;
    var events: set<Id> := {};
    NoInputs();
    for k := 0 to |os|
      invariant Grouped(os[..k]) && InputsOf(os[..k], inputs)
      invariant events == set i | 0 <= i < k :: os[i].result.eventId
      invariant VersionsSeen(os[..k], baselineVersion, candidateVersion)
    {
      var o := os[k];
      if o.segmentId == 0 || o.result.eventId in events {
        return false, inputs, baselineVersion, candidateVersion;
      }
      events := events + {o.result.eventId};
      if baselineVersion == 0 {
        baselineVersion, candidateVersion := o.baseline.modelVersion, o.candidate.modelVersion;
      }
      if o.baseline.modelVersion != baselineVersion || o.candidate.modelVersion != candidateVersion {
        return false, inputs, baselineVersion, candidateVersion;
      }
      assert os[..k + 1] == os[..k] + [o];
      InputReference(os[..k], inputs, o.segmentId);
      if o.segmentId in inputs && !SameShape(inputs[o.segmentId].reference, o) {
        return false, inputs, baselineVersion, candidateVersion;
      }
      var input := if o.segmentId in inputs then inputs[o.segmentId] else Input(o, [], []);
      GroupedStep(os[..k], o, inputs);
      InputsStep(os[..k], o, inputs);
      inputs := inputs[o.segmentId := input.(
        baseline := input.baseline + [BaselineOf(o)], candidate := input.candidate + [CandidateOf(o)])];
    }
    assert os[..|os|] == os;
  }

  lemma NoInputs()
    ensures InputsOf([], map[])
  {
  }

  lemma InputReference(os: seq<Paired>, inputs: map<Id, Input>, id: Id)
    requires InputsOf(os, inputs)
    ensures id in inputs ==>
      exists i :: 0 <= i < |os| && os[i] == inputs[id].reference && os[i].segmentId == id
  {
  }

  lemma GroupedStep(os: seq<Paired>, o: Paired, inputs: map<Id, Input>)
    requires Grouped(os) && InputsOf(os, inputs) && o.segmentId != 0
    requires forall i :: 0 <= i < |os| ==> os[i].result.eventId != o.result.eventId
    requires o.segmentId in inputs ==> SameShape(inputs[o.segmentId].reference, o)
    ensures Grouped(os + [o])
  {
    hide Members;
    forall i | 0 <= i < |os| && os[i].segmentId == o.segmentId ensures SameShape(os[i], o) {
      assert os[i] in os;
      assert o.segmentId in SegmentIds(os);
      var reference := inputs[o.segmentId].reference;
      var j :| 0 <= j < |os| && os[j] == reference;
      assert SameShape(os[i], os[j]);
    }
  }

  // ---------------------------------------------------------------------
  // The report
  // ---------------------------------------------------------------------

  function BaselineReports(ss: seq<SegmentComparison>): seq<Report> {
    seq(|ss|, i requires 0 <= i < |ss| => ss[i].baseline)
  }

  function CandidateReports(ss: seq<SegmentComparison>): seq<Report> {
    seq(|ss|, i requires 0 <= i < |ss| => ss[i].candidate)
  }

  function RoomsOf(ss: seq<SegmentComparison>): nat {
    if ss == [] then 0 else RoomsOf(ss[..|ss| - 1]) + ss[|ss| - 1].baseline.rooms
  }

  function PlayersOf(ss: seq<SegmentComparison>): nat {
    if ss == [] then 0 else PlayersOf(ss[..|ss| - 1]) + ss[|ss| - 1].baseline.players
  }

  function Tagged(segmentId: Id, reasons: seq<Reason>): seq<Reason> {
    seq(|reasons|, i requires 0 <= i < |reasons| => InSegment(segmentId, reasons[i]))
  }

  function SegmentReasons(ss: seq<SegmentComparison>): seq<Reason> {
    if ss == [] then []
    else SegmentReasons(ss[..|ss| - 1]) + Tagged(ss[|ss| - 1].segmentId, ss[|ss| - 1].reasons)
  }

  function LatestAvailable(os: seq<Paired>): Time {
    if os == [] then 0
    else
      var before := LatestAvailable(os[..|os| - 1]);
      if os[|os| - 1].result.availableAt > before then os[|os| - 1].result.availableAt else before
  }

  /** One segment's line: both sides scored on the segment's observations. */
  ghost predicate SegmentOk(log: real -> real, os: seq<Paired>, config: Config, id: Id, s: SegmentComparison) {
    && s == CompareSegment(id, s.baseline, s.candidate, config.policy)
    && ReportFor(log, Baselines(Members(os, id)), config.cutoff, config.baselineTrainedThrough, config.binCount,
      s.baseline)
    && ReportFor(log, Candidates(Members(os, id)), config.cutoff, config.candidateTrainedThrough, config.binCount,
      s.candidate)
  }

  ghost predicate SegmentsOk(
      log: real -> real, os: seq<Paired>, config: Config, ids: seq<Id>, ss: seq<SegmentComparison>) {
    |ss| <= |ids| && forall i :: 0 <= i < |ss| ==> SegmentOk(log, os, config, ids[i], ss[i])
  }

  /** What a comparison of comparable observations reports. */
  ghost predicate Produced(log: real -> real, os: seq<Paired>, config: Config, r: ComparisonReport) {
    var ids := SortedList(SegmentIds(os));
    var baseline, candidate := SumsOf(BaselineReports(r.segments)), SumsOf(CandidateReports(r.segments));
    && os != [] && r.baselineVersion == os[0].baseline.modelVersion
      && r.candidateVersion == os[0].candidate.modelVersion
    && r.cutoff == config.cutoff && r.policy == config.policy
    && r.baselineTrainedThrough == config.baselineTrainedThrough
    && r.candidateTrainedThrough == config.candidateTrainedThrough
    && r.holdoutThrough == LatestAvailable(os)
    && |r.segments| == |ids| && SegmentsOk(log, os, config, ids, r.segments)
    && r.rooms == RoomsOf(r.segments) && r.players == PlayersOf(r.segments)
    && baseline.players > 0 && baseline.cells > 0 && candidate.players > 0 && candidate.cells > 0
    && r.baseline == baseline.Averages() && r.candidate == candidate.Averages()
    && r.delta == Subtract(r.candidate, r.baseline)
    && var improvement := r.baseline.brierScore - r.candidate.brierScore;
      && r.reasons == SegmentReasons(r.segments)
        + If(improvement + COMPARISON_TOLERANCE < config.policy.minimumBrierImprovement, OverallImprovement)
      && r.eligible == (r.reasons == [])
  }

  lemma StepSegments(ss: seq<SegmentComparison>, s: SegmentComparison)
    ensures BaselineReports(ss + [s]) == BaselineReports(ss) + [s.baseline]
    ensures CandidateReports(ss + [s]) == CandidateReports(ss) + [s.candidate]
    ensures RoomsOf(ss + [s]) == RoomsOf(ss) + s.baseline.rooms
    ensures PlayersOf(ss + [s]) == PlayersOf(ss) + s.baseline.players
    ensures SegmentReasons(ss + [s]) == SegmentReasons(ss) + Tagged(s.segmentId, s.reasons)
  {
    assert (ss + [s])[..|ss|] == ss;
  }

  lemma ComparableSegment(os: seq<Paired>, config: Config, id: Id)
    requires Comparable(os, config) && id in SegmentIds(os)
    ensures var bs, cs := Baselines(Members(os, id)), Candidates(Members(os, id));
      && bs != [] && Homogeneous(bs) && AllScore(bs, config.cutoff, config.baselineTrainedThrough)
      && cs != [] && Homogeneous(cs) && AllScore(cs, config.cutoff, config.candidateTrainedThrough)
  {
    hide Accepted, Members, SegmentIds, Policy.Valid, Horizon;
    MembersAre(os, id);
    var ms := Members(os, id);
    forall i | 0 <= i < |ms|
      ensures PairScores(ms[i], config)
      ensures SegmentOf(BaselineOf(ms[i])) == SegmentOf(BaselineOf(ms[0]))
      ensures SegmentOf(CandidateOf(ms[i])) == SegmentOf(CandidateOf(ms[0]))
    {
      assert ms[i] in os && ms[0] in os;
      var j, k :| 0 <= j < |os| && os[j] == ms[i] && 0 <= k < |os| && os[k] == ms[0];
      assert SameShape(os[j], os[k]);
    }
  }

  /** A segment whose two sides both calibrate has only pairs that score. */
  lemma SegmentScores(os: seq<Paired>, config: Config, id: Id)
    requires AllScore(Baselines(Members(os, id)), config.cutoff, config.baselineTrainedThrough)
    requires AllScore(Candidates(Members(os, id)), config.cutoff, config.candidateTrainedThrough)
    ensures forall o :: o in os && o.segmentId == id ==> PairScores(o, config)
  {
    hide Scores, Members;
    MembersAre(os, id);
    forall o | o in os && o.segmentId == id ensures PairScores(o, config) {
      assert o in Members(os, id);
      var i :| 0 <= i < |Members(os, id)| && Members(os, id)[i] == o;
      assert Baselines(Members(os, id))[i] == BaselineOf(o);
      assert Candidates(Members(os, id))[i] == CandidateOf(o);
    }
  }

  method EvaluateSegment(log: real -> real, ghost os: seq<Paired>, input: Input, config: Config, id: Id)
    returns (r: Result<SegmentComparison>)
    requires config.policy.Valid() && Grouped(os) && id in SegmentIds(os)
    requires input.baseline == Baselines(Members(os, id)) && input.candidate == Candidates(Members(os, id))
    ensures r.Err? ==> !Comparable(os, config)
    ensures r.Ok? ==> SegmentOk(log, os, config, id, r.value)
    ensures r.Ok? ==>
      && Horizon(config.cutoff, config.baselineTrainedThrough, config.binCount)
      && Horizon(config.cutoff, config.candidateTrainedThrough, config.binCount)
      && (forall o :: o in os && o.segmentId == id ==> PairScores(o, config))
  {
    hide *;
    if Comparable(os, config) {
      ComparableSegment(os, config, id);
      ComparableHorizon(os, config);
    }
    var baseline := CalibrateSegment(log, input.baseline, config.cutoff, config.baselineTrainedThrough,
      config.binCount);
    if baseline.Err? {
      return Err(baseline.error);
    }
    var candidate := CalibrateSegment(log, input.candidate, config.cutoff, config.candidateTrainedThrough,
      config.binCount);
    if candidate.Err? {
      return Err(candidate.error);
    }
    SegmentScores(os, config, id);
    var s := CompareSegment(id, baseline.value, candidate.value, config.policy);
    SegmentIsOk(log, os, config, id, baseline.value, candidate.value);
    r := Ok(s);
  }

  lemma ComparableHorizon(os: seq<Paired>, config: Config)
    requires Comparable(os, config)
    ensures Horizon(config.cutoff, config.baselineTrainedThrough, config.binCount)
    ensures Horizon(config.cutoff, config.candidateTrainedThrough, config.binCount)
  {
    hide Grouped, OneVersionEach, PairScores, Horizon;
  }

  lemma SegmentIsOk(log: real -> real, os: seq<Paired>, config: Config, id: Id, baseline: Report, candidate: Report)
    requires ReportFor(log, Baselines(Members(os, id)), config.cutoff, config.baselineTrainedThrough, config.binCount,
      baseline)
    requires ReportFor(log, Candidates(Members(os, id)), config.cutoff, config.candidateTrainedThrough,
      config.binCount, candidate)
    ensures SegmentOk(log, os, config, id, CompareSegment(id, baseline, candidate, config.policy))
  {
    hide ReportFor, Members, Baselines, Candidates;
  }

  // ---------------------------------------------------------------------
  // The comparison
  // ---------------------------------------------------------------------

  method LatestResult(os: seq<Paired>) returns (latest: Time)
    ensures latest == LatestAvailable(os)
  {
    latest := 0;
    for k := 0 to |os|
      invariant latest == LatestAvailable(os[..k])
    {
      assert os[..k + 1][..k] == os[..k];
      if os[k].result.availableAt > latest {
        latest := os[k].result.availableAt;
      }
    }
    assert os[..|os|] == os;
  }

  /** The running state of the loop over the segments. */
  ghost predicate LoopState(
    log: real -> real, os: seq<Paired>, config: Config, ids: seq<Id>, ss: seq<SegmentComparison>,
    rooms: nat, players: nat, baseline: Sums, candidate: Sums, reasons: seq<Reason>)
  {
    && SegmentsOk(log, os, config, ids, ss)
    && rooms == RoomsOf(ss) && players == PlayersOf(ss) && reasons == SegmentReasons(ss)
    && baseline == SumsOf(BaselineReports(ss)) && candidate == SumsOf(CandidateReports(ss))
  }

  lemma LoopStarts(log: real -> real, os: seq<Paired>, config: Config, ids: seq<Id>)
    ensures LoopState(log, os, config, ids, [], 0, 0, NOTHING, NOTHING, [])
  {
  }

  lemma LoopStep(
    log: real -> real, os: seq<Paired>, config: Config, ids: seq<Id>, ss: seq<SegmentComparison>,
    rooms: nat, players: nat, baseline: Sums, candidate: Sums, reasons: seq<Reason>, s: SegmentComparison)
    requires LoopState(log, os, config, ids, ss, rooms, players, baseline, candidate, reasons)
    requires |ss| < |ids| && SegmentOk(log, os, config, ids[|ss|], s)
    ensures LoopState(log, os, config, ids, ss + [s], rooms + s.baseline.rooms, players + s.baseline.players,
                      baseline.Add(s.baseline), candidate.Add(s.candidate), reasons + Tagged(s.segmentId, s.reasons))
  {
    hide SegmentOk, RoomsOf, PlayersOf, SegmentReasons, SumsOf, BaselineReports, CandidateReports, Tagged, Sums.Add;
    StepSegments(ss, s);
    SumsStep(BaselineReports(ss), s.baseline);
    SumsStep(CandidateReports(ss), s.candidate);
  }

  method CompareSegments(log: real -> real, os: seq<Paired>, inputs: map<Id, Input>, config: Config, ids: seq<Id>)
    returns (ok: bool, ss: seq<SegmentComparison>, rooms: nat, players: nat, baseline: Sums, candidate: Sums,
             eligible: bool, reasons: seq<Reason>)
    requires config.policy.Valid() && Grouped(os) && InputsOf(os, inputs) && IsSortedList(inputs.Keys, ids)
    ensures !ok ==> !Comparable(os, config)
    ensures ok ==> |ss| == |ids| && LoopState(log, os, config, ids, ss, rooms, players, baseline, candidate, reasons)
    ensures eligible == (reasons == [])
    ensures ok ==> forall id, o :: id in ids && o in os && o.segmentId == id ==> PairScores(o, config)
    ensures ok && ids != [] ==>
      && Horizon(config.cutoff, config.baselineTrainedThrough, config.binCount)
      && Horizon(config.cutoff, config.candidateTrainedThrough, config.binCount)
  {
    hide *;
    LoopStarts(log, os, config, ids);
    ok, ss, rooms, players, reasons := true, [], 0, 0, [];
    baseline, candidate := NOTHING, NOTHING;
    eligible := true;
    var baselineTotals := new MetricTotals();
    var candidateTotals := new MetricTotals();
    for k := 0 to |ids|
      invariant |ss| == k && eligible == (reasons == [])
      invariant baselineTotals.Value() == baseline && candidateTotals.Value() == candidate
      invariant fresh(baselineTotals) && fresh(candidateTotals) && baselineTotals != candidateTotals
      invariant LoopState(log, os, config, ids, ss, rooms, players, baseline, candidate, reasons)
      invariant forall i, o :: 0 <= i < k && o in os && o.segmentId == ids[i] ==> PairScores(o, config)
      invariant k > 0 ==>
        && Horizon(config.cutoff, config.baselineTrainedThrough, config.binCount)
        && Horizon(config.cutoff, config.candidateTrainedThrough, config.binCount)
    {
      var id := ids[k];
      InputListed(os, inputs, ids, k);
      var compared := EvaluateSegment(log, os, inputs[id], config, id);
      if compared.Err? {
        ok := false;
        return;
      }
      var s := compared.value;
      LoopStep(log, os, config, ids, ss, rooms, players, baseline, candidate, reasons, s);
      SegmentNamed(log, os, config, id, s);
      PassedHasNoReasons(reasons, s);
      ss := ss + [s];
      rooms, players := rooms + s.baseline.rooms, players + s.baseline.players;
      baselineTotals.Add(s.baseline);
      candidateTotals.Add(s.candidate);
      baseline, candidate := baselineTotals.Value(), candidateTotals.Value();
      if !s.passed {
        eligible, reasons := false, reasons + Tagged(s.segmentId, s.reasons);
      }
    }
  }

  lemma SegmentNamed(log: real -> real, os: seq<Paired>, config: Config, id: Id, s: SegmentComparison)
    requires SegmentOk(log, os, config, id, s)
    ensures s.segmentId == id && s.passed == (s.reasons == [])
  {
    hide ReportFor;
  }

  lemma PassedHasNoReasons(reasons: seq<Reason>, s: SegmentComparison)
    requires s.passed == (s.reasons == [])
    ensures s.passed == (Tagged(s.segmentId, s.reasons) == [])
    ensures s.passed ==> reasons + Tagged(s.segmentId, s.reasons) == reasons
  {
  }

  lemma InputListed(os: seq<Paired>, inputs: map<Id, Input>, ids: seq<Id>, k: nat)
    requires InputsOf(os, inputs) && IsSortedList(inputs.Keys, ids) && k < |ids|
    ensures ids[k] in inputs && ids[k] in SegmentIds(os)
    ensures inputs[ids[k]].baseline == Baselines(Members(os, ids[k]))
    ensures inputs[ids[k]].candidate == Candidates(Members(os, ids[k]))
  {
    hide Members, Baselines, Candidates;
    assert ids[k] in Ids(ids);
  }

  /** Which pairs score follows from the segments, since every pair is in one. */
  lemma EverythingScores(os: seq<Paired>, config: Config, ids: seq<Id>)
    requires Ids(ids) == SegmentIds(os)
    requires forall id, o :: id in ids && o in os && o.segmentId == id ==> PairScores(o, config)
    ensures forall i :: 0 <= i < |os| ==> PairScores(os[i], config)
  {
    hide PairScores;
    forall i | 0 <= i < |os| ensures PairScores(os[i], config) {
      assert os[i].segmentId in SegmentIds(os);
      assert os[i].segmentId in Ids(ids) && os[i] in os;
    }
  }

  lemma VersionsAgree(os: seq<Paired>, config: Config, baselineVersion: Id, candidateVersion: Id)
    requires os != [] && VersionsSeen(os, baselineVersion, candidateVersion) && baselineVersion != candidateVersion
    requires forall i :: 0 <= i < |os| ==> PairScores(os[i], config)
    ensures OneVersionEach(os)
    ensures baselineVersion == os[0].baseline.modelVersion && candidateVersion == os[0].candidate.modelVersion
  {
    hide MatchResult.Valid, PredictionsAccepted;
    forall i | 0 <= i < |os| ensures os[i].baseline.modelVersion != 0 {
      assert PairScores(os[i], config);
    }
  }

  lemma VersionsDisagree(os: seq<Paired>, config: Config, baselineVersion: Id, candidateVersion: Id)
    requires VersionsSeen(os, baselineVersion, candidateVersion)
    requires baselineVersion == 0 || candidateVersion == 0 || baselineVersion == candidateVersion
    ensures !Comparable(os, config)
  {
    hide *;
    FirstVersions(os, config);
    NamedVersions(os, config, baselineVersion, candidateVersion);
  }

  lemma FirstVersions(os: seq<Paired>, config: Config)
    ensures Comparable(os, config) ==>
      && os != [] && os[0].baseline.modelVersion != 0 && os[0].candidate.modelVersion != 0
      && os[0].baseline.modelVersion != os[0].candidate.modelVersion
  {
    hide MatchResult.Valid, PredictionsAccepted, Policy.Valid, Horizon, Grouped;
    assert Comparable(os, config) ==> PairScores(os[0], config);
  }

  lemma NamedVersions(os: seq<Paired>, config: Config, baselineVersion: Id, candidateVersion: Id)
    requires VersionsSeen(os, baselineVersion, candidateVersion)
    ensures Comparable(os, config) && os != [] && os[0].baseline.modelVersion != 0 ==>
      baselineVersion == os[0].baseline.modelVersion && candidateVersion == os[0].candidate.modelVersion
  {
    hide Comparable;
  }

  lemma FirstHasSegment(os: seq<Paired>, ids: seq<Id>)
    requires os != [] && Ids(ids) == SegmentIds(os)
    ensures ids != []
  {
    assert os[0] in os;
    assert os[0].segmentId in SegmentIds(os);
    assert os[0].segmentId in Ids(ids);
  }

  lemma BecomesComparable(os: seq<Paired>, config: Config)
    requires os != [] && config.policy.Valid() && Grouped(os) && OneVersionEach(os)
    requires Horizon(config.cutoff, config.baselineTrainedThrough, config.binCount)
    requires Horizon(config.cutoff, config.candidateTrainedThrough, config.binCount)
    requires forall i :: 0 <= i < |os| ==> PairScores(os[i], config)
    ensures Comparable(os, config)
  {
    hide PairScores, Grouped, OneVersionEach, Policy.Valid, Horizon;
  }

  /** Every segment has players and cells. */
  lemma {:induction false} SumsPositive(
    log: real -> real, os: seq<Paired>, config: Config, ids: seq<Id>, ss: seq<SegmentComparison>, k: nat)
    requires 0 < k <= |ss| && SegmentsOk(log, os, config, ids, ss)
    ensures SumsOf(BaselineReports(ss)[..k]).players > 0 && SumsOf(BaselineReports(ss)[..k]).cells > 0
    ensures SumsOf(CandidateReports(ss)[..k]).players > 0 && SumsOf(CandidateReports(ss)[..k]).cells > 0
  {
    hide SegmentOk, Sums.Add, SumsOf;
    if k > 1 {
      SumsPositive(log, os, config, ids, ss, k - 1);
    }
    assert SegmentOk(log, os, config, ids[k - 1], ss[k - 1]);
    var b, c := ss[k - 1].baseline, ss[k - 1].candidate;
    SegmentPositive(log, os, config, ids[k - 1], ss[k - 1]);
    assert BaselineReports(ss)[..k] == BaselineReports(ss)[..k - 1] + [b];
    assert CandidateReports(ss)[..k] == CandidateReports(ss)[..k - 1] + [c];
    SumsStep(BaselineReports(ss)[..k - 1], b);
    SumsStep(CandidateReports(ss)[..k - 1], c);
    AddPositive(SumsOf(BaselineReports(ss)[..k - 1]), b);
    AddPositive(SumsOf(CandidateReports(ss)[..k - 1]), c);
  }

  lemma AddPositive(sums: Sums, r: Report)
    requires r.players > 0 && r.segment.roomSize > 0
    ensures sums.Add(r).players > 0 && sums.Add(r).cells > 0
  {
    CellsExist(r.players, r.segment.roomSize);
  }

  lemma ReportPositive(log: real -> real, ms: seq<Observation>, cutoff: Time, trainedThrough: Time, n: int, r: Report)
    requires ReportFor(log, ms, cutoff, trainedThrough, n, r)
    ensures r.players > 0 && r.segment.roomSize > 0
  {
    hide Calibrated, TallyOf, AllCells, BinsOf, TotalLoss, PlayersUpTo, CalibrationErrorOf, AllAccepted;
    var sorted: seq<Observation> :|
      multiset(sorted) == multiset(ms) && HoldoutCalibrated(log, sorted, cutoff, trainedThrough, n) == Ok(r);
    assert Calibrated(log, sorted, n) == Ok(r);
    ScorableFrom(log, sorted, n);
    CalibratedUnfold(log, sorted, n);
  }

  lemma SegmentPositive(log: real -> real, os: seq<Paired>, config: Config, id: Id, s: SegmentComparison)
    requires SegmentOk(log, os, config, id, s)
    ensures s.baseline.players > 0 && s.baseline.segment.roomSize > 0
    ensures s.candidate.players > 0 && s.candidate.segment.roomSize > 0
  {
    hide ReportFor, Members;
    ReportPositive(log, Baselines(Members(os, id)), config.cutoff, config.baselineTrainedThrough, config.binCount,
      s.baseline);
    ReportPositive(log, Candidates(Members(os, id)), config.cutoff, config.candidateTrainedThrough, config.binCount,
      s.candidate);
  }

  lemma AllSumsPositive(log: real -> real, os: seq<Paired>, config: Config, ids: seq<Id>, ss: seq<SegmentComparison>)
    requires ss != [] && SegmentsOk(log, os, config, ids, ss)
    ensures SumsOf(BaselineReports(ss)).players > 0 && SumsOf(BaselineReports(ss)).cells > 0
    ensures SumsOf(CandidateReports(ss)).players > 0 && SumsOf(CandidateReports(ss)).cells > 0
  {
    hide SegmentsOk, SumsOf;
    SumsPositive(log, os, config, ids, ss, |ss|);
    assert BaselineReports(ss)[..|ss|] == BaselineReports(ss) && CandidateReports(ss)[..|ss|] == CandidateReports(ss);
  }

  method CompareHoldoutModels(log: real -> real, os: seq<Paired>, config: Config) returns (r: Result<ComparisonReport>)
    ensures r.Ok? <==> Comparable(os, config)
    ensures r.Ok? ==> Produced(log, os, config, r.value)
  {
    hide *;
    if |os| == 0 || !config.policy.Valid() {
      NotComparable(os, config);
      return Err(InvalidInput);
    }
    var ok, inputs, baselineVersion, candidateVersion := GroupSegments(os);
    if !ok {
      NotComparable(os, config);
      return Err(InvalidInput);
    }
    if baselineVersion == 0 || candidateVersion == 0 || baselineVersion == candidateVersion {
      VersionsDisagree(os, config, baselineVersion, candidateVersion);
      return Err(InvalidInput);
    }
    var ids := Sort(inputs.Keys);
    InputKeys(os, inputs, ids);
    var latest := LatestResult(os);
    var ss: seq<SegmentComparison>;
    var rooms, players, baseline, candidate, eligible, reasons;
    ok, ss, rooms, players, baseline, candidate, eligible, reasons := CompareSegments(log, os, inputs, config, ids);
    if !ok {
      return Err(InvalidInput);
    }
    FirstHasSegment(os, ids);
    EverythingScores(os, config, ids);
    VersionsAgree(os, config, baselineVersion, candidateVersion);
    BecomesComparable(os, config);
    LoopParts(log, os, config, ids, ss, rooms, players, baseline, candidate, reasons);
    AllSumsPositive(log, os, config, ids, ss);
    var b, c := baseline.Averages(), candidate.Averages();
    if b.brierScore - c.brierScore + COMPARISON_TOLERANCE < config.policy.minimumBrierImprovement {
      eligible, reasons := false, reasons + [OverallImprovement];
    }
    var report := ComparisonReport(
      baselineVersion, candidateVersion, config.cutoff, config.baselineTrainedThrough, config.candidateTrainedThrough,
      latest, rooms, players, b, c, Subtract(c, b), config.policy, ss, eligible, reasons);
    ReportProduced(log, os, config, ids, report);
    r := Ok(report);
  }

  lemma NotComparable(os: seq<Paired>, config: Config)
    ensures os == [] || !config.policy.Valid() || !Grouped(os) || !OneVersionEach(os) ==> !Comparable(os, config)
  {
    hide Policy.Valid, Grouped, OneVersionEach, PairScores, Horizon;
  }

  lemma InputKeys(os: seq<Paired>, inputs: map<Id, Input>, ids: seq<Id>)
    requires InputsOf(os, inputs) && IsSortedList(inputs.Keys, ids)
    ensures Ids(ids) == SegmentIds(os) && ids == SortedList(SegmentIds(os))
  {
    hide Members;
    SortedListUnique(SegmentIds(os), ids);
  }

  lemma LoopParts(
    log: real -> real, os: seq<Paired>, config: Config, ids: seq<Id>, ss: seq<SegmentComparison>,
    rooms: nat, players: nat, baseline: Sums, candidate: Sums, reasons: seq<Reason>)
    requires LoopState(log, os, config, ids, ss, rooms, players, baseline, candidate, reasons)
    ensures SegmentsOk(log, os, config, ids, ss)
    ensures rooms == RoomsOf(ss) && players == PlayersOf(ss) && reasons == SegmentReasons(ss)
    ensures baseline == SumsOf(BaselineReports(ss)) && candidate == SumsOf(CandidateReports(ss))
  {
    hide SegmentsOk, RoomsOf, PlayersOf, SegmentReasons, SumsOf;
  }

  lemma ReportProduced(log: real -> real, os: seq<Paired>, config: Config, ids: seq<Id>, r: ComparisonReport)
    requires os != [] && ids == SortedList(SegmentIds(os))
    requires r.baselineVersion == os[0].baseline.modelVersion && r.candidateVersion == os[0].candidate.modelVersion
    requires r.cutoff == config.cutoff && r.policy == config.policy
    requires r.baselineTrainedThrough == config.baselineTrainedThrough
    requires r.candidateTrainedThrough == config.candidateTrainedThrough && r.holdoutThrough == LatestAvailable(os)
    requires |r.segments| == |ids| && SegmentsOk(log, os, config, ids, r.segments)
    requires r.rooms == RoomsOf(r.segments) && r.players == PlayersOf(r.segments)
    requires var baseline, candidate := SumsOf(BaselineReports(r.segments)), SumsOf(CandidateReports(r.segments));
      && baseline.players > 0 && baseline.cells > 0 && candidate.players > 0 && candidate.cells > 0
      && r.baseline == baseline.Averages() && r.candidate == candidate.Averages()
    requires r.delta == Subtract(r.candidate, r.baseline) && r.eligible == (r.reasons == [])
    requires r.reasons ==
      if r.baseline.brierScore - r.candidate.brierScore + COMPARISON_TOLERANCE < config.policy.minimumBrierImprovement
      then SegmentReasons(r.segments) + [OverallImprovement] else SegmentReasons(r.segments)
    ensures Produced(log, os, config, r)
  {
    hide SegmentsOk, SumsOf, RoomsOf, PlayersOf, SegmentReasons, LatestAvailable, Sums.Averages, SortedList, SegmentIds;
    assert SegmentReasons(r.segments) + [] == SegmentReasons(r.segments);
  }
}

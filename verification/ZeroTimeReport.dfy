/** An eligible report that activation refuses, because all of its results lie
    before the zero time. */
module ZeroTimeReport {
  import opened Common
  import opened RatingTypes
  import opened SortedIds
  import opened Calibration
  import opened Comparison
  import opened Activation
  import opened ComparisonLaws

  const NO_FEATURES := Features(None, None, None, None, None, None)

  /** Five players, placed in the order of their identities. */
  function Placed(): seq<ParticipantResult> {
    seq(5, i requires 0 <= i < 5 => ParticipantResult(i + 1, i + 1, NO_FEATURES))
  }

  /** Every place with the same probability. */
  function Uniform(): seq<PlacementPrediction> {
    seq(5, i requires 0 <= i < 5 => PlacementPrediction(i + 1, [0.2, 0.2, 0.2, 0.2, 0.2], 0.2, 3.0))
  }

  /** One result, finished at minus two and available at minus one. */
  const GAME := MatchResult(1, 1, 1, 1, 1, -2, -1, Placed())

  function PredictedBy(version: Id): RoomPrediction {
    RoomPrediction(1, 1, version, -3, Uniform())
  }

  function Seen(version: Id): Observation {
    Observation(PredictedBy(version), GAME)
  }

  const PAIR := Paired(1, PredictedBy(1), PredictedBy(2), GAME)

  const SETUP := Config(-4, -5, -5, 2, Comparison.Policy(1, 0.0, 0.0, 0.0, 0.0))

  lemma GameIsValid()
    ensures GAME.Valid()
  {
    var ps := GAME.participants;
    forall p | p in ps ensures p.playerId != 0 && 1 <= p.place <= |ps| && p.features.Valid() {
      var i :| 0 <= i < |ps| && ps[i] == p;
    }
    assert ps[0] in ps;
  }

  lemma {:induction false} PlacesOfGame(k: nat)
    requires k <= 5
    ensures forall id: Id :: id in Places(Placed(), k) <==> 1 <= id <= k
  {
    if k > 0 {
      PlacesOfGame(k - 1);
    }
  }

  lemma UniformIsValid(p: PlacementPrediction)
    requires p.placeProbabilities == [0.2, 0.2, 0.2, 0.2, 0.2] && p.playerId != 0
    requires p.firstPlaceProbability == 0.2 && p.expectedPlace == 3.0
    ensures PlacementValid(p, 5)
  {
    var ps := p.placeProbabilities;
    assert ProbabilitySum(ps, 1) == 0.2;
    assert ProbabilitySum(ps, 2) == 0.4;
    assert ProbabilitySum(ps, 3) == 0.6;
    assert ProbabilitySum(ps, 4) == 0.8;
    assert ProbabilitySum(ps, 5) == 1.0;
    assert ExpectedPlaceOf(ps, 1) == 0.2;
    assert ExpectedPlaceOf(ps, 2) == 0.6;
    assert ExpectedPlaceOf(ps, 3) == 1.2;
    assert ExpectedPlaceOf(ps, 4) == 2.0;
    assert ExpectedPlaceOf(ps, 5) == 3.0;
  }

  lemma PredictedPlayers(version: Id)
    ensures PlayerIds(Uniform()) == AllPlaces(Seen(version)).Keys
  {
    PlacesOfGame(5);
    var ps, places := Uniform(), AllPlaces(Seen(version));
    hide Places;
    forall id: Id ensures id in PlayerIds(ps) <==> id in places {
      if id in places {
        assert ps[id - 1] in ps && ps[id - 1].playerId == id;
      }
    }
  }

  lemma PredictionIsAccepted(version: Id)
    ensures PredictionsAccepted(Seen(version), 5, 5)
  {
    PlacesOfGame(5);
    var o, ps := Seen(version), Uniform();
    forall i | 0 <= i < 5 ensures ps[i].playerId in AllPlaces(o) && PlacementValid(ps[i], 5) {
      UniformIsValid(ps[i]);
    }
    hide PlacementValid, Places;
  }

  lemma SeenIsAccepted(version: Id)
    requires version != 0
    ensures Accepted(SegmentOf(Seen(version)), Seen(version))
  {
    GameIsValid();
    PredictedPlayers(version);
    PredictionIsAccepted(version);
    hide PlayerIds, PredictionsAccepted, MatchResult.Valid, AllPlaces, Placed;
    assert |Placed()| == 5 by {
      GamePlayers();
    }
    assert |AllPlaces(Seen(version))| == |AllPlaces(Seen(version)).Keys|;
  }

  lemma GamePlayers()
    ensures |Placed()| == 5
  {
  }

  // ---------------------------------------------------------------------
  // Both models score alike
  // ---------------------------------------------------------------------

  lemma {:induction false} SameCells(k: nat)
    requires k <= 5
    ensures RoomCells(Seen(1), k) == RoomCells(Seen(2), k)
  {
    if k > 0 {
      SameCells(k - 1);
    }
  }

  lemma {:induction false} SameLoss(log: real -> real, k: nat)
    requires k <= 5
    ensures RoomLoss(log, Seen(1), k) == RoomLoss(log, Seen(2), k)
  {
    if k > 0 {
      SameLoss(log, k - 1);
    }
  }

  lemma OneRoom(log: real -> real, version: Id)
    ensures AllCells([Seen(version)], 1) == CellsOfRoom(Seen(version))
    ensures TotalLoss(log, [Seen(version)], 1) == LossOfRoom(log, Seen(version))
    ensures PlayersUpTo([Seen(version)], 1) == 5
  {
    assert AllCells([Seen(version)], 0) == [] && TotalLoss(log, [Seen(version)], 0) == 0.0;
  }

  ghost function ScoreOf(log: real -> real, version: Id): Result<Report> {
    HoldoutCalibrated(log, [Seen(version)], -4, -5, 2)
  }

  lemma Scored(log: real -> real, version: Id)
    requires version != 0
    ensures ScoreOf(log, version).Ok? && ScoreOf(log, version) == Calibrated(log, [Seen(version)], 2)
  {
    SeenIsAccepted(version);
    hide Accepted, TallyOf, AllCells, ReportOf, TotalLoss;
  }

  lemma SameScores(log: real -> real)
    ensures ScoreOf(log, 1).Ok? && ScoreOf(log, 2).Ok?
    ensures ScoreOf(log, 2).value == ScoreOf(log, 1).value.(segment := ScoreOf(log, 2).value.segment)
    ensures ScoreOf(log, 1).value.rooms == 1 && ScoreOf(log, 1).value.players == 5
    ensures ScoreOf(log, 1).value.segment.roomSize == ScoreOf(log, 2).value.segment.roomSize == 5
  {
    Scored(log, 1);
    Scored(log, 2);
    OneRoom(log, 1);
    OneRoom(log, 2);
    SameCells(5);
    SameLoss(log, 5);
    hide ScoreOf, TallyOf, AllCells, TotalLoss, PlayersUpTo, Scorable, RoomCells, RoomLoss, BinsOf, CalibrationErrorOf;
  }

  lemma PairIsComparable()
    ensures Comparable([PAIR], SETUP)
  {
    SeenIsAccepted(1);
    SeenIsAccepted(2);
    hide Accepted;
    assert BaselineOf(PAIR) == Seen(1) && CandidateOf(PAIR) == Seen(2);
  }

  lemma OneSegment()
    ensures Members([PAIR], 1) == [PAIR] && SortedList(SegmentIds([PAIR])) == [1]
  {
    assert [PAIR][..0] == [];
    assert Members([PAIR][..0], 1) == [];
    assert SegmentIds([PAIR]) == {1};
    assert IsSortedList({1}, [1]);
    SortedListUnique({1}, [1]);
  }

  ghost function Line(log: real -> real): SegmentComparison
    requires ScoreOf(log, 1).Ok? && ScoreOf(log, 2).Ok?
  {
    CompareSegment(1, ScoreOf(log, 1).value, ScoreOf(log, 2).value, SETUP.policy)
  }

  lemma AlikePasses(b: Report, c: Report)
    requires c == b.(segment := c.segment) && b.rooms == 1
    ensures CompareSegment(1, b, c, SETUP.policy).reasons == []
  {
  }

  lemma SideReported(log: real -> real, version: Id)
    requires ScoreOf(log, version).Ok?
    ensures ReportFor(log, [Seen(version)], -4, -5, 2, ScoreOf(log, version).value)
  {
    hide HoldoutCalibrated;
    assert multiset([Seen(version)]) == multiset([Seen(version)]);
  }

  lemma Sides()
    ensures Baselines(Members([PAIR], 1)) == [Seen(1)] && Candidates(Members([PAIR], 1)) == [Seen(2)]
  {
    OneSegment();
    hide SegmentIds, SortedList, Members;
  }

  lemma LinePasses(log: real -> real)
    requires ScoreOf(log, 1).Ok? && ScoreOf(log, 2).Ok?
    ensures Line(log).reasons == []
    ensures SegmentOk(log, [PAIR], SETUP, 1, Line(log))
  {
    hide ScoreOf, ReportFor, Seen, Baselines, Candidates, Members, Subtract, If;
    SameScores(log);
    SideReported(log, 1);
    SideReported(log, 2);
    Sides();
    AlikePasses(ScoreOf(log, 1).value, ScoreOf(log, 2).value);
  }

  lemma OneReportSums(r: Report)
    requires r.players == 5 && r.segment.roomSize == 5
    ensures SumsOf([r]).players > 0 && SumsOf([r]).cells > 0
    ensures SumsOf([r]).Averages() == MetricsOf(r)
  {
    assert SumsOf([r]) == SumsOf([]).Add(r) by {
      SumsStep([], r);
      assert [] + [r] == [r];
    }
    assert 25.0 > 0.0 && r.calibrationError * 25.0 / 25.0 == r.calibrationError;
  }

  ghost function ReportOn(log: real -> real): ComparisonReport
    requires ScoreOf(log, 1).Ok? && ScoreOf(log, 2).Ok?
  {
    var line := Line(log);
    var b, c := MetricsOf(line.baseline), MetricsOf(line.candidate);
    ComparisonReport(1, 2, -4, -5, -5, 0, 1, 5, b, c, Subtract(c, b), SETUP.policy, [line], true, [])
  }

  lemma OneLine(line: SegmentComparison)
    requires line.baseline.rooms == 1 && line.baseline.players == 5 && line.reasons == []
    ensures BaselineReports([line]) == [line.baseline] && CandidateReports([line]) == [line.candidate]
    ensures RoomsOf([line]) == 1 && PlayersOf([line]) == 5 && SegmentReasons([line]) == []
  {
    assert [line][..0] == [];
    assert RoomsOf([]) == 0 && PlayersOf([]) == 0 && SegmentReasons([]) == [];
  }

  lemma NothingIsLater()
    ensures LatestAvailable([PAIR]) == 0
  {
    assert [PAIR][..0] == [];
  }

  lemma OneSegmentOk(log: real -> real, line: SegmentComparison)
    requires SegmentOk(log, [PAIR], SETUP, 1, line)
    ensures SegmentsOk(log, [PAIR], SETUP, [1], [line])
  {
    hide SegmentOk;
  }

  lemma LineOfScores(log: real -> real)
    requires ScoreOf(log, 1).Ok? && ScoreOf(log, 2).Ok?
    ensures Line(log).baseline == ScoreOf(log, 1).value && Line(log).candidate == ScoreOf(log, 2).value
  {
    hide ScoreOf, Subtract, If;
  }

  lemma ReportIsProduced(log: real -> real)
    requires ScoreOf(log, 1).Ok? && ScoreOf(log, 2).Ok?
    ensures Produced(log, [PAIR], SETUP, ReportOn(log))
  {
    hide ScoreOf, SegmentOk, SegmentsOk, Line, SumsOf, RoomsOf, PlayersOf, SegmentReasons, LatestAvailable, SortedList;
    hide SegmentIds, BaselineReports, CandidateReports, Sums.Averages;
    SameScores(log);
    LineOfScores(log);
    OneSegment();
    LinePasses(log);
    NothingIsLater();
    var line := Line(log);
    OneSegmentOk(log, line);
    OneLine(line);
    OneReportSums(line.baseline);
    OneReportSums(line.candidate);
  }

  /** The comparison reports one room as eligible, and activation refuses the
      report, whatever the logarithm. */
  lemma EligibleButRefused(log: real -> real)
    ensures exists r: ComparisonReport ::
      && Comparable([PAIR], SETUP) && Produced(log, [PAIR], SETUP, r) && r.eligible
      && !ActivationValid(r)
  {
    SameScores(log);
    PairIsComparable();
    ReportIsProduced(log);
    hide ScoreOf, Produced, Comparable, ActivationValid;
    EligibleActivates(log, [PAIR], SETUP, ReportOn(log));
    assert ReportOn(log).eligible;
  }
}

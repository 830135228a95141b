/** Scoring of placement predictions against later results: bins, proper scores
    and the holdout boundary. */
module Calibration {
  import opened Common
  import opened RatingTypes
  import opened Analysis

  const PREDICTION_TOLERANCE := 0.000000001
  const MINIMUM_LOG_PROBABILITY := 0.000000000000001

  /** A pre-game prediction joined to its result. */
  datatype Observation = Observation(prediction: RoomPrediction, result: MatchResult)

  datatype Segment = Segment(modelVersion: Id, modeId: Id, scoringRulesVersion: Id, roomSize: nat)

  datatype Bin = Bin(
    lowerBound: real,
    upperBound: real,
    count: nat,
    meanPredicted: real,
    observedFrequency: real)

  datatype Report = Report(
    segment: Segment,
    rooms: nat,
    players: nat,
    brierScore: real,
    logLoss: real,
    calibrationError: real,
    bins: seq<Bin>)

  /** One player and place: the predicted probability and what happened. */
  datatype Cell = Cell(probability: real, observed: real)

  /** The running totals of the scoring loop. */
  datatype Tally = Tally(counts: seq<nat>, predicted: seq<real>, observed: seq<real>, brier: real)

  // ---------------------------------------------------------------------
  // Which observations are accepted
  // ---------------------------------------------------------------------

  function ProbabilitySum(ps: seq<real>, k: nat): real
    requires k <= |ps|
  {
    if k == 0 then 0.0 else ProbabilitySum(ps, k - 1) + ps[k - 1]
  }

  function ExpectedPlaceOf(ps: seq<real>, k: nat): real
    requires k <= |ps|
  {
    if k == 0 then 0.0 else ExpectedPlaceOf(ps, k - 1) + k as real * ps[k - 1]
  }

  ghost predicate PlacementValid(p: PlacementPrediction, roomSize: nat) {
    var ps := p.placeProbabilities;
    && p.playerId != 0 && |ps| == roomSize > 0
    && (forall i :: 0 <= i < |ps| ==> 0.0 <= ps[i] <= 1.0)
    && Abs(ProbabilitySum(ps, |ps|) - 1.0) <= PREDICTION_TOLERANCE
    && Abs(ExpectedPlaceOf(ps, |ps|) - p.expectedPlace) <= PREDICTION_TOLERANCE
    && Abs(ps[0] - p.firstPlaceProbability) <= PREDICTION_TOLERANCE
  }

  method ValidatePlacementPrediction(p: PlacementPrediction, roomSize: nat) returns (valid: bool)
    requires roomSize > 0
    ensures valid == PlacementValid(p, roomSize)
  {
    var ps := p.placeProbabilities;
    if p.playerId == 0 || |ps| != roomSize {
      return false;
    }
    var sum, expected := 0.0, 0.0;
    for i := 0 to |ps|
      invariant forall j :: 0 <= j < i ==> 0.0 <= ps[j] <= 1.0
      invariant sum == ProbabilitySum(ps, i) && expected == ExpectedPlaceOf(ps, i)
    {
      if ps[i] < 0.0 || ps[i] > 1.0 {
        return false;
      }
      sum := sum + ps[i];
      expected := expected + (i + 1) as real * ps[i];
    }
    valid := Abs(sum - 1.0) <= PREDICTION_TOLERANCE && Abs(expected - p.expectedPlace) <= PREDICTION_TOLERANCE
      && Abs(ps[0] - p.firstPlaceProbability) <= PREDICTION_TOLERANCE;
  }

  function SegmentOf(o: Observation): Segment {
    Segment(o.prediction.modelVersion, o.result.modeId, o.result.scoringRulesVersion, |o.result.participants|)
  }

  predicate SegmentAccepts(segment: Segment, o: Observation) {
    && o.result.Valid()
    && o.prediction.roomId == o.result.roomId && o.prediction.modeId == o.result.modeId
    && o.prediction.generatedAt != 0 && o.prediction.generatedAt <= o.result.finishedAt
    && o.prediction.modelVersion != 0 && SegmentOf(o) == segment
    && |o.prediction.participants| == segment.roomSize
  }

  /** The place of each player among the first `k` participants of a result. */
  function Places(ps: seq<ParticipantResult>, k: nat): map<Id, int>
    requires k <= |ps|
  {
    if k == 0 then map[] else Places(ps, k - 1)[ps[k - 1].playerId := ps[k - 1].place]
  }

  function AllPlaces(o: Observation): map<Id, int> {
    Places(o.result.participants, |o.result.participants|)
  }

  function PlayerIds(ps: seq<PlacementPrediction>): set<Id> {
    set p | p in ps :: p.playerId
  }

  ghost predicate PredictionsAccepted(o: Observation, roomSize: nat, k: nat)
    requires k <= |o.prediction.participants|
  {
    var ps := o.prediction.participants;
    && (forall i :: 0 <= i < k ==> ps[i].playerId in AllPlaces(o) && PlacementValid(ps[i], roomSize))
    && (forall i, j :: 0 <= i < j < k ==> ps[i].playerId != ps[j].playerId)
  }

  ghost predicate Accepted(segment: Segment, o: Observation) {
    && SegmentAccepts(segment, o)
    && PredictionsAccepted(o, segment.roomSize, |o.prediction.participants|)
    && |PlayerIds(o.prediction.participants)| == |AllPlaces(o)|
  }

  ghost predicate AllAccepted(segment: Segment, os: seq<Observation>, k: nat)
    requires k <= |os|
  {
    forall i :: 0 <= i < k ==> Accepted(segment, os[i])
  }

  // ---------------------------------------------------------------------
  // Cells
  // ---------------------------------------------------------------------

  ghost function CellsOf(p: PlacementPrediction, place: int, k: nat): (cells: seq<Cell>)
    requires k <= |p.placeProbabilities|
    ensures |cells| == k
  {
    seq(k, i requires 0 <= i < k => Cell(p.placeProbabilities[i], if i + 1 == place then 1.0 else 0.0))
  }

  function PlaceOf(o: Observation, playerId: Id): int {
    if playerId in AllPlaces(o) then AllPlaces(o)[playerId] else 0
  }

  ghost function RoomCells(o: Observation, k: nat): seq<Cell>
    requires k <= |o.prediction.participants|
  {
    if k == 0 then []
    else
      var p := o.prediction.participants[k - 1];
      RoomCells(o, k - 1) + CellsOf(p, PlaceOf(o, p.playerId), |p.placeProbabilities|)
  }

  ghost function CellsOfRoom(o: Observation): seq<Cell> {
    RoomCells(o, |o.prediction.participants|)
  }

  ghost function AllCells(os: seq<Observation>, k: nat): seq<Cell>
    requires k <= |os|
  {
    if k == 0 then [] else AllCells(os, k - 1) + CellsOfRoom(os[k - 1])
  }

  /** The probability given to what happened to a player. */
  function ActualProbability(o: Observation, p: PlacementPrediction): real {
    var place := PlaceOf(o, p.playerId);
    if 1 <= place <= |p.placeProbabilities| then p.placeProbabilities[place - 1] else 0.0
  }

  ghost function RoomLoss(log: real -> real, o: Observation, k: nat): real
    requires k <= |o.prediction.participants|
  {
    if k == 0 then 0.0
    else
      RoomLoss(log, o, k - 1)
      - log(MaxReal(ActualProbability(o, o.prediction.participants[k - 1]), MINIMUM_LOG_PROBABILITY))
  }

  ghost function LossOfRoom(log: real -> real, o: Observation): real {
    RoomLoss(log, o, |o.prediction.participants|)
  }

  ghost function PlayersUpTo(os: seq<Observation>, k: nat): nat
    requires k <= |os|
  {
    if k == 0 then 0 else PlayersUpTo(os, k - 1) + |os[k - 1].prediction.participants|
  }

  // ---------------------------------------------------------------------
  // Tallies
  // ---------------------------------------------------------------------

  ghost predicate Probable(cells: seq<Cell>) {
    forall i :: 0 <= i < |cells| ==> 0.0 <= cells[i].probability <= 1.0 && 0.0 <= cells[i].observed <= 1.0
  }

  function BinIndex(p: real, n: nat): (b: nat)
    requires 0.0 <= p <= 1.0 && n > 0
    ensures b < n
  {
    Min((p * n as real).Floor, n - 1)
  }

  function SquaredError(c: Cell): real {
    Square(c.probability - c.observed)
  }

  function EmptyTally(n: nat): Tally {
    Tally(seq(n, _ => 0), seq(n, _ => 0.0), seq(n, _ => 0.0), 0.0)
  }

  predicate Sized(t: Tally, n: nat) {
    |t.counts| == |t.predicted| == |t.observed| == n
  }

  function AddCell(t: Tally, c: Cell, n: nat): (r: Tally)
    requires Sized(t, n) && n > 0 && 0.0 <= c.probability <= 1.0
    ensures Sized(r, n)
  {
    var b := BinIndex(c.probability, n);
    Tally(
      t.counts[b := t.counts[b] + 1],
      t.predicted[b := t.predicted[b] + c.probability],
      t.observed[b := t.observed[b] + c.observed],
      t.brier + SquaredError(c))
  }

  ghost function TallyOf(cells: seq<Cell>, n: nat): (t: Tally)
    requires Probable(cells) && n > 0
    ensures Sized(t, n)
  {
    if cells == [] then EmptyTally(n)
    else AddCell(TallyOf(cells[..|cells| - 1], n), cells[|cells| - 1], n)
  }

  function BinOf(t: Tally, n: nat, b: nat): Bin
    requires Sized(t, n) && b < n
  {
    var lower, upper := b as real / n as real, (b + 1) as real / n as real;
    if t.counts[b] == 0 then Bin(lower, upper, 0, 0.0, 0.0)
    else
      Bin(lower, upper, t.counts[b],
          t.predicted[b] / t.counts[b] as real, t.observed[b] / t.counts[b] as real)
  }

  function BinsOf(t: Tally, n: nat): (bins: seq<Bin>)
    requires Sized(t, n)
    ensures |bins| == n
  {
    seq(n, b requires 0 <= b < n => BinOf(t, n, b))
  }

  function BinError(bin: Bin, cells: nat): real
    requires cells > 0
  {
    if bin.count == 0 then 0.0
    else bin.count as real / cells as real * Abs(bin.meanPredicted - bin.observedFrequency)
  }

  function CalibrationErrorOf(bins: seq<Bin>, cells: nat, k: nat): real
    requires k <= |bins| && cells > 0
  {
    if k == 0 then 0.0 else CalibrationErrorOf(bins, cells, k - 1) + BinError(bins[k - 1], cells)
  }

  function ReportOf(segment: Segment, rooms: nat, players: nat, t: Tally, loss: real, n: nat): Report
    requires Sized(t, n) && players > 0 && segment.roomSize > 0
  {
    CellsExist(players, segment.roomSize);
    var bins := BinsOf(t, n);
    Report(segment, rooms, players, t.brier / players as real, loss / players as real,
           CalibrationErrorOf(bins, players * segment.roomSize, n), bins)
  }

  lemma CellsExist(players: nat, roomSize: nat)
    requires players > 0 && roomSize > 0
    ensures players * roomSize > 0
  {
  }

  ghost predicate Scorable(os: seq<Observation>, n: int) {
    os != [] && 2 <= n <= 100 && AllAccepted(SegmentOf(os[0]), os, |os|)
  }

  ghost function TotalLoss(log: real -> real, os: seq<Observation>, k: nat): real
    requires k <= |os|
  {
    if k == 0 then 0.0 else TotalLoss(log, os, k - 1) + LossOfRoom(log, os[k - 1])
  }

  /** The report of a homogeneous list of observations. */
  ghost function Calibrated(log: real -> real, os: seq<Observation>, n: int): Result<Report> {
    if !Scorable(os, n) then Err(InvalidInput)
    else
      ScorableCells(os, n);
      Ok(ReportOf(SegmentOf(os[0]), |os|, PlayersUpTo(os, |os|), TallyOf(AllCells(os, |os|), n),
        TotalLoss(log, os, |os|), n))
  }

  // ---------------------------------------------------------------------
  // Cells of accepted observations
  // ---------------------------------------------------------------------

  lemma ProbableAppend(a: seq<Cell>, b: seq<Cell>)
    requires Probable(a) && Probable(b)
    ensures Probable(a + b)
  {
  }

  lemma {:induction false} RoomCellsProbable(o: Observation, roomSize: nat, k: nat)
    requires k <= |o.prediction.participants| && PredictionsAccepted(o, roomSize, k)
    ensures Probable(RoomCells(o, k)) && |RoomCells(o, k)| == k * roomSize
  {
    hide Places, ProbabilitySum, ExpectedPlaceOf;
    if k > 0 {
      RoomCellsProbable(o, roomSize, k - 1);
      var p := o.prediction.participants[k - 1];
      assert PlacementValid(p, roomSize);
      ProbableAppend(RoomCells(o, k - 1), CellsOf(p, PlaceOf(o, p.playerId), |p.placeProbabilities|));
      assert k * roomSize == (k - 1) * roomSize + roomSize;
    }
  }

  lemma AcceptedRoom(segment: Segment, o: Observation)
    requires Accepted(segment, o)
    ensures |o.prediction.participants| == segment.roomSize > 0
    ensures Probable(CellsOfRoom(o)) && |CellsOfRoom(o)| == segment.roomSize * segment.roomSize
  {
    hide Probable, RoomCells, PredictionsAccepted;
    RoomCellsProbable(o, segment.roomSize, segment.roomSize);
  }

  lemma OneRoomMore(rooms: nat, players: nat, size: nat)
    requires rooms > 0 && players == (rooms - 1) * size
    ensures players + size == rooms * size
    ensures players * size + size * size == (players + size) * size
  {
  }

  lemma {:induction false} AllCellsProbable(segment: Segment, os: seq<Observation>, k: nat)
    requires k <= |os| && AllAccepted(segment, os, k)
    ensures Probable(AllCells(os, k)) && PlayersUpTo(os, k) == k * segment.roomSize
    ensures |AllCells(os, k)| == PlayersUpTo(os, k) * segment.roomSize
  {
    hide Probable, CellsOfRoom, Accepted;
    if k > 0 {
      AllCellsProbable(segment, os, k - 1);
      AcceptedRoom(segment, os[k - 1]);
      ProbableAppend(AllCells(os, k - 1), CellsOfRoom(os[k - 1]));
      OneRoomMore(k, PlayersUpTo(os, k - 1), segment.roomSize);
    } else {
      assert Probable([]) by { NoCells(); }
    }
  }

  lemma NoCells()
    ensures Probable([])
  {
  }

  lemma ScorableCells(os: seq<Observation>, n: int)
    requires Scorable(os, n)
    ensures Probable(AllCells(os, |os|)) && n > 0
    ensures PlayersUpTo(os, |os|) > 0 && SegmentOf(os[0]).roomSize > 0
    ensures PlayersUpTo(os, |os|) == |os| * SegmentOf(os[0]).roomSize
    ensures |AllCells(os, |os|)| == PlayersUpTo(os, |os|) * SegmentOf(os[0]).roomSize
  {
    hide Probable, AllCells, PlayersUpTo, PredictionsAccepted;
    AllCellsProbable(SegmentOf(os[0]), os, |os|);
    assert Accepted(SegmentOf(os[0]), os[0]);
    CellsExist(|os|, SegmentOf(os[0]).roomSize);
  }

  // ---------------------------------------------------------------------
  // The scoring loops
  // ---------------------------------------------------------------------

  lemma TallyStep(cells: seq<Cell>, c: Cell, n: nat)
    requires Probable(cells) && n > 0 && 0.0 <= c.probability <= 1.0 && 0.0 <= c.observed <= 1.0
    ensures Probable(cells + [c]) && TallyOf(cells + [c], n) == AddCell(TallyOf(cells, n), c, n)
  {
    assert (cells + [c])[..|cells|] == cells;
    hide AddCell;
  }

  lemma PrefixProbable(a: seq<Cell>, b: seq<Cell>, k: nat)
    requires Probable(a) && Probable(b) && k <= |b|
    ensures Probable(a + b[..k])
  {
  }

  /** The innermost loop, over the places of one player. */
  method ScorePlayer(p: PlacementPrediction, place: int, roomSize: nat, n: nat, tally: Tally, ghost before: seq<Cell>)
    returns (after: Tally)
    requires n > 0 && PlacementValid(p, roomSize) && Probable(before) && tally == TallyOf(before, n)
    ensures var cells := before + CellsOf(p, place, |p.placeProbabilities|);
      Probable(cells) && after == TallyOf(cells, n)
  {
    hide TallyOf, Probable, AddCell, ProbabilitySum, ExpectedPlaceOf;
    ghost var cells := CellsOf(p, place, |p.placeProbabilities|);
    CellsProbable(p, place, roomSize);
    PrefixProbable(before, cells, 0);
    assert before + cells[..0] == before;
    after := tally;
    for i := 0 to |p.placeProbabilities|
      invariant Probable(before + cells[..i]) && after == TallyOf(before + cells[..i], n)
    {
      var observed := if i + 1 == place then 1.0 else 0.0;
      var cell := Cell(p.placeProbabilities[i], observed);
      TallyStep(before + cells[..i], cell, n);
      assert before + cells[..i + 1] == before + cells[..i] + [cell];
      after := AddCell(after, cell, n);
    }
    assert cells[..|cells|] == cells;
  }

  lemma CellsProbable(p: PlacementPrediction, place: int, roomSize: nat)
    requires PlacementValid(p, roomSize)
    ensures Probable(CellsOf(p, place, |p.placeProbabilities|))
  {
    hide ProbabilitySum, ExpectedPlaceOf;
  }

  method CollectPlaces(o: Observation) returns (places: map<Id, int>)
    ensures places == AllPlaces(o)
  {
    places := map[];
    var ps := o.result.participants;
    for k := 0 to |ps|
      invariant places == Places(ps, k)
    {
      places := places[ps[k].playerId := ps[k].place];
    }
  }

  lemma SeenIsIds(ps: seq<PlacementPrediction>)
    ensures (set i | 0 <= i < |ps| :: ps[i].playerId) == PlayerIds(ps)
  {
    forall id ensures id in (set i | 0 <= i < |ps| :: ps[i].playerId) <==> id in PlayerIds(ps) {
      if id in PlayerIds(ps) {
        var p :| p in ps && p.playerId == id;
        var i :| 0 <= i < |ps| && ps[i] == p;
      }
    }
  }

  /** The loop over the players of one room. */
  method ScoreRoom(
      log: real -> real, segment: Segment, o: Observation, n: nat, tally: Tally, loss: real, ghost before: seq<Cell>)
    returns (accepted: bool, after: Tally, totalLoss: real, players: nat)
    requires n > 0 && Probable(before) && tally == TallyOf(before, n)
    ensures accepted == Accepted(segment, o)
    ensures accepted ==> Probable(before + CellsOfRoom(o)) && after == TallyOf(before + CellsOfRoom(o), n)
    ensures accepted ==> totalLoss == loss + LossOfRoom(log, o) && players == |o.prediction.participants|
  {
    hide TallyOf, Probable, PlacementValid, CellsOf, ActualProbability, Places, MatchResult.Valid;
    after, totalLoss, players := tally, loss, 0;
    if !SegmentAccepts(segment, o) {
      return false, after, totalLoss, players;
    }
    var places := CollectPlaces(o);
    var ps := o.prediction.participants;
    var seen: set<Id> := {};
    assert before + RoomCells(o, 0) == before;
    RoomIsPositive(segment, o);
    for k := 0 to |ps|
      invariant PredictionsAccepted(o, segment.roomSize, k)
      invariant seen == set i | 0 <= i < k :: ps[i].playerId
      invariant Probable(before + RoomCells(o, k)) && after == TallyOf(before + RoomCells(o, k), n)
      invariant totalLoss == loss + RoomLoss(log, o, k) && players == k
    {
      var p := ps[k];
      if p.playerId !in places || p.playerId in seen {
        assert !PredictionsAccepted(o, segment.roomSize, |ps|);
        return false, after, totalLoss, players;
      }
      var valid := ValidatePlacementPrediction(p, segment.roomSize);
      if !valid {
        assert !PredictionsAccepted(o, segment.roomSize, |ps|);
        return false, after, totalLoss, players;
      }
      seen := seen + {p.playerId};
      ghost var cells := before + RoomCells(o, k);
      after := ScorePlayer(p, places[p.playerId], segment.roomSize, n, after, cells);
      PlacementSized(p, segment.roomSize);
      assert cells + CellsOf(p, PlaceOf(o, p.playerId), |p.placeProbabilities|) == before + RoomCells(o, k + 1);
      totalLoss := totalLoss - log(MaxReal(ActualProbability(o, p), MINIMUM_LOG_PROBABILITY));
      players := players + 1;
    }
    SeenIsIds(ps);
    if |seen| != |places| {
      return false, after, totalLoss, players;
    }
    accepted := true;
  }

  lemma PlacementSized(p: PlacementPrediction, roomSize: nat)
    requires PlacementValid(p, roomSize)
    ensures |p.placeProbabilities| == roomSize
  {
    hide ProbabilitySum, ExpectedPlaceOf;
  }

  lemma RoomIsPositive(segment: Segment, o: Observation)
    requires SegmentAccepts(segment, o)
    ensures segment.roomSize > 0
  {
  }

  method EvaluateCalibration(log: real -> real, os: seq<Observation>, n: int) returns (r: Result<Report>)
    ensures r == Calibrated(log, os, n)
  {
    hide *;
    if |os| == 0 || n < 2 || n > 100 {
      Unscorable(log, os, n, 0);
      return Err(InvalidInput);
    }
    var segment := SegmentOf(os[0]);
    NoRooms(log, segment, os, n);
    var tally, loss, players := EmptyTally(n), 0.0, 0;
    for k := 0 to |os|
      invariant AllAccepted(segment, os, k)
      invariant Probable(AllCells(os, k)) && tally == TallyOf(AllCells(os, k), n)
      invariant loss == TotalLoss(log, os, k) && players == PlayersUpTo(os, k)
    {
      var accepted, after, totalLoss, more := ScoreRoom(log, segment, os[k], n, tally, loss, AllCells(os, k));
      if !accepted {
        Unscorable(log, os, n, k);
        return Err(InvalidInput);
      }
      OneMoreRoom(log, segment, os, k);
      tally, loss, players := after, totalLoss, players + more;
    }
    CalibratedUnfold(log, os, n);
    r := Ok(ReportOf(segment, |os|, players, tally, loss, n));
  }

  lemma NoRooms(log: real -> real, segment: Segment, os: seq<Observation>, n: nat)
    requires n > 0
    ensures AllAccepted(segment, os, 0) && AllCells(os, 0) == [] && TotalLoss(log, os, 0) == 0.0
      && PlayersUpTo(os, 0) == 0
    ensures Probable([]) && TallyOf([], n) == EmptyTally(n)
  {
  }

  lemma OneMoreRoom(log: real -> real, segment: Segment, os: seq<Observation>, k: nat)
    requires k < |os| && AllAccepted(segment, os, k) && Accepted(segment, os[k])
    ensures AllAccepted(segment, os, k + 1)
    ensures AllCells(os, k + 1) == AllCells(os, k) + CellsOfRoom(os[k])
    ensures TotalLoss(log, os, k + 1) == TotalLoss(log, os, k) + LossOfRoom(log, os[k])
    ensures PlayersUpTo(os, k + 1) == PlayersUpTo(os, k) + |os[k].prediction.participants|
  {
    hide Accepted, CellsOfRoom, LossOfRoom;
  }

  /** An empty list, a bad bin count or one refused observation fails the batch. */
  lemma Unscorable(log: real -> real, os: seq<Observation>, n: int, k: nat)
    requires (|os| == 0 || n < 2 || n > 100) || (k < |os| && !Accepted(SegmentOf(os[0]), os[k]))
    ensures Calibrated(log, os, n) == Err(InvalidInput)
  {
    hide Accepted, ReportOf, TallyOf;
  }

  lemma CalibratedUnfold(log: real -> real, os: seq<Observation>, n: int)
    requires os != [] && 2 <= n <= 100 && AllAccepted(SegmentOf(os[0]), os, |os|)
    ensures Probable(AllCells(os, |os|)) && PlayersUpTo(os, |os|) > 0 && SegmentOf(os[0]).roomSize > 0
    ensures Sized(TallyOf(AllCells(os, |os|), n), n)
    ensures Calibrated(log, os, n) == Ok(ReportOf(
      SegmentOf(os[0]), |os|, PlayersUpTo(os, |os|), TallyOf(AllCells(os, |os|), n), TotalLoss(log, os, |os|), n))
  {
    hide AllAccepted, ReportOf, TallyOf, Probable, AllCells, PlayersUpTo, TotalLoss;
    ScorableCells(os, n);
  }

  lemma ScorableFrom(log: real -> real, os: seq<Observation>, n: int)
    requires Calibrated(log, os, n).Ok?
    ensures Scorable(os, n) && os != [] && 2 <= n <= 100 && AllAccepted(SegmentOf(os[0]), os, |os|)
  {
    hide AllAccepted, ReportOf, TallyOf;
  }

  // ---------------------------------------------------------------------
  // Holdout
  // ---------------------------------------------------------------------

  /** Results by the training cutoff and predictions older than the model are
      refused before anything is scored. */
  ghost predicate HoldoutAccepts(os: seq<Observation>, cutoff: Time, trainedThrough: Time) {
    && cutoff != 0 && trainedThrough != 0 && trainedThrough <= cutoff
    && forall i :: 0 <= i < |os| ==>
      cutoff < os[i].result.availableAt && trainedThrough <= os[i].prediction.generatedAt
  }

  ghost function HoldoutCalibrated(
      log: real -> real, os: seq<Observation>, cutoff: Time, trainedThrough: Time, n: int): Result<Report> {
    if HoldoutAccepts(os, cutoff, trainedThrough) then Calibrated(log, os, n) else Err(InvalidInput)
  }

  method EvaluateHoldoutCalibration(log: real -> real, os: seq<Observation>, cutoff: Time, trainedThrough: Time, n: int)
    returns (r: Result<Report>)
    ensures r == HoldoutCalibrated(log, os, cutoff, trainedThrough, n)
  {
    hide Calibrated;
    if cutoff == 0 || trainedThrough == 0 || trainedThrough > cutoff {
      return Err(InvalidInput);
    }
    for k := 0 to |os|
      invariant forall i :: 0 <= i < k ==>
        cutoff < os[i].result.availableAt && trainedThrough <= os[i].prediction.generatedAt
    {
      if os[k].result.availableAt <= cutoff || os[k].prediction.generatedAt < trainedThrough {
        return Err(InvalidInput);
      }
    }
    r := EvaluateCalibration(log, os, n);
  }
}

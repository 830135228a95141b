/** What the scores of a calibration report mean, in probabilities and places. */
module ScoreLaws {
  import opened Common
  import opened RatingTypes
  import opened Analysis
  import opened Totals
  import opened Calibration
  import opened CalibrationLaws
  import opened ComparisonLaws

  // ---------------------------------------------------------------------
  // Proper scores
  // ---------------------------------------------------------------------

  lemma {:induction false} PlacesAre(ps: seq<ParticipantResult>, k: nat, i: nat)
    requires i < k <= |ps| && forall a, b :: 0 <= a < b < |ps| ==> ps[a].playerId != ps[b].playerId
    ensures ps[i].playerId in Places(ps, k) && Places(ps, k)[ps[i].playerId] == ps[i].place
  {
    if i < k - 1 {
      PlacesAre(ps, k - 1, i);
      assert ps[i].playerId != ps[k - 1].playerId;
    }
  }

  /** A prediction is scored against the place its player took. */
  lemma ScoredByPlace(o: Observation, i: nat)
    requires o.result.Valid() && i < |o.result.participants|
    ensures PlaceOf(o, o.result.participants[i].playerId) == o.result.participants[i].place
  {
    PlacesAre(o.result.participants, |o.result.participants|, i);
  }

  function SumOfSquares(ps: seq<real>, k: nat): real
    requires k <= |ps|
  {
    if k == 0 then 0.0 else SumOfSquares(ps, k - 1) + Square(ps[k - 1])
  }

  lemma CellSquare(p: real, hit: bool)
    ensures SquaredError(Cell(p, if hit then 1.0 else 0.0)) == Square(p) + if hit then 1.0 - 2.0 * p else 0.0
  {
    assert (p - 1.0) * (p - 1.0) == p * p - 2.0 * p + 1.0;
  }

  /** The quadratic score of one player: the squares of all probabilities, less twice
      the one given to the actual place, plus one. */
  lemma {:induction false} PlayerBrier(p: PlacementPrediction, place: int, k: nat)
    requires k <= |p.placeProbabilities|
    ensures SumBy(SquaredError, CellsOf(p, place, k))
      == SumOfSquares(p.placeProbabilities, k)
         + if 1 <= place <= k then 1.0 - 2.0 * p.placeProbabilities[place - 1] else 0.0
  {
    hide SquaredError, Square;
    if k == 0 {
      assert CellsOf(p, place, 0) == [];
    } else {
      PlayerBrier(p, place, k - 1);
      var q := p.placeProbabilities[k - 1];
      var cell := Cell(q, if k == place then 1.0 else 0.0);
      assert CellsOf(p, place, k) == CellsOf(p, place, k - 1) + [cell];
      SumOne(SquaredError, CellsOf(p, place, k - 1), cell);
      CellSquare(q, k == place);
    }
  }

  /** The prediction was certain of what happened. */
  ghost predicate Certain(o: Observation, p: PlacementPrediction) {
    && 1 <= PlaceOf(o, p.playerId) <= |p.placeProbabilities|
    && forall i :: 0 <= i < |p.placeProbabilities| ==>
      p.placeProbabilities[i] == if i + 1 == PlaceOf(o, p.playerId) then 1.0 else 0.0
  }

  lemma {:induction false} CertainSquares(o: Observation, p: PlacementPrediction, k: nat)
    requires Certain(o, p) && k <= |p.placeProbabilities|
    ensures SumOfSquares(p.placeProbabilities, k) == if PlaceOf(o, p.playerId) <= k then 1.0 else 0.0
  {
    hide PlaceOf;
    if k > 0 {
      CertainSquares(o, p, k - 1);
    }
  }

  lemma {:induction false} CertainRoom(log: real -> real, o: Observation, k: nat)
    requires k <= |o.prediction.participants| && log(1.0) == 0.0
    requires forall p :: p in o.prediction.participants ==> Certain(o, p)
    ensures SumBy(SquaredError, RoomCells(o, k)) == 0.0 && RoomLoss(log, o, k) == 0.0
  {
    hide SquaredError, PlaceOf;
    if k > 0 {
      CertainRoom(log, o, k - 1);
      var p := o.prediction.participants[k - 1];
      assert p in o.prediction.participants;
      var n, place := |p.placeProbabilities|, PlaceOf(o, p.playerId);
      PlayerBrier(p, place, n);
      CertainSquares(o, p, n);
      SumAppend(SquaredError, RoomCells(o, k - 1), CellsOf(p, place, n));
      assert ActualProbability(o, p) == 1.0;
    }
  }

  /** Being certain of what happens scores zero, Brier and log loss. */
  lemma CertaintyScoresZero(log: real -> real, o: Observation)
    requires log(1.0) == 0.0 && forall p :: p in o.prediction.participants ==> Certain(o, p)
    ensures RoomBrier(o) == 0.0 && LossOfRoom(log, o) == 0.0
  {
    CertainRoom(log, o, |o.prediction.participants|);
  }

  /** With a logarithm that is negative below one no room has a negative loss, and more
      probability for what happened to one player never costs more. */
  lemma {:induction false} LossNonNegative(log: real -> real, o: Observation, k: nat)
    requires k <= |o.prediction.participants|
    requires forall x: real :: 0.0 < x <= 1.0 ==> log(x) <= 0.0
    requires forall p :: p in o.prediction.participants ==>
      forall i :: 0 <= i < |p.placeProbabilities| ==> p.placeProbabilities[i] <= 1.0
    ensures RoomLoss(log, o, k) >= 0.0
    ensures k > 0 ==>
      RoomLoss(log, o, k) - RoomLoss(log, o, k - 1)
      == -log(MaxReal(ActualProbability(o, o.prediction.participants[k - 1]), MINIMUM_LOG_PROBABILITY))
  {
    hide PlaceOf;
    if k > 0 {
      LossNonNegative(log, o, k - 1);
      assert o.prediction.participants[k - 1] in o.prediction.participants;
    }
  }

  // ---------------------------------------------------------------------
  // Bins
  // ---------------------------------------------------------------------

  /** The probability belongs to the bin: bins are half open, and the last is closed. */
  predicate InBin(p: real, n: nat, b: nat) {
    b as real <= p * n as real < (b + 1) as real || (p == 1.0 && b + 1 == n)
  }

  lemma BinIndexIs(p: real, n: nat, b: nat)
    requires 0.0 <= p <= 1.0 && n > 0 && b < n
    ensures BinIndex(p, n) == b <==> InBin(p, n, b)
  {
    BinIndexBounds(p, n);
    var size := n as real;
    var x := p * size;
    NonNegativeProduct(p, size);
    assert x.Floor as real <= x < x.Floor as real + 1.0;
    if p == 1.0 {
      assert x == size;
    } else {
      PositiveProduct(1.0 - p, size);
      assert (1.0 - p) * size == size - x;
    }
  }

  function PredictedIn(n: nat, b: nat): Cell -> real {
    (c: Cell) => if InBin(c.probability, n, b) then c.probability else 0.0
  }

  function ObservedInBin(n: nat, b: nat): Cell -> real {
    (c: Cell) => if InBin(c.probability, n, b) then c.observed else 0.0
  }

  function OneIn(n: nat, b: nat): Cell -> real {
    (c: Cell) => if InBin(c.probability, n, b) then 1.0 else 0.0
  }

  /** A bin counts the cells that belong to it and sums their probabilities and what was
      observed. */
  lemma {:induction false} BinsAre(cells: seq<Cell>, n: nat, b: nat)
    requires Probable(cells) && n > 0 && b < n
    ensures var t := TallyOf(cells, n);
      && t.counts[b] as real == SumBy(OneIn(n, b), cells)
      && t.predicted[b] == SumBy(PredictedIn(n, b), cells)
      && t.observed[b] == SumBy(ObservedInBin(n, b), cells)
  {
    if cells == [] {
      assert SumBy(OneIn(n, b), cells) == 0.0;
    } else {
      var front, c := cells[..|cells| - 1], cells[|cells| - 1];
      assert cells == front + [c];
      BinsAre(front, n, b);
      BinIndexIs(c.probability, n, b);
      hide BinIndex, InBin, SquaredError;
      SumOne(OneIn(n, b), front, c);
      SumOne(PredictedIn(n, b), front, c);
      SumOne(ObservedInBin(n, b), front, c);
    }
  }

  function Distances(t: Tally, n: nat, k: nat): real
    requires Sized(t, n) && k <= n
  {
    if k == 0 then 0.0 else Distances(t, n, k - 1) + Abs(t.predicted[k - 1] - t.observed[k - 1])
  }

  lemma ErrorOfBin(t: Tally, n: nat, b: nat, cells: nat)
    requires Sized(t, n) && b < n && cells > 0 && BinKept(t, n, b)
    ensures BinError(BinOf(t, n, b), cells) * cells as real == Abs(t.predicted[b] - t.observed[b])
  {
    if t.counts[b] > 0 {
      WeightedGap(t.counts[b] as real, t.predicted[b], t.observed[b], cells as real);
    }
  }

  lemma WeightedGap(count: real, predicted: real, observed: real, cells: real)
    requires count > 0.0 && cells > 0.0
    ensures count / cells * Abs(predicted / count - observed / count) * cells == Abs(predicted - observed)
  {
    var share, p, o := count / cells, predicted / count, observed / count;
    assert share * cells == count && p * count == predicted && o * count == observed;
    assert (p - o) * count == predicted - observed;
    var gap := Abs(p - o);
    assert share * gap * cells == (share * cells) * gap;
    if p >= o {
      NonNegativeProduct(p - o, count);
    } else {
      PositiveProduct(o - p, count);
      assert (o - p) * count == observed - predicted;
    }
  }

  /** The calibration error, times the number of cells, is how far the predicted sums are
      from the observed ones, bin by bin. */
  lemma {:induction false} ErrorIsDistance(t: Tally, n: nat, cells: nat, k: nat)
    requires Sized(t, n) && cells > 0 && k <= n && forall b :: 0 <= b < n ==> BinKept(t, n, b)
    ensures CalibrationErrorOf(BinsOf(t, n), cells, k) * cells as real == Distances(t, n, k)
  {
    hide BinKept, BinError, BinOf;
    if k > 0 {
      ErrorIsDistance(t, n, cells, k - 1);
      ErrorOfBin(t, n, k - 1, cells);
      DistributesOver(
        CalibrationErrorOf(BinsOf(t, n), cells, k - 1), BinError(BinsOf(t, n)[k - 1], cells), cells as real);
    }
  }

  lemma ReportFields(segment: Segment, rooms: nat, players: nat, t: Tally, loss: real, n: nat, b: nat)
    requires Sized(t, n) && players > 0 && segment.roomSize > 0 && b < n
    ensures players * segment.roomSize > 0
    ensures var r := ReportOf(segment, rooms, players, t, loss, n);
      && r.players == players && r.segment == segment && |r.bins| == n
      && r.calibrationError == CalibrationErrorOf(BinsOf(t, n), players * segment.roomSize, n)
      && r.bins[b].count == t.counts[b]
      && (r.bins[b].count > 0 ==>
        && r.bins[b].meanPredicted * r.bins[b].count as real == t.predicted[b]
        && r.bins[b].observedFrequency * r.bins[b].count as real == t.observed[b])
  {
    hide CalibrationErrorOf;
    CellsExist(players, segment.roomSize);
    if t.counts[b] > 0 {
      TimesBack(t.predicted[b], t.counts[b] as real);
      TimesBack(t.observed[b], t.counts[b] as real);
    }
  }

  /** What a calibration report says about its bins: the counts, mean predictions and
      observed frequencies of the cells in them, and an error that is the average
      distance of predictions from observations. */
  lemma ReportMeaning(log: real -> real, os: seq<Observation>, n: int, b: nat)
    requires Calibrated(log, os, n).Ok? && b < n
    ensures Probable(AllCells(os, |os|)) && n > 0
    ensures var r, cells := Calibrated(log, os, n).value, AllCells(os, |os|);
      && |cells| == r.players * r.segment.roomSize > 0 && |r.bins| == n
      && Sized(TallyOf(cells, n), n)
      && r.calibrationError * |cells| as real == Distances(TallyOf(cells, n), n, n)
      && r.bins[b].count as real == SumBy(OneIn(n, b), cells)
      && (r.bins[b].count > 0 ==>
        && r.bins[b].meanPredicted * r.bins[b].count as real == SumBy(PredictedIn(n, b), cells)
        && r.bins[b].observedFrequency * r.bins[b].count as real == SumBy(ObservedInBin(n, b), cells))
  {
    hide *;
    ScorableFrom(log, os, n);
    CalibratedUnfold(log, os, n);
    ScorableCells(os, n);
    var segment, cells, players := SegmentOf(os[0]), AllCells(os, |os|), PlayersUpTo(os, |os|);
    var t := TallyOf(cells, n);
    TallyIsKept(cells, n);
    AllKept(t, n, cells);
    BinsAre(cells, n, b);
    ReportFields(segment, |os|, players, t, TotalLoss(log, os, |os|), n, b);
    ErrorIsDistance(t, n, players * segment.roomSize, n);
  }

  lemma AllKept(t: Tally, n: nat, cells: seq<Cell>)
    requires Sized(t, n) && TallyKept(t, n, cells)
    ensures forall b :: 0 <= b < n ==> BinKept(t, n, b)
  {
    hide BinKept;
  }
}

/** What a calibration report conserves, and how far its scores can go. */
module CalibrationLaws {
  import opened Common
  import opened RatingTypes
  import opened Analysis
  import opened Totals
  import opened Calibration

  // ---------------------------------------------------------------------
  // Updating one entry of a list
  // ---------------------------------------------------------------------

  function Count(c: nat): real {
    c as real
  }

  lemma {:induction false} SumUpdate<T>(f: T -> real, s: seq<T>, i: nat, x: T)
    requires i < |s|
    ensures SumBy(f, s[i := x]) == SumBy(f, s) - f(s[i]) + f(x)
    decreases |s|
  {
    var last := |s| - 1;
    if i == last {
      assert s[i := x][..last] == s[..last];
    } else {
      SumUpdate(f, s[..last], i, x);
      assert s[i := x][..last] == s[..last][i := x];
    }
  }

  lemma {:induction false} SumOfZeros<T>(f: T -> real, s: seq<T>)
    requires forall x :: x in s ==> f(x) == 0.0
    ensures SumBy(f, s) == 0.0
  {
    if s != [] {
      SumOfZeros(f, s[..|s| - 1]);
      assert s[|s| - 1] in s;
    }
  }

  // ---------------------------------------------------------------------
  // What a tally keeps
  // ---------------------------------------------------------------------

  function ObservedIn(c: Cell): real {
    c.observed
  }

  /** Everything put into a bin lies between its bounds. */
  ghost predicate BinKept(t: Tally, n: nat, b: nat)
    requires Sized(t, n) && b < n
  {
    Between(b, n, t.counts[b] as real, t.predicted[b], t.observed[b])
  }

  ghost predicate Between(b: nat, n: nat, count: real, predicted: real, observed: real) {
    && b as real * count <= predicted * n as real <= (b + 1) as real * count
    && 0.0 <= predicted <= count && 0.0 <= observed <= count
  }

  ghost predicate TallyKept(t: Tally, n: nat, cells: seq<Cell>)
    requires Sized(t, n)
  {
    && SumBy(Count, t.counts) == |cells| as real
    && SumBy(Number, t.observed) == SumBy(ObservedIn, cells)
    && t.brier == SumBy(SquaredError, cells)
    && forall b :: 0 <= b < n ==> BinKept(t, n, b)
  }

  lemma BinIndexBounds(p: real, n: nat)
    requires 0.0 <= p <= 1.0 && n > 0
    ensures BinIndex(p, n) as real <= p * n as real <= (BinIndex(p, n) + 1) as real
  {
    var size := n as real;
    var x := p * size;
    NonNegativeProduct(1.0 - p, size);
    NonNegativeProduct(p, size);
    assert (1.0 - p) * size == size - x;
    assert x.Floor as real <= x < x.Floor as real + 1.0;
  }

  lemma BinGrows(b: nat, n: nat, count: real, predicted: real, observed: real, c: Cell)
    requires Between(b, n, count, predicted, observed)
    requires 0.0 <= c.probability <= 1.0 && 0.0 <= c.observed <= 1.0
    requires b as real <= c.probability * n as real <= (b + 1) as real
    ensures Between(b, n, count + 1.0, predicted + c.probability, observed + c.observed)
  {
    var low, high, size := b as real, (b + 1) as real, n as real;
    assert low * (count + 1.0) == low * count + low;
    assert high * (count + 1.0) == high * count + high;
    assert (predicted + c.probability) * size == predicted * size + c.probability * size;
  }

  lemma AddKeepsBin(t: Tally, n: nat, c: Cell, b: nat)
    requires Sized(t, n) && b < n && 0.0 <= c.probability <= 1.0 && 0.0 <= c.observed <= 1.0
    requires BinKept(t, n, b)
    ensures BinKept(AddCell(t, c, n), n, b)
  {
    hide SquaredError, BinIndex, Between;
    if b == BinIndex(c.probability, n) {
      BinIndexBounds(c.probability, n);
      BinGrows(b, n, t.counts[b] as real, t.predicted[b], t.observed[b], c);
    }
  }

  lemma AddKeepsTally(t: Tally, n: nat, cells: seq<Cell>, c: Cell)
    requires Sized(t, n) && n > 0 && 0.0 <= c.probability <= 1.0 && 0.0 <= c.observed <= 1.0
    requires TallyKept(t, n, cells)
    ensures TallyKept(AddCell(t, c, n), n, cells + [c])
  {
    var at := BinIndex(c.probability, n);
    forall b | 0 <= b < n ensures BinKept(AddCell(t, c, n), n, b) {
      AddKeepsBin(t, n, c, b);
    }
    hide SumBy, BinKept, BinIndex, SquaredError;
    SumUpdate(Count, t.counts, at, t.counts[at] + 1);
    SumUpdate(Number, t.observed, at, t.observed[at] + c.observed);
    SumOne(ObservedIn, cells, c);
    SumOne(SquaredError, cells, c);
  }

  lemma EmptyKept(n: nat)
    requires n > 0
    ensures TallyKept(EmptyTally(n), n, [])
  {
    SumOfZeros(Count, EmptyTally(n).counts);
    SumOfZeros(Number, EmptyTally(n).observed);
  }

  lemma {:induction false} TallyIsKept(cells: seq<Cell>, n: nat)
    requires Probable(cells) && n > 0
    ensures TallyKept(TallyOf(cells, n), n, cells)
  {
    hide TallyKept, AddCell, EmptyTally;
    if cells == [] {
      EmptyKept(n);
    } else {
      var front, last := cells[..|cells| - 1], cells[|cells| - 1];
      TallyIsKept(front, n);
      AddKeepsTally(TallyOf(front, n), n, front, last);
      assert cells == front + [last];
    }
  }

  // ---------------------------------------------------------------------
  // The cells of one player and one room
  // ---------------------------------------------------------------------

  lemma CellErrors(p: real)
    requires 0.0 <= p <= 1.0
    ensures Square(p - 0.0) <= p && Square(p - 1.0) <= 1.0
  {
    var q := 1.0 - p;
    assert p * p + p * q == p;
    NonNegativeProduct(p, q);
    assert Square(p - 1.0) == 1.0 - p - p + p * p;
  }

  /** Exactly one place happened, and the squared errors stay below two. */
  lemma {:induction false} PlayerCells(p: PlacementPrediction, place: int, roomSize: nat, k: nat)
    requires PlacementValid(p, roomSize) && k <= roomSize
    ensures SumBy(ObservedIn, CellsOf(p, place, k)) == if 1 <= place <= k then 1.0 else 0.0
    ensures 0.0 <= SumBy(SquaredError, CellsOf(p, place, k))
      <= ProbabilitySum(p.placeProbabilities, k) + (if 1 <= place <= k then 1.0 else 0.0)
  {
    hide Square, SumBy, ExpectedPlaceOf;
    if k == 0 {
      assert CellsOf(p, place, k) == [];
      NoSums();
    } else {
      PlayerCells(p, place, roomSize, k - 1);
      var observed := if k == place then 1.0 else 0.0;
      var cell := Cell(p.placeProbabilities[k - 1], observed);
      assert CellsOf(p, place, k) == CellsOf(p, place, k - 1) + [cell];
      SumOne(ObservedIn, CellsOf(p, place, k - 1), cell);
      SumOne(SquaredError, CellsOf(p, place, k - 1), cell);
      CellErrors(p.placeProbabilities[k - 1]);
    }
  }

  lemma NoSums()
    ensures SumBy(ObservedIn, []) == 0.0 && SumBy(SquaredError, []) == 0.0
  {
  }

  lemma {:induction false} PlacesInRange(ps: seq<ParticipantResult>, k: nat, playerId: Id)
    requires k <= |ps| && playerId in Places(ps, k)
    ensures exists i :: 0 <= i < k && ps[i].place == Places(ps, k)[playerId]
  {
    if k > 0 {
      if ps[k - 1].playerId != playerId {
        PlacesInRange(ps, k - 1, playerId);
      } else {
        assert ps[k - 1].place == Places(ps, k)[playerId];
      }
    }
  }

  lemma PlaceValid(o: Observation, playerId: Id)
    requires o.result.Valid() && playerId in AllPlaces(o)
    ensures 1 <= PlaceOf(o, playerId) <= |o.result.participants|
  {
    PlacesInRange(o.result.participants, |o.result.participants|, playerId);
    hide Places;
    var i :| 0 <= i < |o.result.participants| && o.result.participants[i].place == PlaceOf(o, playerId);
    assert o.result.participants[i] in o.result.participants;
  }

  const WORST_BRIER := 2.0 + PREDICTION_TOLERANCE

  lemma {:induction false} RoomSums(o: Observation, roomSize: nat, k: nat)
    requires k <= |o.prediction.participants| && PredictionsAccepted(o, roomSize, k)
    requires o.result.Valid() && |o.result.participants| == roomSize
    ensures SumBy(ObservedIn, RoomCells(o, k)) == k as real
    ensures 0.0 <= SumBy(SquaredError, RoomCells(o, k)) <= k as real * WORST_BRIER
  {
    hide SumBy, MatchResult.Valid, Places, ProbabilitySum, ExpectedPlaceOf, PlaceOf, CellsOf;
    if k == 0 {
      NoSums();
    } else {
      RoomSums(o, roomSize, k - 1);
      var p := o.prediction.participants[k - 1];
      assert p.playerId in AllPlaces(o) && PlacementValid(p, roomSize);
      PlaceValid(o, p.playerId);
      var cells := CellsOf(p, PlaceOf(o, p.playerId), roomSize);
      PlayerCells(p, PlaceOf(o, p.playerId), roomSize, roomSize);
      SumAppend(ObservedIn, RoomCells(o, k - 1), cells);
      SumAppend(SquaredError, RoomCells(o, k - 1), cells);
      assert k as real * WORST_BRIER == (k - 1) as real * WORST_BRIER + WORST_BRIER;
    }
  }

  lemma AcceptedSums(segment: Segment, o: Observation)
    requires Accepted(segment, o)
    ensures var players := |o.prediction.participants| as real;
      && SumBy(ObservedIn, CellsOfRoom(o)) == players
      && 0.0 <= SumBy(SquaredError, CellsOfRoom(o)) <= players * WORST_BRIER
  {
    hide SumBy, MatchResult.Valid, PredictionsAccepted, RoomCells;
    RoomSums(o, segment.roomSize, segment.roomSize);
  }

  lemma {:induction false} AllSums(segment: Segment, os: seq<Observation>, k: nat)
    requires k <= |os| && AllAccepted(segment, os, k)
    ensures SumBy(ObservedIn, AllCells(os, k)) == PlayersUpTo(os, k) as real
    ensures 0.0 <= SumBy(SquaredError, AllCells(os, k)) <= PlayersUpTo(os, k) as real * WORST_BRIER
  {
    hide SumBy, CellsOfRoom, Accepted;
    if k == 0 {
      NoSums();
    } else {
      AllSums(segment, os, k - 1);
      AcceptedSums(segment, os[k - 1]);
      SumAppend(ObservedIn, AllCells(os, k - 1), CellsOfRoom(os[k - 1]));
      SumAppend(SquaredError, AllCells(os, k - 1), CellsOfRoom(os[k - 1]));
      Distributes(PlayersUpTo(os, k - 1) as real, |os[k - 1].prediction.participants| as real);
    }
  }

  lemma Distributes(a: real, b: real)
    ensures (a + b) * WORST_BRIER == a * WORST_BRIER + b * WORST_BRIER
  {
  }

  // ---------------------------------------------------------------------
  // The report
  // ---------------------------------------------------------------------

  function BinCount(bin: Bin): real {
    bin.count as real
  }

  function BinObserved(bin: Bin): real {
    bin.count as real * bin.observedFrequency
  }

  lemma QuotientBetween(x: real, low: real, high: real, d: real)
    requires d > 0.0 && low * d <= x <= high * d
    ensures low <= x / d <= high && d * (x / d) == x
  {
    var q := x / d;
    assert q * d == x;
    CancelFactor(low, q, d);
    CancelFactor(q, high, d);
  }

  ghost predicate BinSound(bin: Bin) {
    && (bin.count > 0 ==> bin.lowerBound <= bin.meanPredicted <= bin.upperBound)
    && 0.0 <= bin.meanPredicted <= 1.0 && 0.0 <= bin.observedFrequency <= 1.0
  }

  lemma BinIsSound(t: Tally, n: nat, b: nat)
    requires Sized(t, n) && b < n && BinKept(t, n, b)
    ensures BinSound(BinOf(t, n, b)) && BinObserved(BinOf(t, n, b)) == t.observed[b]
  {
    var count := t.counts[b] as real;
    if t.counts[b] > 0 {
      QuotientBetween(t.predicted[b], 0.0, 1.0, count);
      QuotientBetween(t.observed[b], 0.0, 1.0, count);
      ScaledBetween(t.predicted[b] / count, b as real, (b + 1) as real, n as real, count, t.predicted[b]);
    }
  }

  lemma ScaledBetween(mean: real, low: real, high: real, size: real, count: real, predicted: real)
    requires count > 0.0 && size > 0.0 && mean * count == predicted
    requires low * count <= predicted * size <= high * count
    ensures low / size <= mean <= high / size
  {
    var scaled := mean * size;
    assert scaled * count == predicted * size;
    CancelFactor(low, scaled, count);
    CancelFactor(scaled, high, count);
    var from, to := low / size, high / size;
    assert from * size == low && to * size == high;
    CancelFactor(from, mean, size);
    CancelFactor(mean, to, size);
  }

  lemma {:induction false} BinsMatch(t: Tally, n: nat, k: nat)
    requires Sized(t, n) && k <= n && forall b :: 0 <= b < n ==> BinKept(t, n, b)
    ensures SumBy(BinCount, BinsOf(t, n)[..k]) == SumBy(Count, t.counts[..k])
    ensures SumBy(BinObserved, BinsOf(t, n)[..k]) == SumBy(Number, t.observed[..k])
  {
    hide BinKept, SumBy;
    if k == 0 {
      NoBins();
    } else {
      BinsMatch(t, n, k - 1);
      BinIsSound(t, n, k - 1);
      var bin := BinOf(t, n, k - 1);
      assert BinsOf(t, n)[..k] == BinsOf(t, n)[..k - 1] + [bin];
      assert t.counts[..k] == t.counts[..k - 1] + [t.counts[k - 1]];
      assert t.observed[..k] == t.observed[..k - 1] + [t.observed[k - 1]];
      SumOne(BinCount, BinsOf(t, n)[..k - 1], bin);
      SumOne(BinObserved, BinsOf(t, n)[..k - 1], bin);
      SumOne(Count, t.counts[..k - 1], t.counts[k - 1]);
      SumOne(Number, t.observed[..k - 1], t.observed[k - 1]);
    }
  }

  lemma NoBins()
    ensures SumBy(BinCount, []) == SumBy(BinObserved, []) == SumBy(Count, []) == SumBy(Number, []) == 0.0
  {
  }

  lemma BinErrorBounds(bin: Bin, cells: nat)
    requires BinSound(bin) && cells > 0
    ensures 0.0 <= BinError(bin, cells) && BinError(bin, cells) * cells as real <= BinCount(bin)
  {
    if bin.count > 0 {
      var gap, count, size := Abs(bin.meanPredicted - bin.observedFrequency), bin.count as real, cells as real;
      ShareBounds(count, size, gap);
    }
  }

  lemma ShareBounds(count: real, size: real, gap: real)
    requires count > 0.0 && size > 0.0 && 0.0 <= gap <= 1.0
    ensures 0.0 <= count / size * gap && count / size * gap * size <= count
  {
    QuotientBetween(count, count / size, count / size, size);
    var share := count / size;
    assert share > 0.0 by {
      assert share <= 0.0 ==> share * size <= 0.0;
    }
    assert share * gap >= 0.0;
    assert share * gap * size == count * gap;
    assert count * (1.0 - gap) >= 0.0;
  }

  lemma {:induction false} ErrorBounds(bins: seq<Bin>, cells: nat, k: nat)
    requires k <= |bins| && cells > 0 && forall b :: 0 <= b < |bins| ==> BinSound(bins[b])
    ensures 0.0 <= CalibrationErrorOf(bins, cells, k)
    ensures CalibrationErrorOf(bins, cells, k) * cells as real <= SumBy(BinCount, bins[..k])
  {
    hide SumBy, BinError, BinSound;
    if k == 0 {
      NoBins();
    } else {
      ErrorBounds(bins, cells, k - 1);
      BinErrorBounds(bins[k - 1], cells);
      assert bins[..k] == bins[..k - 1] + [bins[k - 1]];
      SumOne(BinCount, bins[..k - 1], bins[k - 1]);
      DistributesOver(CalibrationErrorOf(bins, cells, k - 1), BinError(bins[k - 1], cells), cells as real);
    }
  }

  lemma DistributesOver(a: real, b: real, c: real)
    ensures (a + b) * c == a * c + b * c
  {
  }

  lemma TallyParts(t: Tally, n: nat, cells: seq<Cell>)
    requires Sized(t, n) && TallyKept(t, n, cells)
    ensures var bins := BinsOf(t, n);
      && (forall b :: 0 <= b < n ==> BinSound(bins[b]))
      && SumBy(BinCount, bins) == |cells| as real
      && SumBy(BinObserved, bins) == SumBy(ObservedIn, cells)
  {
    hide SumBy, BinKept, BinSound, BinOf;
    BinsMatch(t, n, n);
    assert BinsOf(t, n)[..n] == BinsOf(t, n) && t.counts[..n] == t.counts && t.observed[..n] == t.observed;
    forall b | 0 <= b < n ensures BinSound(BinsOf(t, n)[b]) {
      BinIsSound(t, n, b);
    }
  }

  /** A report conserves its cells: the bins hold every player and place once, the
      observed frequencies add up to one place for each player, every non-empty
      bin predicts between its bounds, and the scores stay in their ranges. */
  lemma CalibrationConserves(log: real -> real, os: seq<Observation>, n: int)
    requires Calibrated(log, os, n).Ok?
    ensures var r := Calibrated(log, os, n).value;
      && r.rooms == |os| && r.players == r.rooms * r.segment.roomSize
      && SumBy(BinCount, r.bins) == (r.players * r.segment.roomSize) as real
      && SumBy(BinObserved, r.bins) == r.players as real
      && (forall b :: 0 <= b < |r.bins| ==> BinSound(r.bins[b]))
      && 0.0 <= r.calibrationError <= 1.0
      && 0.0 <= r.brierScore <= WORST_BRIER
  {
    hide *;
    ScorableFrom(log, os, n);
    CalibratedUnfold(log, os, n);
    ScorableCells(os, n);
    var segment, cells, players := SegmentOf(os[0]), AllCells(os, |os|), PlayersUpTo(os, |os|);
    AllSums(segment, os, |os|);
    ReportKept(segment, |os|, cells, players, TotalLoss(log, os, |os|), n);
  }

  lemma ReportKept(segment: Segment, rooms: nat, cells: seq<Cell>, players: nat, loss: real, n: nat)
    requires Probable(cells) && n > 0 && players > 0 && segment.roomSize > 0
    requires |cells| == players * segment.roomSize
    requires SumBy(ObservedIn, cells) == players as real
    requires 0.0 <= SumBy(SquaredError, cells) <= players as real * WORST_BRIER
    ensures Sized(TallyOf(cells, n), n)
    ensures var r := ReportOf(segment, rooms, players, TallyOf(cells, n), loss, n);
      && r.segment == segment && r.rooms == rooms && r.players == players
      && SumBy(BinCount, r.bins) == |cells| as real
      && SumBy(BinObserved, r.bins) == players as real
      && (forall b :: 0 <= b < |r.bins| ==> BinSound(r.bins[b]))
      && 0.0 <= r.calibrationError <= 1.0
      && 0.0 <= r.brierScore <= WORST_BRIER
  {
    hide SumBy, TallyOf, Probable, BinSound, BinsOf, TallyKept, CalibrationErrorOf, SquaredError;
    var t := TallyOf(cells, n);
    TallyIsKept(cells, n);
    TallyBrier(t, n, cells);
    TallyParts(t, n, cells);
    var bins := BinsOf(t, n);
    ErrorAtMostOne(bins, |cells|);
    QuotientBetween(t.brier, 0.0, WORST_BRIER, players as real);
  }

  lemma ErrorAtMostOne(bins: seq<Bin>, cells: nat)
    requires cells > 0 && forall b :: 0 <= b < |bins| ==> BinSound(bins[b])
    requires SumBy(BinCount, bins) == cells as real
    ensures 0.0 <= CalibrationErrorOf(bins, cells, |bins|) <= 1.0
  {
    hide *;
    ErrorBounds(bins, cells, |bins|);
    assert bins[..|bins|] == bins;
    CancelFactor(CalibrationErrorOf(bins, cells, |bins|), 1.0, cells as real);
  }

  lemma TallyBrier(t: Tally, n: nat, cells: seq<Cell>)
    requires Sized(t, n) && TallyKept(t, n, cells)
    ensures t.brier == SumBy(SquaredError, cells)
  {
  }
}

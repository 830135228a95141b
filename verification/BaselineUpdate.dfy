/** The baseline's pairwise rating update. */
module BaselineUpdate {
  import opened Common
  import opened RatingTypes
  import opened Analysis
  import opened BaselineModel
  import opened Canonical

  const MAX_UINT64: nat := 0xFFFF_FFFF_FFFF_FFFF

  datatype RatingUpdate = RatingUpdate(
    playerId: Id,
    sourceEventId: Id,
    modelVersion: Id,
    before: Estimate,
    after: Estimate,
    processedAt: Time)

  /** One participant with the rating held before the game. */
  datatype Entry = Entry(playerId: Id, place: int, before: Estimate)

  // ---------------------------------------------------------------------
  // One pair
  // ---------------------------------------------------------------------

  function ComparisonScale(model: Baseline, left: Estimate, right: Estimate): real {
    model.math.Hypot(
      model.math.Hypot(left.uncertainty, right.uncertainty),
      model.math.Hypot(model.Deviation(left), model.Deviation(right)))
  }

  function PairwiseOutcome(place: int, opponentPlace: int): real {
    if place < opponentPlace then 1.0 else if place > opponentPlace then 0.0 else 0.5
  }

  lemma ScaleLaws(model: Baseline, a: Estimate, b: Estimate)
    requires model.Valid() && model.Accepts(a) && model.Accepts(b)
    ensures ComparisonScale(model, a, b) > 0.0
    ensures ComparisonScale(model, a, b) == ComparisonScale(model, b, a)
  {
    HypotLaws(model.math, a.uncertainty, b.uncertainty);
    HypotLaws(model.math, model.Deviation(a), model.Deviation(b));
    var skill := model.math.Hypot(a.uncertainty, b.uncertainty);
    var performance := model.math.Hypot(model.Deviation(a), model.Deviation(b));
    HypotLaws(model.math, skill, performance);
    hide Functions.Hypot;
  }

  function Ratio(x: real, d: real): real
    requires d > 0.0
  {
    x / d
  }

  /** The model's probability that `a` finishes ahead of `b`. */
  function Ahead(model: Baseline, a: Estimate, b: Estimate): real
    requires ComparisonScale(model, a, b) > 0.0
    requires var v := Ratio(a.mean - b.mean, ComparisonScale(model, a, b));
      1.0 + model.math.exp(-v) != 0.0 && 1.0 + model.math.exp(v) != 0.0
  {
    model.math.Logistic(Ratio(a.mean - b.mean, ComparisonScale(model, a, b)))
  }

  ghost predicate Comparable(model: Baseline, a: Estimate, b: Estimate) {
    model.Valid() && model.Accepts(a) && model.Accepts(b)
  }

  /** The probabilities of the two views of a pair are complementary. */
  lemma AheadLaws(model: Baseline, a: Estimate, b: Estimate)
    requires Comparable(model, a, b)
    ensures ComparisonScale(model, a, b) == ComparisonScale(model, b, a) > 0.0
    ensures var v := Ratio(a.mean - b.mean, ComparisonScale(model, a, b));
      1.0 + model.math.exp(-v) > 0.0 && 1.0 + model.math.exp(v) > 0.0
    ensures var v := Ratio(b.mean - a.mean, ComparisonScale(model, b, a));
      1.0 + model.math.exp(-v) > 0.0 && 1.0 + model.math.exp(v) > 0.0
    ensures 0.0 < Ahead(model, a, b) < 1.0
    ensures Ahead(model, a, b) + Ahead(model, b, a) == 1.0
  {
    ScaleLaws(model, a, b);
    var scale := ComparisonScale(model, a, b);
    RatioOpposite(a.mean - b.mean, scale);
    assert b.mean - a.mean == -(a.mean - b.mean);
    hide ComparisonScale, Ratio;
    LogisticComplement(model.math, Ratio(a.mean - b.mean, scale));
    LogisticComplement(model.math, Ratio(b.mean - a.mean, scale));
  }

  lemma RatioPositive(x: real, d: real)
    requires x > 0.0 && d > 0.0
    ensures Ratio(x, d) > 0.0
  {
  }

  lemma RatioOpposite(x: real, d: real)
    requires d > 0.0
    ensures Ratio(-x, d) == -Ratio(x, d)
  {
  }

  ghost function GradientTerm(model: Baseline, x: Entry, y: Entry): real
    requires Comparable(model, x.before, y.before)
  {
    AheadLaws(model, x.before, y.before);
    Ratio(PairwiseOutcome(x.place, y.place) - Ahead(model, x.before, y.before),
      ComparisonScale(model, x.before, y.before))
  }

  ghost function InformationTerm(model: Baseline, x: Entry, y: Entry): (information: real)
    requires Comparable(model, x.before, y.before)
    ensures information > 0.0
  {
    AheadLaws(model, x.before, y.before);
    Fisher(Ahead(model, x.before, y.before), ComparisonScale(model, x.before, y.before))
  }

  function Fisher(p: real, scale: real): (information: real)
    requires 0.0 < p < 1.0 && scale > 0.0
    ensures information > 0.0
  {
    PositiveProduct(p, 1.0 - p);
    RatioPositive(p * (1.0 - p), Square(scale));
    Ratio(p * (1.0 - p), Square(scale))
  }

  lemma TermsUnfold(model: Baseline, x: Entry, y: Entry)
    requires Comparable(model, x.before, y.before)
    ensures ComparisonScale(model, x.before, y.before) > 0.0
    ensures var v := Ratio(x.before.mean - y.before.mean, ComparisonScale(model, x.before, y.before));
      1.0 + model.math.exp(-v) > 0.0 && 1.0 + model.math.exp(v) > 0.0
    ensures 0.0 < Ahead(model, x.before, y.before) < 1.0
    ensures GradientTerm(model, x, y)
      == Ratio(PairwiseOutcome(x.place, y.place) - Ahead(model, x.before, y.before),
        ComparisonScale(model, x.before, y.before))
    ensures InformationTerm(model, x, y)
      == Fisher(Ahead(model, x.before, y.before), ComparisonScale(model, x.before, y.before))
  {
    AheadLaws(model, x.before, y.before);
    hide Ahead, ComparisonScale, Ratio, Fisher, PairwiseOutcome;
  }

  /** What one side of a pair gains, the other loses; both sides carry the same
      information. */
  lemma PairBalances(model: Baseline, x: Entry, y: Entry)
    requires Comparable(model, x.before, y.before)
    ensures GradientTerm(model, x, y) == -GradientTerm(model, y, x)
    ensures InformationTerm(model, x, y) == InformationTerm(model, y, x)
  {
    AheadLaws(model, x.before, y.before);
    AheadLaws(model, y.before, x.before);
    var p, q := Ahead(model, x.before, y.before), Ahead(model, y.before, x.before);
    var scale := ComparisonScale(model, x.before, y.before);
    hide Ahead, ComparisonScale, Ratio, Fisher;
    var gain := PairwiseOutcome(x.place, y.place) - p;
    assert PairwiseOutcome(y.place, x.place) - q == -gain;
    RatioOpposite(gain, scale);
    FisherSymmetric(p, scale);
    assert q == 1.0 - p;
  }

  lemma FisherSymmetric(p: real, scale: real)
    requires 0.0 < p < 1.0 && scale > 0.0
    ensures Fisher(p, scale) == Fisher(1.0 - p, scale)
  {
    hide Ratio, Square;
    assert p * (1.0 - p) == (1.0 - p) * (1.0 - (1.0 - p));
  }

  // ---------------------------------------------------------------------
  // One room
  // ---------------------------------------------------------------------

  ghost predicate RoomAccepted(model: Baseline, room: seq<Entry>) {
    model.Valid() && forall i :: 0 <= i < |room| ==> model.Accepts(room[i].before)
  }

  ghost function Gradient(model: Baseline, room: seq<Entry>, i: nat, k: nat): real
    requires RoomAccepted(model, room) && i < |room| && k <= |room|
  {
    if k == 0 then 0.0
    else if k - 1 == i then Gradient(model, room, i, k - 1)
    else Gradient(model, room, i, k - 1) + GradientTerm(model, room[i], room[k - 1])
  }

  ghost function Information(model: Baseline, room: seq<Entry>, i: nat, k: nat): (information: real)
    requires RoomAccepted(model, room) && i < |room| && k <= |room|
    ensures information >= 0.0
  {
    if k == 0 then 0.0
    else if k - 1 == i then Information(model, room, i, k - 1)
    else Information(model, room, i, k - 1) + InformationTerm(model, room[i], room[k - 1])
  }

  /** The variance after adding information to a prior variance. */
  function Posterior(priorVariance: real, information: real): (variance: real)
    requires priorVariance > 0.0 && information >= 0.0
    ensures 0.0 < variance <= priorVariance
  {
    PosteriorBounds(priorVariance, information);
    1.0 / (1.0 / priorVariance + information)
  }

  lemma PosteriorBounds(priorVariance: real, information: real)
    requires priorVariance > 0.0 && information >= 0.0
    ensures 1.0 / priorVariance > 0.0
    ensures 0.0 < 1.0 / (1.0 / priorVariance + information) <= priorVariance
  {
    var precision := 1.0 / priorVariance;
    assert precision > 0.0;
    assert precision * priorVariance == 1.0;
    var total := precision + information;
    assert information * priorVariance >= 0.0;
    assert total * priorVariance >= 1.0;
    QuotientAtMost(priorVariance, total);
  }

  lemma QuotientAtMost(v: real, t: real)
    requires t > 0.0 && t * v >= 1.0
    ensures 0.0 < 1.0 / t <= v
  {
    var q := 1.0 / t;
    assert q * t == 1.0;
    if q > v {
      PositiveProduct(q - v, t);
      assert false;
    }
  }

  ghost function PosteriorVariance(model: Baseline, room: seq<Entry>, i: nat): (variance: real)
    requires RoomAccepted(model, room) && i < |room|
    ensures 0.0 < variance <= Square(room[i].before.uncertainty)
  {
    assert model.Accepts(room[i].before);
    Posterior(Square(room[i].before.uncertainty), Information(model, room, i, |room|))
  }

  function Shifted(mean: real, variance: real, gradient: real): real {
    mean + variance * gradient
  }

  lemma ShiftedMonotone(mean: real, variance: real, low: real, high: real)
    requires variance > 0.0 && low < high
    ensures Shifted(mean, variance, low) < Shifted(mean, variance, high)
  {
    PositiveProduct(variance, high - low);
    assert variance * (high - low) == variance * high - variance * low;
  }

  /** The rating after the game. */
  ghost function After(model: Baseline, room: seq<Entry>, i: nat, processedAt: Time): Estimate
    requires RoomAccepted(model, room) && i < |room|
  {
    var before := room[i].before;
    before.(
      mean := Shifted(before.mean, PosteriorVariance(model, room, i), Gradient(model, room, i, |room|)),
      uncertainty := MaxReal(model.config.minimumUncertainty, model.math.sqrt(PosteriorVariance(model, room, i))),
      games := before.games + 1,
      updatedAt := processedAt)
  }

  // ---------------------------------------------------------------------
  // Laws of one game
  // ---------------------------------------------------------------------

  ghost function GradientSum(model: Baseline, room: seq<Entry>, m: nat, k: nat): real
    requires RoomAccepted(model, room) && m <= |room| && k <= |room|
  {
    if m == 0 then 0.0 else GradientSum(model, room, m - 1, k) + Gradient(model, room, m - 1, k)
  }

  lemma {:induction false} GradientColumn(model: Baseline, room: seq<Entry>, m: nat, k: nat)
    requires RoomAccepted(model, room) && m <= k < |room|
    ensures GradientSum(model, room, m, k + 1) == GradientSum(model, room, m, k) - Gradient(model, room, k, m)
  {
    hide GradientTerm, InformationTerm, RoomAccepted;
    if m > 0 {
      GradientColumn(model, room, m - 1, k);
      RoomPair(model, room, m - 1, k);
      PairBalances(model, room[m - 1], room[k]);
    }
  }

  lemma RoomPair(model: Baseline, room: seq<Entry>, i: nat, j: nat)
    requires RoomAccepted(model, room) && i < |room| && j < |room|
    ensures Comparable(model, room[i].before, room[j].before)
  {
  }

  lemma {:induction false} GradientsCancelUpTo(model: Baseline, room: seq<Entry>, k: nat)
    requires RoomAccepted(model, room) && k <= |room|
    ensures GradientSum(model, room, k, k) == 0.0
  {
    hide GradientTerm, InformationTerm, RoomAccepted;
    if k > 0 {
      GradientsCancelUpTo(model, room, k - 1);
      GradientColumn(model, room, k - 1, k - 1);
      assert Gradient(model, room, k - 1, k) == Gradient(model, room, k - 1, k - 1);
    }
  }

  /** The gradients of a room sum to zero: the update only redistributes. */
  lemma GradientsCancel(model: Baseline, room: seq<Entry>)
    requires RoomAccepted(model, room)
    ensures GradientSum(model, room, |room|, |room|) == 0.0
  {
    GradientsCancelUpTo(model, room, |room|);
  }

  ghost predicate SamePrior(model: Baseline, a: Estimate, b: Estimate) {
    a.mean == b.mean && a.uncertainty == b.uncertainty && model.Deviation(a) == model.Deviation(b)
  }

  lemma BetterOutcome(a: int, b: int, opponent: int)
    requires a <= b
    ensures PairwiseOutcome(b, opponent) <= PairwiseOutcome(a, opponent)
  {
  }

  /** Against one opponent, the better placed of two equal players gains no less. */
  lemma BetterPlaceGainsMore(model: Baseline, a: Entry, b: Entry, opponent: Entry)
    requires Comparable(model, a.before, opponent.before) && Comparable(model, b.before, opponent.before)
    requires SamePrior(model, a.before, b.before) && a.place <= b.place
    ensures GradientTerm(model, a, opponent) >= GradientTerm(model, b, opponent)
    ensures a.place == b.place ==> GradientTerm(model, a, opponent) == GradientTerm(model, b, opponent)
    ensures InformationTerm(model, a, opponent) == InformationTerm(model, b, opponent)
  {
    TermsUnfold(model, a, opponent);
    TermsUnfold(model, b, opponent);
    SameView(model, a.before, b.before, opponent.before);
    BetterOutcome(a.place, b.place, opponent.place);
    hide *;
    var p, scale := Ahead(model, a.before, opponent.before), ComparisonScale(model, a.before, opponent.before);
    RatioMonotone(
      PairwiseOutcome(b.place, opponent.place) - p, PairwiseOutcome(a.place, opponent.place) - p, scale);
  }

  lemma SameView(model: Baseline, a: Estimate, b: Estimate, opponent: Estimate)
    requires Comparable(model, a, opponent) && Comparable(model, b, opponent) && SamePrior(model, a, b)
    ensures ComparisonScale(model, a, opponent) == ComparisonScale(model, b, opponent) > 0.0
    ensures var v := Ratio(a.mean - opponent.mean, ComparisonScale(model, a, opponent));
      1.0 + model.math.exp(-v) > 0.0 && 1.0 + model.math.exp(v) > 0.0
    ensures Ahead(model, a, opponent) == Ahead(model, b, opponent)
  {
    AheadLaws(model, a, opponent);
    hide Functions.Hypot, Functions.Logistic, Ratio;
  }

  lemma RatioMonotone(x: real, y: real, d: real)
    requires x <= y && d > 0.0
    ensures Ratio(x, d) <= Ratio(y, d)
    ensures x < y ==> Ratio(x, d) < Ratio(y, d)
  {
    var q, r := x / d, y / d;
    assert q * d == x && r * d == y;
    if q > r {
      PositiveProduct(q - r, d);
      assert false;
    }
  }

  /** Two equal players who meet have an even chance, so the better placed gains. */
  lemma EvenPair(model: Baseline, a: Entry, b: Entry)
    requires Comparable(model, a.before, b.before) && SamePrior(model, a.before, b.before) && a.place <= b.place
    ensures a.place < b.place ==> GradientTerm(model, a, b) > 0.0 && GradientTerm(model, b, a) < 0.0
    ensures a.place == b.place ==> GradientTerm(model, a, b) == 0.0 == GradientTerm(model, b, a)
  {
    PairBalances(model, a, b);
    AheadLaws(model, a.before, b.before);
    assert ComparisonScale(model, a.before, b.before) == ComparisonScale(model, b.before, a.before);
    assert Ahead(model, a.before, b.before) == Ahead(model, b.before, a.before) == 0.5;
    var scale := ComparisonScale(model, a.before, b.before);
    hide Ahead, ComparisonScale, Functions.Hypot;
    RatioMonotone(0.0, PairwiseOutcome(a.place, b.place) - 0.5, scale);
    assert Ratio(0.0, scale) == 0.0;
  }

  /** The terms that two players do not share are those against each other. */
  ghost function Against(model: Baseline, room: seq<Entry>, i: nat, j: nat, k: nat): real
    requires RoomAccepted(model, room) && i < |room| && j < |room|
  {
    if k > j then GradientTerm(model, room[i], room[j]) else 0.0
  }

  lemma {:induction false} EqualPlayersCompare(model: Baseline, room: seq<Entry>, a: nat, b: nat, k: nat)
    requires RoomAccepted(model, room) && a < |room| && b < |room| && a != b && k <= |room|
    requires SamePrior(model, room[a].before, room[b].before) && room[a].place <= room[b].place
    ensures Gradient(model, room, a, k) - Against(model, room, a, b, k)
         >= Gradient(model, room, b, k) - Against(model, room, b, a, k)
    ensures room[a].place == room[b].place ==>
      Gradient(model, room, a, k) - Against(model, room, a, b, k)
      == Gradient(model, room, b, k) - Against(model, room, b, a, k)
    ensures Information(model, room, a, k) - (if k > b then InformationTerm(model, room[a], room[b]) else 0.0)
         == Information(model, room, b, k) - (if k > a then InformationTerm(model, room[b], room[a]) else 0.0)
  {
    hide GradientTerm, InformationTerm, SamePrior;
    if k > 0 {
      EqualPlayersCompare(model, room, a, b, k - 1);
      if k - 1 != a && k - 1 != b {
        BetterPlaceGainsMore(model, room[a], room[b], room[k - 1]);
      }
    }
  }

  /** Of two players with the same prior the better placed ends with the higher
      mean, equally placed players end equal, and both end equally certain,
      whoever else was in the room. */
  lemma PlaceOrdersEqualPlayers(model: Baseline, room: seq<Entry>, a: nat, b: nat, processedAt: Time)
    requires RoomAccepted(model, room) && a < |room| && b < |room|
    requires SamePrior(model, room[a].before, room[b].before)
    ensures After(model, room, a, processedAt).mean > After(model, room, b, processedAt).mean
      <==> room[a].place < room[b].place
    ensures After(model, room, a, processedAt).uncertainty == After(model, room, b, processedAt).uncertainty
  {
    if a != b {
      if room[a].place <= room[b].place {
        PlaceOrdersBetter(model, room, a, b, processedAt);
      } else {
        PlaceOrdersBetter(model, room, b, a, processedAt);
      }
    }
  }

  lemma PlaceOrdersBetter(model: Baseline, room: seq<Entry>, a: nat, b: nat, processedAt: Time)
    requires RoomAccepted(model, room) && a < |room| && b < |room| && a != b
    requires SamePrior(model, room[a].before, room[b].before) && room[a].place <= room[b].place
    ensures room[a].place < room[b].place ==>
      After(model, room, a, processedAt).mean > After(model, room, b, processedAt).mean
    ensures room[a].place == room[b].place ==>
      After(model, room, a, processedAt).mean == After(model, room, b, processedAt).mean
    ensures After(model, room, a, processedAt).uncertainty == After(model, room, b, processedAt).uncertainty
  {
    var n := |room|;
    EqualPlayersCompare(model, room, a, b, n);
    EvenPair(model, room[a], room[b]);
    PairBalances(model, room[a], room[b]);
    hide GradientTerm, InformationTerm, Gradient, Information, RoomAccepted, Shifted, Posterior, Square;
    assert Information(model, room, a, n) == Information(model, room, b, n);
    assert PosteriorVariance(model, room, a) == PosteriorVariance(model, room, b);
    var v, g, h := PosteriorVariance(model, room, a), Gradient(model, room, a, n), Gradient(model, room, b, n);
    hide PosteriorVariance, Shifted, Square;
    if room[a].place < room[b].place {
      ShiftedMonotone(room[a].before.mean, v, h, g);
    }
  }

  /** An update never raises uncertainty, and the new rating is again one the
      model accepts, so updates can be chained. */
  lemma UncertaintyShrinks(model: Baseline, room: seq<Entry>, i: nat, processedAt: Time)
    requires RoomAccepted(model, room) && i < |room| && processedAt != 0
    ensures After(model, room, i, processedAt).uncertainty <= room[i].before.uncertainty
    ensures model.Accepts(After(model, room, i, processedAt))
  {
    var u, v := room[i].before.uncertainty, PosteriorVariance(model, room, i);
    RootLaws(model.math, v);
    assert model.Accepts(room[i].before);
    hide PosteriorVariance;
    assert Square(u) == u * u;
    SquaresOrder(model.math.sqrt(v), u);
  }

  // ---------------------------------------------------------------------
  // The update of a result
  // ---------------------------------------------------------------------

  function ByPlayer(p: ParticipantResult): Id {
    p.playerId
  }

  ghost predicate Rated(model: Baseline, estimates: map<Id, Estimate>, playerId: Id) {
    playerId in estimates && model.Accepts(estimates[playerId]) && estimates[playerId].games < MAX_UINT64
  }

  ghost predicate Updatable(model: Baseline, result: MatchResult, estimates: map<Id, Estimate>, processedAt: Time) {
    && result.Valid()
    && processedAt != 0 && result.availableAt <= processedAt
    && forall p :: p in SortBy(ByPlayer, result.participants) ==> Rated(model, estimates, p.playerId)
  }

  ghost function RoomOf(
      model: Baseline, sorted: seq<ParticipantResult>, estimates: map<Id, Estimate>): (room: seq<Entry>)
    requires model.Valid() && forall p :: p in sorted ==> Rated(model, estimates, p.playerId)
    ensures RoomAccepted(model, room) && |room| == |sorted|
  {
    assert forall i :: 0 <= i < |sorted| ==> Rated(model, estimates, sorted[i].playerId);
    seq(|sorted|, i requires 0 <= i < |sorted| =>
      Entry(sorted[i].playerId, sorted[i].place, estimates[sorted[i].playerId]))
  }

  ghost function UpdateOf(model: Baseline, eventId: Id, room: seq<Entry>, i: nat, processedAt: Time): RatingUpdate
    requires RoomAccepted(model, room) && i < |room|
  {
    RatingUpdate(
      room[i].playerId, eventId, model.config.version, room[i].before, After(model, room, i, processedAt), processedAt)
  }

  ghost function UpdatesOf(model: Baseline, eventId: Id, room: seq<Entry>, processedAt: Time): (us: seq<RatingUpdate>)
    requires RoomAccepted(model, room)
    ensures |us| == |room|
  {
    seq(|room|, i requires 0 <= i < |room| => UpdateOf(model, eventId, room, i, processedAt))
  }

  ghost function Updated(model: Baseline, result: MatchResult, estimates: map<Id, Estimate>, processedAt: Time)
    : Result<seq<RatingUpdate>>
    requires model.Valid()
  {
    if !Updatable(model, result, estimates, processedAt) then Err(InvalidInput)
    else
      Ok(UpdatesOf(model, result.eventId, RoomOf(model, SortBy(ByPlayer, result.participants), estimates), processedAt))
  }

  /** The order in which a result lists its participants does not matter. */
  lemma ParticipantOrderIrrelevant(
    model: Baseline, result: MatchResult, participants: seq<ParticipantResult>,
    estimates: map<Id, Estimate>, processedAt: Time)
    requires model.Valid() && result.Valid() && result.(participants := participants).Valid()
    requires SameElements(result.participants, participants)
    ensures Updated(model, result.(participants := participants), estimates, processedAt)
      == Updated(model, result, estimates, processedAt)
  {
    OrderIrrelevant(ByPlayer, result.participants, participants);
  }

  method Update(model: Baseline, result: MatchResult, estimates: map<Id, Estimate>, processedAt: Time)
    returns (updates: Result<seq<RatingUpdate>>)
    requires model.Valid()
    ensures updates == Updated(model, result, estimates, processedAt)
  {
    if !result.Valid() || processedAt == 0 || processedAt < result.availableAt {
      return Err(InvalidInput);
    }
    var participants := SortBy(ByPlayer, result.participants);
    var room: seq<Entry> := [];
    for k := 0 to |participants|
      invariant |room| == k
      invariant forall i :: 0 <= i < k ==> Rated(model, estimates, participants[i].playerId)
      invariant forall i :: 0 <= i < k ==>
        room[i] == Entry(participants[i].playerId, participants[i].place, estimates[participants[i].playerId])
    {
      var p := participants[k];
      if p.playerId !in estimates || !model.Accepts(estimates[p.playerId])
         || estimates[p.playerId].games >= MAX_UINT64 {
        assert !Rated(model, estimates, p.playerId);
        return Err(InvalidInput);
      }
      room := room + [Entry(p.playerId, p.place, estimates[p.playerId])];
    }
    assert Updatable(model, result, estimates, processedAt);
    assert room == RoomOf(model, participants, estimates);
    hide Updatable, Rated, MatchResult.Valid, RoomOf;
    var list := UpdateRoom(model, result.eventId, room, processedAt);
    updates := Ok(list);
  }

  method UpdateRoom(
      model: Baseline, eventId: Id, room: seq<Entry>, processedAt: Time) returns (updates: seq<RatingUpdate>)
    requires RoomAccepted(model, room)
    ensures updates == UpdatesOf(model, eventId, room, processedAt)
  {
    updates := [];
    for i := 0 to |room|
      invariant updates == UpdatesOf(model, eventId, room, processedAt)[..i]
    {
      var after := UpdatePlayer(model, room, i, processedAt);
      updates := updates
        + [RatingUpdate(room[i].playerId, eventId, model.config.version, room[i].before, after, processedAt)];
    }
  }

  /** The inner loop over the opponents. */
  method UpdatePlayer(model: Baseline, room: seq<Entry>, i: nat, processedAt: Time) returns (after: Estimate)
    requires RoomAccepted(model, room) && i < |room|
    ensures after == After(model, room, i, processedAt)
  {
    hide *;
    var gradient, information := 0.0, 0.0;
    SumsUnfold(model, room, i, 0);
    for k := 0 to |room|
      invariant gradient == Gradient(model, room, i, k) && information == Information(model, room, i, k)
    {
      gradient, information := AddOpponent(model, room, i, k, gradient, information);
    }
    after := Concluded(model, room, i, gradient, information, processedAt);
  }

  lemma SumsUnfold(model: Baseline, room: seq<Entry>, i: nat, k: nat)
    requires RoomAccepted(model, room) && i < |room| && k <= |room|
    ensures k == 0 ==> Gradient(model, room, i, k) == 0.0 && Information(model, room, i, k) == 0.0
    ensures k > 0 && k - 1 == i ==>
      && Gradient(model, room, i, k) == Gradient(model, room, i, k - 1)
      && Information(model, room, i, k) == Information(model, room, i, k - 1)
    ensures k > 0 && k - 1 != i ==>
      && Comparable(model, room[i].before, room[k - 1].before)
      && Gradient(model, room, i, k) == Gradient(model, room, i, k - 1) + GradientTerm(model, room[i], room[k - 1])
      && Information(model, room, i, k) == Information(model, room, i, k - 1)
        + InformationTerm(model, room[i], room[k - 1])
  {
    hide GradientTerm, InformationTerm, Baseline.Valid;
  }

  method AddOpponent(model: Baseline, room: seq<Entry>, i: nat, k: nat, gradient: real, information: real)
    returns (newGradient: real, newInformation: real)
    requires RoomAccepted(model, room) && i < |room| && k < |room|
    requires gradient == Gradient(model, room, i, k) && information == Information(model, room, i, k)
    ensures newGradient == Gradient(model, room, i, k + 1) && newInformation == Information(model, room, i, k + 1)
  {
    hide *;
    SumsUnfold(model, room, i, k + 1);
    if k == i {
      return gradient, information;
    }
    TermsUnfold(model, room[i], room[k]);
    var scale := ComparisonScale(model, room[i].before, room[k].before);
    var probability := Ahead(model, room[i].before, room[k].before);
    var outcome := PairwiseOutcome(room[i].place, room[k].place);
    newGradient := gradient + Ratio(outcome - probability, scale);
    newInformation := information + Fisher(probability, scale);
  }

  method Concluded(model: Baseline, room: seq<Entry>, i: nat, gradient: real, information: real, processedAt: Time)
    returns (after: Estimate)
    requires RoomAccepted(model, room) && i < |room|
    requires gradient == Gradient(model, room, i, |room|) && information == Information(model, room, i, |room|)
    ensures after == After(model, room, i, processedAt)
  {
    var current := room[i].before;
    hide Gradient, Information, Posterior, Square, Shifted;
    assert model.Accepts(current);
    var posteriorVariance := Posterior(Square(current.uncertainty), information);
    after := current.(
      mean := Shifted(current.mean, posteriorVariance, gradient),
      uncertainty := MaxReal(model.config.minimumUncertainty, model.math.sqrt(posteriorVariance)),
      games := current.games + 1,
      updatedAt := processedAt);
  }

  // ---------------------------------------------------------------------
  // Sequences of games
  // ---------------------------------------------------------------------

  datatype Game = Game(result: MatchResult, processedAt: Time)

  type Ratings = map<Id, Estimate>

  ghost function Store(ratings: Ratings, updates: seq<RatingUpdate>): Ratings
    decreases |updates|
  {
    if updates == [] then ratings else Store(ratings[updates[0].playerId := updates[0].after], updates[1..])
  }

  /** Ratings after one game; a game the model refuses changes nothing. */
  ghost function Play(model: Baseline, ratings: Ratings, game: Game): Ratings
    requires model.Valid()
  {
    match Updated(model, game.result, ratings, game.processedAt)
    case Ok(updates) => Store(ratings, updates)
    case Err(_) => ratings
  }

  ghost function Replay(model: Baseline, ratings: Ratings, games: seq<Game>): Ratings
    requires model.Valid()
    decreases |games|
  {
    if games == [] then ratings else Replay(model, Play(model, ratings, games[0]), games[1..])
  }

  ghost predicate TakesPart(model: Baseline, ratings: Ratings, game: Game, id: Id) {
    && Updatable(model, game.result, ratings, game.processedAt)
    && exists p :: p in game.result.participants && p.playerId == id
  }

  ghost function GamesPlayed(model: Baseline, ratings: Ratings, games: seq<Game>, id: Id): nat
    requires model.Valid()
    decreases |games|
  {
    if games == [] then 0
    else
      var later := GamesPlayed(model, Play(model, ratings, games[0]), games[1..], id);
      if TakesPart(model, ratings, games[0], id) then later + 1 else later
  }

  ghost predicate AllAccepted(model: Baseline, ratings: Ratings) {
    forall id :: id in ratings ==> model.Accepts(ratings[id])
  }

  ghost predicate DistinctUpdates(updates: seq<RatingUpdate>) {
    forall i, j :: 0 <= i < j < |updates| ==> updates[i].playerId != updates[j].playerId
  }

  lemma {:induction false} StoreLaws(ratings: Ratings, updates: seq<RatingUpdate>, id: Id)
    requires DistinctUpdates(updates) && forall u :: u in updates ==> u.playerId in ratings
    ensures Store(ratings, updates).Keys == ratings.Keys
    ensures (forall u :: u in updates ==> u.playerId != id) && id in ratings ==>
      Store(ratings, updates)[id] == ratings[id]
    ensures forall u :: u in updates && u.playerId == id ==> id in ratings && Store(ratings, updates)[id] == u.after
  {
    if updates != [] {
      var first := updates[0];
      assert first in updates;
      var next := ratings[first.playerId := first.after];
      assert next.Keys == ratings.Keys;
      assert updates == [first] + updates[1..];
      StoreLaws(next, updates[1..], id);
      if first.playerId == id {
        assert forall u :: u in updates[1..] ==> u.playerId != id;
      }
    }
  }

  lemma PlayLaws(model: Baseline, ratings: Ratings, game: Game, id: Id)
    requires model.Valid() && AllAccepted(model, ratings) && id in ratings
    ensures Play(model, ratings, game).Keys == ratings.Keys
    ensures Play(model, ratings, game)[id].uncertainty <= ratings[id].uncertainty
    ensures model.Accepts(Play(model, ratings, game)[id])
    ensures Play(model, ratings, game)[id].games
      == ratings[id].games + if TakesPart(model, ratings, game, id) then 1 else 0
  {
    if Updatable(model, game.result, ratings, game.processedAt) {
      PlayedLaws(model, ratings, game, id);
    }
  }

  lemma PlayedLaws(model: Baseline, ratings: Ratings, game: Game, id: Id)
    requires model.Valid() && AllAccepted(model, ratings) && id in ratings
    requires Updatable(model, game.result, ratings, game.processedAt)
    ensures Play(model, ratings, game).Keys == ratings.Keys
    ensures Play(model, ratings, game)[id].uncertainty <= ratings[id].uncertainty
    ensures model.Accepts(Play(model, ratings, game)[id])
    ensures Play(model, ratings, game)[id].games
      == ratings[id].games + if TakesPart(model, ratings, game, id) then 1 else 0
  {
    hide *;
    var sorted := SortBy(ByPlayer, game.result.participants);
    PlayUnfold(model, ratings, game);
    var updates := UpdatesOf(model, game.result.eventId, RoomOf(model, sorted, ratings), game.processedAt);
    UpdatesFit(model, game.result, ratings, game.processedAt);
    StoreLaws(ratings, updates, id);
    if i: nat :| i < |sorted| && sorted[i].playerId == id {
      PlayerUpdated(model, game.result.eventId, sorted, ratings, game.processedAt, i);
      SeatTaken(model, ratings, game, id, i);
    } else {
      NobodyUpdated(model, game.result.eventId, sorted, ratings, game.processedAt, id);
      NoSeatTaken(model, ratings, game, id);
      AcceptedStays(model, ratings, id);
    }
  }

  lemma PlayUnfold(model: Baseline, ratings: Ratings, game: Game)
    requires model.Valid() && Updatable(model, game.result, ratings, game.processedAt)
    ensures game.processedAt != 0
    ensures var sorted := SortBy(ByPlayer, game.result.participants);
      && (forall p :: p in sorted ==> Rated(model, ratings, p.playerId))
      && Play(model, ratings, game)
        == Store(ratings, UpdatesOf(model, game.result.eventId, RoomOf(model, sorted, ratings), game.processedAt))
  {
    hide Store, UpdatesOf, RoomOf, Rated;
  }

  lemma SeatTaken(model: Baseline, ratings: Ratings, game: Game, id: Id, i: nat)
    requires Updatable(model, game.result, ratings, game.processedAt)
    requires var sorted := SortBy(ByPlayer, game.result.participants); i < |sorted| && sorted[i].playerId == id
    ensures TakesPart(model, ratings, game, id)
  {
    SortByLaws(ByPlayer, game.result.participants);
    hide Rated;
    assert SortBy(ByPlayer, game.result.participants)[i] in game.result.participants;
  }

  lemma NoSeatTaken(model: Baseline, ratings: Ratings, game: Game, id: Id)
    requires Updatable(model, game.result, ratings, game.processedAt)
    requires forall i: nat :: i < |SortBy(ByPlayer, game.result.participants)| ==>
      SortBy(ByPlayer, game.result.participants)[i].playerId != id
    ensures !TakesPart(model, ratings, game, id)
  {
    hide Rated;
    SortByLaws(ByPlayer, game.result.participants);
    var sorted := SortBy(ByPlayer, game.result.participants);
    forall p | p in game.result.participants ensures p.playerId != id {
      assert p in sorted;
      var i: nat :| i < |sorted| && sorted[i] == p;
      assert sorted[i].playerId != id;
    }
  }

  lemma NobodyUpdated(
    model: Baseline, eventId: Id, sorted: seq<ParticipantResult>, ratings: Ratings, processedAt: Time, id: Id)
    requires model.Valid() && forall p :: p in sorted ==> Rated(model, ratings, p.playerId)
    requires forall i: nat :: i < |sorted| ==> sorted[i].playerId != id
    ensures forall u :: u in UpdatesOf(model, eventId, RoomOf(model, sorted, ratings), processedAt) ==> u.playerId != id
  {
    hide *;
    UpdateIds(model, eventId, sorted, ratings, processedAt);
    var updates := UpdatesOf(model, eventId, RoomOf(model, sorted, ratings), processedAt);
    forall u | u in updates ensures u.playerId != id {
      var i: nat :| i < |updates| && updates[i] == u;
      assert updates[i].playerId == sorted[i].playerId;
    }
  }

  lemma AcceptedStays(model: Baseline, ratings: Ratings, id: Id)
    requires AllAccepted(model, ratings) && id in ratings
    ensures model.Accepts(ratings[id])
  {
  }

  lemma PlayerUpdated(
    model: Baseline, eventId: Id, sorted: seq<ParticipantResult>, ratings: Ratings, processedAt: Time, i: nat)
    requires model.Valid() && i < |sorted| && processedAt != 0
    requires forall p :: p in sorted ==> Rated(model, ratings, p.playerId)
    ensures var updates := UpdatesOf(model, eventId, RoomOf(model, sorted, ratings), processedAt);
      var u, id := updates[i], sorted[i].playerId;
      && u in updates && u.playerId == id && id in ratings
      && u.after.uncertainty <= ratings[id].uncertainty
      && model.Accepts(u.after)
      && u.after.games == ratings[id].games + 1
  {
    UncertaintyShrinks(model, RoomOf(model, sorted, ratings), i, processedAt);
    hide Gradient, Information, PosteriorVariance;
  }

  lemma UpdatesFit(model: Baseline, result: MatchResult, ratings: Ratings, processedAt: Time)
    requires model.Valid() && Updatable(model, result, ratings, processedAt)
    ensures var updates :=
      UpdatesOf(model, result.eventId, RoomOf(model, SortBy(ByPlayer, result.participants), ratings), processedAt);
      DistinctUpdates(updates) && forall u :: u in updates ==> u.playerId in ratings
  {
    var sorted := SortBy(ByPlayer, result.participants);
    SortByLaws(ByPlayer, result.participants);
    UpdateIds(model, result.eventId, sorted, ratings, processedAt);
    hide UpdatesOf, RoomOf, MatchResult.Valid, Rated;
    var updates := UpdatesOf(model, result.eventId, RoomOf(model, sorted, ratings), processedAt);
    forall u | u in updates ensures u.playerId in ratings {
      var i :| 0 <= i < |updates| && updates[i] == u;
    }
  }

  lemma UpdateIds(model: Baseline, eventId: Id, sorted: seq<ParticipantResult>, ratings: Ratings, processedAt: Time)
    requires model.Valid() && forall p :: p in sorted ==> Rated(model, ratings, p.playerId)
    ensures var updates := UpdatesOf(model, eventId, RoomOf(model, sorted, ratings), processedAt);
      |updates| == |sorted| && forall i :: 0 <= i < |updates| ==>
        updates[i].playerId == sorted[i].playerId && updates[i].playerId in ratings
  {
    forall i | 0 <= i < |sorted| ensures sorted[i].playerId in ratings {
      assert Rated(model, ratings, sorted[i].playerId);
    }
    hide After, Baseline.Valid;
  }

  /** Over any sequence of games every player's uncertainty is non-increasing and
      inside the model's bounds, and the game count grows by exactly the number of
      rated games the player took part in. */
  lemma {:induction false} RatingHistory(model: Baseline, ratings: Ratings, games: seq<Game>, id: Id)
    requires model.Valid() && AllAccepted(model, ratings) && id in ratings
    ensures Replay(model, ratings, games).Keys == ratings.Keys
    ensures Replay(model, ratings, games)[id].uncertainty <= ratings[id].uncertainty
    ensures model.config.minimumUncertainty <= Replay(model, ratings,
      games)[id].uncertainty <= model.config.maximumUncertainty
    ensures Replay(model, ratings, games)[id].games == ratings[id].games + GamesPlayed(model, ratings, games, id)
    decreases |games|
  {
    hide Play, TakesPart;
    if games != [] {
      forall other | other in ratings
        ensures Play(model, ratings, games[0]).Keys == ratings.Keys
        ensures model.Accepts(Play(model, ratings, games[0])[other])
      {
        PlayLaws(model, ratings, games[0], other);
      }
      PlayLaws(model, ratings, games[0], id);
      RatingHistory(model, Play(model, ratings, games[0]), games[1..], id);
    }
  }
}

/** What the baseline's update means: whom it favours, by how much, and how a game
    moves a rating. */
module BaselineLaws {
  import opened Common
  import opened RatingTypes
  import opened Analysis
  import opened BaselineModel
  import opened BaselineUpdate
  import opened Canonical

  // ---------------------------------------------------------------------
  // One pair
  // ---------------------------------------------------------------------

  function Variance(model: Baseline, e: Estimate): real {
    e.uncertainty * e.uncertainty + model.Deviation(e) * model.Deviation(e)
  }

  /** The scale of a pair is the root of all four variances. */
  lemma ScaleIsRoot(model: Baseline, a: Estimate, b: Estimate)
    requires Comparable(model, a, b)
    ensures ComparisonScale(model, a, b) > 0.0
    ensures ComparisonScale(model, a, b) * ComparisonScale(model, a, b) == Variance(model, a) + Variance(model, b)
  {
    ScaleLaws(model, a, b);
    HypotLaws(model.math, a.uncertainty, b.uncertainty);
    HypotLaws(model.math, model.Deviation(a), model.Deviation(b));
    var skill := model.math.Hypot(a.uncertainty, b.uncertainty);
    var performance := model.math.Hypot(model.Deviation(a), model.Deviation(b));
    HypotLaws(model.math, skill, performance);
    hide Functions.Hypot;
  }

  /** A probability has these odds. */
  lemma LogisticOdds(f: Functions, value: real)
    requires f.Lawful()
    ensures 1.0 + f.exp(-value) > 0.0 && 1.0 + f.exp(value) > 0.0
    ensures f.Logistic(value) == Product(f.exp(value), 1.0 - f.Logistic(value))
  {
    ExpPositive(f, value);
    ExpPositive(f, -value);
    var x, y := f.exp(value), f.exp(-value);
    assert Reciprocal(f.exp, value);
    if value >= 0.0 {
      InverseOdds(x, y);
    } else {
      DirectOdds(x);
    }
  }

  lemma InverseOdds(x: real, y: real)
    requires x > 0.0 && y > 0.0 && x * y == 1.0
    ensures 1.0 / (1.0 + y) == x * (1.0 - 1.0 / (1.0 + y))
  {
    var p := 1.0 / (1.0 + y);
    assert p * (1.0 + y) == 1.0;
    assert 1.0 - p == p * y;
    assert x * (p * y) == p * (x * y);
  }

  lemma DirectOdds(x: real)
    requires x > 0.0
    ensures x / (1.0 + x) == x * (1.0 - x / (1.0 + x))
  {
    var p := x / (1.0 + x);
    assert p * (1.0 + x) == x;
    assert p + p * x == x;
  }

  /** The odds of finishing ahead are the exponential of the difference of the means
      over the scale. */
  lemma AheadOdds(model: Baseline, a: Estimate, b: Estimate)
    requires Comparable(model, a, b)
    ensures ComparisonScale(model, a, b) > 0.0
    ensures var v := Ratio(a.mean - b.mean, ComparisonScale(model, a, b));
      1.0 + model.math.exp(-v) > 0.0 && 1.0 + model.math.exp(v) > 0.0
    ensures Ahead(model, a, b)
      == Product(model.math.exp(Ratio(a.mean - b.mean, ComparisonScale(model, a, b))), 1.0 - Ahead(model, a, b))
  {
    hide ComparisonScale, Functions.Logistic, Ratio;
    AheadLaws(model, a, b);
    LogisticOdds(model.math, Ratio(a.mean - b.mean, ComparisonScale(model, a, b)));
  }

  /** Higher odds are a higher probability. */
  lemma OddsOrder(p: real, q: real, x: real, y: real)
    requires 0.0 < p < 1.0 && 0.0 < q < 1.0 && 0.0 < x <= y
    requires p == Product(x, 1.0 - p) && q == Product(y, 1.0 - q)
    ensures p <= q
  {
    OddsBack(p, x);
    OddsBack(q, y);
    AtMostTheRest(p, y - x);
    Distributes(p, x, y);
    hide Product;
    assert p * (1.0 + y) <= y;
    CancelFactor(p, q, 1.0 + y);
  }

  lemma Distributes(p: real, x: real, y: real)
    ensures p * (1.0 + y) == p * (1.0 + x) + p * (y - x)
  {
  }

  lemma OddsBack(p: real, x: real)
    requires p == Product(x, 1.0 - p)
    ensures p * (1.0 + x) == x
  {
    assert x * (1.0 - p) == x - x * p;
  }

  lemma AtMostTheRest(p: real, d: real)
    requires 0.0 < p < 1.0 && d >= 0.0
    ensures p * d <= d
  {
    NonNegativeProduct(1.0 - p, d);
    assert (1.0 - p) * d == d - p * d;
  }

  /** The better rated player is the favourite. */
  lemma FavouriteIsAhead(model: Baseline, a: Estimate, b: Estimate)
    requires Comparable(model, a, b) && a.mean >= b.mean
    ensures ComparisonScale(model, a, b) > 0.0
    ensures var v := Ratio(a.mean - b.mean, ComparisonScale(model, a, b));
      1.0 + model.math.exp(-v) > 0.0 && 1.0 + model.math.exp(v) > 0.0
    ensures Ahead(model, a, b) >= 0.5
  {
    hide Ahead, ComparisonScale, Ratio, Product;
    AheadLaws(model, a, b);
    AheadOdds(model, a, b);
    var v := Ratio(a.mean - b.mean, ComparisonScale(model, a, b));
    RatioMonotone(0.0, a.mean - b.mean, ComparisonScale(model, a, b));
    ZeroRatio(ComparisonScale(model, a, b));
    assert model.math.exp(v) >= model.math.exp(0.0) == 1.0;
    EvenOdds();
    OddsOrder(0.5, Ahead(model, a, b), 1.0, model.math.exp(v));
  }

  lemma EvenOdds()
    ensures 0.5 == Product(1.0, 1.0 - 0.5)
  {
  }

  lemma ZeroRatio(d: real)
    requires d > 0.0
    ensures Ratio(0.0, d) == 0.0
  {
  }

  ghost predicate SameSpread(model: Baseline, a: Estimate, b: Estimate) {
    a.uncertainty == b.uncertainty && model.Deviation(a) == model.Deviation(b)
  }

  /** Against an equally uncertain opponent with a higher mean the chances are no
      better. */
  lemma StrongerIsHarder(model: Baseline, x: Estimate, low: Estimate, high: Estimate)
    requires Comparable(model, x, low) && Comparable(model, x, high)
    requires SameSpread(model, low, high) && low.mean <= high.mean
    ensures ComparisonScale(model, x, low) == ComparisonScale(model, x, high) > 0.0
    ensures var v := Ratio(x.mean - low.mean, ComparisonScale(model, x, low));
      1.0 + model.math.exp(-v) > 0.0 && 1.0 + model.math.exp(v) > 0.0
    ensures var v := Ratio(x.mean - high.mean, ComparisonScale(model, x, high));
      1.0 + model.math.exp(-v) > 0.0 && 1.0 + model.math.exp(v) > 0.0
    ensures Ahead(model, x, high) <= Ahead(model, x, low)
  {
    hide Ahead, ComparisonScale, Ratio, Product;
    AheadLaws(model, x, low);
    AheadLaws(model, x, high);
    AheadOdds(model, x, low);
    AheadOdds(model, x, high);
    SameScale(model, x, low, high);
    var s := ComparisonScale(model, x, low);
    RatioMonotone(x.mean - high.mean, x.mean - low.mean, s);
    ExpMonotone(model.math, Ratio(x.mean - high.mean, s), Ratio(x.mean - low.mean, s));
    OddsOrder(
      Ahead(model, x, high), Ahead(model, x, low),
      model.math.exp(Ratio(x.mean - high.mean, s)), model.math.exp(Ratio(x.mean - low.mean, s)));
  }

  lemma ExpMonotone(f: Functions, x: real, y: real)
    requires f.Lawful() && x <= y
    ensures 0.0 < f.exp(x) <= f.exp(y)
  {
  }

  lemma SameScale(model: Baseline, x: Estimate, low: Estimate, high: Estimate)
    requires SameSpread(model, low, high)
    ensures ComparisonScale(model, x, low) == ComparisonScale(model, x, high)
  {
    hide Functions.Hypot;
  }

  // ---------------------------------------------------------------------
  // What a game contributes
  // ---------------------------------------------------------------------

  /** A win pulls a rating up and a defeat pulls it down, by what was not expected;
      the gain is the surprise over the scale, and the information the variance of
      the outcome over its square. */
  lemma TermsMean(model: Baseline, x: Entry, y: Entry)
    requires Comparable(model, x.before, y.before)
    ensures ComparisonScale(model, x.before, y.before) > 0.0
    ensures var v := Ratio(x.before.mean - y.before.mean, ComparisonScale(model, x.before, y.before));
      1.0 + model.math.exp(-v) > 0.0 && 1.0 + model.math.exp(v) > 0.0
    ensures var s, p := ComparisonScale(model, x.before, y.before), Ahead(model, x.before, y.before);
      && (x.place < y.place ==> GradientTerm(model, x, y) * s == 1.0 - p)
      && (x.place > y.place ==> GradientTerm(model, x, y) * s == -p)
      && (x.place == y.place ==> GradientTerm(model, x, y) * s == 0.5 - p)
      && InformationTerm(model, x, y) * (s * s) == p * (1.0 - p)
    ensures x.place < y.place ==> GradientTerm(model, x, y) > 0.0
    ensures x.place > y.place ==> GradientTerm(model, x, y) < 0.0
  {
    hide Ahead, ComparisonScale, Ratio, Fisher;
    TermsUnfold(model, x, y);
    var s, p := ComparisonScale(model, x.before, y.before), Ahead(model, x.before, y.before);
    QuotientBack(PairwiseOutcome(x.place, y.place) - p, s);
    FisherBack(p, s);
  }

  lemma QuotientBack(x: real, d: real)
    requires d > 0.0
    ensures Ratio(x, d) * d == x
    ensures x > 0.0 ==> Ratio(x, d) > 0.0
    ensures x < 0.0 ==> Ratio(x, d) < 0.0
  {
    var q := x / d;
    assert q * d == x;
  }

  lemma FisherBack(p: real, s: real)
    requires 0.0 < p < 1.0 && s > 0.0
    ensures Fisher(p, s) * (s * s) == p * (1.0 - p)
  {
    PositiveProduct(s, s);
    assert Square(s) == s * s;
    QuotientBack(p * (1.0 - p), s * s);
  }

  /** Beating a stronger opponent is worth at least as much as beating an equally
      uncertain weaker one, and losing to it costs no more. */
  lemma StrongerCountsMore(model: Baseline, x: Entry, low: Entry, high: Entry)
    requires Comparable(model, x.before, low.before) && Comparable(model, x.before, high.before)
    requires SameSpread(model, low.before, high.before) && low.before.mean <= high.before.mean
    requires low.place == high.place
    ensures GradientTerm(model, x, low) <= GradientTerm(model, x, high)
  {
    TermsUnfold(model, x, low);
    TermsUnfold(model, x, high);
    StrongerIsHarder(model, x.before, low.before, high.before);
    var s := ComparisonScale(model, x.before, low.before);
    hide Ahead, ComparisonScale, Ratio;
    RatioMonotone(
      PairwiseOutcome(x.place, low.place) - Ahead(model, x.before, low.before),
      PairwiseOutcome(x.place, high.place) - Ahead(model, x.before, high.before), s);
  }

  // ---------------------------------------------------------------------
  // The update
  // ---------------------------------------------------------------------

  /** The precision after the game is the precision before plus the information. */
  predicate IsPosterior(variance: real, prior: real, information: real)
    requires prior > 0.0
  {
    variance * (1.0 / prior + information) == 1.0
  }

  /** The game adds its information to the precision, and moves the mean by the
      remaining variance times the gradient; nothing else of the rating changes but
      the game count and the date. */
  ghost predicate MovesBy(
    model: Baseline, before: Estimate, after: Estimate, gradient: real, information: real, processedAt: Time)
  {
    before.uncertainty > 0.0 && exists variance: real ::
      && variance > 0.0
      && IsPosterior(variance, Square(before.uncertainty), information)
      && after.mean == before.mean + Product(variance, gradient)
      && after.uncertainty == MaxReal(model.config.minimumUncertainty, model.math.sqrt(variance))
      && after == before.(
        mean := after.mean, uncertainty := after.uncertainty, games := before.games + 1, updatedAt := processedAt)
  }

  lemma PosteriorPrecision(prior: real, information: real)
    requires prior > 0.0 && information >= 0.0
    ensures IsPosterior(Posterior(prior, information), prior, information)
  {
    PosteriorBounds(prior, information);
  }

  lemma ShiftedIs(mean: real, variance: real, gradient: real)
    ensures Shifted(mean, variance, gradient) == mean + Product(variance, gradient)
  {
  }

  lemma AcceptedPositive(model: Baseline, e: Estimate)
    requires model.Accepts(e)
    ensures e.uncertainty > 0.0
  {
  }

  lemma AfterMoves(model: Baseline, room: seq<Entry>, i: nat, processedAt: Time)
    requires RoomAccepted(model, room) && i < |room|
    ensures room[i].before.uncertainty > 0.0
    ensures MovesBy(
      model, room[i].before, After(model, room, i, processedAt), Gradient(model, room, i, |room|),
      Information(model, room, i, |room|), processedAt)
  {
    var before := room[i].before;
    assert model.Accepts(before);
    hide Information, Gradient, Square, Posterior, Baseline.Accepts, IsPosterior, Shifted;
    AcceptedPositive(model, before);
    var variance, gradient := PosteriorVariance(model, room, i), Gradient(model, room, i, |room|);
    PosteriorPrecision(Square(before.uncertainty), Information(model, room, i, |room|));
    ShiftedIs(before.mean, variance, gradient);
    assert IsPosterior(variance, Square(before.uncertainty), Information(model, room, i, |room|));
  }

  /** The sums over the opponents: everybody in the room but the player. */
  lemma {:induction false} SumsOverOpponents(model: Baseline, room: seq<Entry>, i: nat, k: nat)
    requires RoomAccepted(model, room) && i < |room| && k < |room|
    ensures Gradient(model, room, i, 0) == 0.0 == Information(model, room, i, 0)
    ensures RoomAccepted(model, room) && Comparable(model, room[i].before, room[k].before)
    ensures Gradient(model, room, i, k + 1) - Gradient(model, room, i, k)
      == if k == i then 0.0 else GradientTerm(model, room[i], room[k])
    ensures Information(model, room, i, k + 1) - Information(model, room, i, k)
      == if k == i then 0.0 else InformationTerm(model, room[i], room[k])
  {
    RoomPair(model, room, i, k);
    hide GradientTerm, InformationTerm;
  }

  /** What `Update` returns: one row for every participant, in the order of the
      players, with the prior that was handed in and the posterior above. */
  lemma UpdateIsPosterior(
    model: Baseline, result: MatchResult, estimates: map<Id, Estimate>, processedAt: Time)
    requires model.Valid()
    ensures Updated(model, result, estimates, processedAt).Ok? <==> Updatable(model, result, estimates, processedAt)
    ensures Updatable(model, result, estimates, processedAt) ==>
      var updates := Updated(model, result, estimates, processedAt).value;
      var sorted := SortBy(ByPlayer, result.participants);
      var room := RoomOf(model, sorted, estimates);
      && |updates| == |sorted| == |room|
      && forall i :: 0 <= i < |updates| ==>
        && updates[i].playerId == sorted[i].playerId && sorted[i].playerId in estimates
        && updates[i].before == estimates[sorted[i].playerId] && updates[i].before.uncertainty > 0.0
        && updates[i].sourceEventId == result.eventId && updates[i].processedAt == processedAt
        && room[i] == Entry(sorted[i].playerId, sorted[i].place, estimates[sorted[i].playerId])
        && MovesBy(
          model, updates[i].before, updates[i].after, Gradient(model, room, i, |room|),
          Information(model, room, i, |room|), processedAt)
  {
    if Updatable(model, result, estimates, processedAt) {
      var sorted := SortBy(ByPlayer, result.participants);
      var room := RoomOf(model, sorted, estimates);
      RoomIs(model, sorted, estimates);
      hide Updatable, MovesBy, After, Gradient, Information, RoomOf, SortBy;
      forall i | 0 <= i < |room|
        ensures room[i].before.uncertainty > 0.0
        ensures MovesBy(
          model, room[i].before, After(model, room, i, processedAt), Gradient(model, room, i, |room|),
          Information(model, room, i, |room|), processedAt)
      {
        AfterMoves(model, room, i, processedAt);
      }
    }
  }

  /** An update is possible exactly for a well formed result that is available by then,
      if everybody brings a rating of this model within its bounds. */
  lemma UpdateSucceedsIff(
    model: Baseline, result: MatchResult, estimates: map<Id, Estimate>, processedAt: Time)
    requires model.Valid()
    ensures Updated(model, result, estimates, processedAt).Ok? <==>
      && result.Valid() && processedAt != 0 && result.availableAt <= processedAt
      && forall i :: 0 <= i < |result.participants| ==>
        && result.participants[i].playerId in estimates
        && var e := estimates[result.participants[i].playerId];
          && e.Valid() && e.modelVersion == model.config.version && e.games < MAX_UINT64
          && model.config.minimumUncertainty <= e.uncertainty <= model.config.maximumUncertainty
  {
    hide MatchResult.Valid, Estimate.Valid, SortBy, UpdatesOf;
    if result.Valid() {
      ParticipantsDistinct(result);
      SortByLaws(ByPlayer, result.participants);
      hide AscendingBy, DistinctBy;
      forall p ensures p in SortBy(ByPlayer, result.participants) <==> p in result.participants {
      }
      if forall p :: p in SortBy(ByPlayer, result.participants) ==> Rated(model, estimates, p.playerId) {
        forall i | 0 <= i < |result.participants|
          ensures Rated(model, estimates, result.participants[i].playerId)
        {
          assert result.participants[i] in SortBy(ByPlayer, result.participants);
        }
      }
    }
  }

  lemma ParticipantsDistinct(result: MatchResult)
    requires result.Valid()
    ensures DistinctBy(ByPlayer, result.participants)
  {
  }

  lemma RoomIs(model: Baseline, sorted: seq<ParticipantResult>, estimates: map<Id, Estimate>)
    requires model.Valid() && forall p :: p in sorted ==> Rated(model, estimates, p.playerId)
    ensures var room := RoomOf(model, sorted, estimates);
      forall i :: 0 <= i < |room| ==>
        && sorted[i].playerId in estimates
        && room[i] == Entry(sorted[i].playerId, sorted[i].place, estimates[sorted[i].playerId])
  {
    assert forall i :: 0 <= i < |sorted| ==> Rated(model, estimates, sorted[i].playerId);
  }
}

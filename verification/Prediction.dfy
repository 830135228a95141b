/** The baseline model's placement prediction. */
module Prediction {
  import opened Common
  import opened RatingTypes
  import opened Analysis
  import opened BaselineModel
  import opened BitMask
  import opened SortedIds
  import opened PlackettLuce
  import opened PlacementDp
  import opened PlacementLaws

  const MAXIMUM_LOGIT_RANGE := 700.0

  /** The most negative 64-bit float, where the search for the top logit starts. */
  function LowestFloat(): real {
    -((Pow2(1024) - Pow2(971)) as real)
  }

  ghost predicate PredictionInput(model: Baseline, estimates: seq<Estimate>) {
    model.Valid() && |estimates| > 0 && forall e :: e in estimates ==> model.Accepts(e)
  }

  // ---------------------------------------------------------------------
  // Weights
  // ---------------------------------------------------------------------

  ghost function LowestMean(es: seq<Estimate>, k: nat): real
    requires |es| > 0 && k <= |es|
  {
    if k == 0 then es[0].mean else MinReal(LowestMean(es, k - 1), es[k - 1].mean)
  }

  ghost function HighestMean(es: seq<Estimate>, k: nat): real
    requires |es| > 0 && k <= |es|
  {
    if k == 0 then es[0].mean else MaxReal(HighestMean(es, k - 1), es[k - 1].mean)
  }

  ghost function VarianceNorm(model: Baseline, es: seq<Estimate>, k: nat): real
    requires k <= |es|
  {
    if k == 0 then 0.0
    else
      var e := es[k - 1];
      model.math.Hypot(VarianceNorm(model, es, k - 1), model.math.Hypot(e.uncertainty, model.Deviation(e)))
  }

  ghost function RoomScale(model: Baseline, es: seq<Estimate>): (scale: real)
    requires PredictionInput(model, es)
    ensures scale > 0.0
  {
    VarianceNormPositive(model, es, |es|);
    RootLaws(model.math, 2.0);
    RootLaws(model.math, |es| as real);
    ScalePositive(model.math.sqrt(2.0), VarianceNorm(model, es, |es|), model.math.sqrt(|es| as real));
    Averaged(model.math.sqrt(2.0), VarianceNorm(model, es, |es|), model.math.sqrt(|es| as real))
  }

  function Averaged(root: real, norm: real, players: real): real
    requires players > 0.0
  {
    root * norm / players
  }

  lemma ScalePositive(a: real, b: real, c: real)
    requires a > 0.0 && b > 0.0 && c > 0.0
    ensures a * b / c > 0.0
  {
    PositiveProduct(a, b);
  }

  /** Uncertainty is positive, so the scale never degenerates. */
  lemma {:induction false} VarianceNormPositive(model: Baseline, es: seq<Estimate>, k: nat)
    requires PredictionInput(model, es) && k <= |es|
    ensures VarianceNorm(model, es, k) >= 0.0 && (k > 0 ==> VarianceNorm(model, es, k) > 0.0)
  {
    hide Functions.Hypot;
    if k > 0 {
      VarianceNormPositive(model, es, k - 1);
      var e := es[k - 1];
      assert model.Accepts(e);
      HypotLaws(model.math, e.uncertainty, model.Deviation(e));
      HypotLaws(model.math, VarianceNorm(model, es, k - 1), model.math.Hypot(e.uncertainty, model.Deviation(e)));
    }
  }

  ghost function Logit(model: Baseline, es: seq<Estimate>, i: nat): real
    requires PredictionInput(model, es) && i < |es|
  {
    var center := LowestMean(es, |es|) / 2.0 + HighestMean(es, |es|) / 2.0;
    Standardized(es[i].mean, center, RoomScale(model, es))
  }

  function Standardized(mean: real, center: real, scale: real): real
    requires scale > 0.0
  {
    (mean - center) / scale
  }

  ghost function TopLogit(model: Baseline, es: seq<Estimate>, k: nat): real
    requires PredictionInput(model, es) && k <= |es|
  {
    if k == 0 then LowestFloat() else MaxReal(TopLogit(model, es, k - 1), Logit(model, es, k - 1))
  }

  ghost function Weight(model: Baseline, es: seq<Estimate>, i: nat): real
    requires PredictionInput(model, es) && i < |es|
  {
    model.math.exp(MaxReal(Logit(model, es, i) - TopLogit(model, es, |es|), -MAXIMUM_LOGIT_RANGE))
  }

  ghost function Weights(model: Baseline, es: seq<Estimate>): (w: seq<real>)
    requires PredictionInput(model, es)
    ensures |w| == |es| && Positive(w)
  {
    seq(|es|, i requires 0 <= i < |es| => Weight(model, es, i))
  }

  lemma LogitMonotone(model: Baseline, es: seq<Estimate>, a: nat, b: nat)
    requires PredictionInput(model, es) && a < |es| && b < |es| && es[a].mean >= es[b].mean
    ensures Logit(model, es, a) >= Logit(model, es, b)
  {
    var center := LowestMean(es, |es|) / 2.0 + HighestMean(es, |es|) / 2.0;
    QuotientMonotone(es[b].mean - center, es[a].mean - center, RoomScale(model, es));
  }

  /** Weights follow the means alone: individual uncertainty and performance
      deviation change the room's scale, never who is ahead of whom. */
  lemma WeightMonotone(model: Baseline, es: seq<Estimate>, a: nat, b: nat)
    requires PredictionInput(model, es) && a < |es| && b < |es| && es[a].mean >= es[b].mean
    ensures Weights(model, es)[a] >= Weights(model, es)[b]
  {
    LogitMonotone(model, es, a, b);
    hide Logit, TopLogit;
    var x := MaxReal(Logit(model, es, b) - TopLogit(model, es, |es|), -MAXIMUM_LOGIT_RANGE);
    var y := MaxReal(Logit(model, es, a) - TopLogit(model, es, |es|), -MAXIMUM_LOGIT_RANGE);
    assert model.math.exp(x) <= model.math.exp(y);
  }

  // ---------------------------------------------------------------------
  // The top of the room
  // ---------------------------------------------------------------------

  lemma {:induction false} MeansBound(es: seq<Estimate>, k: nat)
    requires |es| > 0 && k <= |es|
    ensures LowestMean(es, k) <= HighestMean(es, k)
    ensures forall i :: 0 <= i < k ==> es[i].mean <= HighestMean(es, k)
    ensures exists i :: 0 <= i < |es| && es[i].mean == HighestMean(es, k)
  {
    if k == 0 {
      assert es[0].mean == HighestMean(es, k);
    } else {
      MeansBound(es, k - 1);
      var top :| 0 <= top < |es| && es[top].mean == HighestMean(es, k - 1);
      assert es[k - 1].mean == HighestMean(es, k) || es[top].mean == HighestMean(es, k);
    }
  }

  lemma {:induction false} PowersOrdered(a: nat, b: nat)
    requires a <= b
    ensures Pow2(a) <= Pow2(b)
  {
    if a < b {
      PowersOrdered(a, b - 1);
    }
  }

  lemma {:induction false} TopLogitBounds(model: Baseline, es: seq<Estimate>, k: nat)
    requires PredictionInput(model, es) && k <= |es|
    ensures TopLogit(model, es, k) >= LowestFloat()
    ensures forall i: nat :: i < k ==> Logit(model, es, i) <= TopLogit(model, es, k)
    ensures TopLogit(model, es, k) == LowestFloat()
      || exists i: nat :: i < k && Logit(model, es, i) == TopLogit(model, es, k)
  {
    hide Logit, LowestFloat;
    if k > 0 {
      TopLogitBounds(model, es, k - 1);
      var before, last, now := TopLogit(model, es, k - 1), Logit(model, es, k - 1), TopLogit(model, es, k);
      assert now == MaxReal(before, last);
      hide TopLogit, PredictionInput;
    }
  }

  /** A room's best player has weight one, whatever the ratings. */
  lemma BestWeightIsOne(model: Baseline, es: seq<Estimate>, best: nat)
    requires PredictionInput(model, es) && best < |es|
    requires forall i :: 0 <= i < |es| ==> es[i].mean <= es[best].mean
    ensures Weights(model, es)[best] == 1.0
  {
    BestLogitIsTop(model, es, best);
    hide Logit, TopLogit, PredictionInput;
    assert MaxReal(0.0, -MAXIMUM_LOGIT_RANGE) == 0.0;
  }

  lemma BestLogitIsTop(model: Baseline, es: seq<Estimate>, best: nat)
    requires PredictionInput(model, es) && best < |es|
    requires forall i :: 0 <= i < |es| ==> es[i].mean <= es[best].mean
    ensures Logit(model, es, best) == TopLogit(model, es, |es|)
  {
    BestLogit(model, es, best);
    TopLogitBounds(model, es, |es|);
    LowestIsNegative();
    hide *;
    if TopLogit(model, es, |es|) != Logit(model, es, best) {
      assert TopLogit(model, es, |es|) != LowestFloat();
      var i: nat :| i < |es| && Logit(model, es, i) == TopLogit(model, es, |es|);
      LogitMonotone(model, es, best, i);
    }
  }

  lemma LowestIsNegative()
    ensures LowestFloat() <= 0.0
  {
    PowersOrdered(971, 1024);
    hide Pow2;
  }

  lemma BestLogit(model: Baseline, es: seq<Estimate>, best: nat)
    requires PredictionInput(model, es) && best < |es|
    requires forall i :: 0 <= i < |es| ==> es[i].mean <= es[best].mean
    ensures Logit(model, es, best) >= 0.0
  {
    MeansBound(es, |es|);
    var center := LowestMean(es, |es|) / 2.0 + HighestMean(es, |es|) / 2.0;
    assert es[best].mean >= center;
    QuotientMonotone(0.0, es[best].mean - center, RoomScale(model, es));
  }

  // ---------------------------------------------------------------------
  // Prediction
  // ---------------------------------------------------------------------

  ghost predicate Predictable(model: Baseline, request: PredictionRequest) {
    && request.roomId != 0 && request.modeId != 0 && request.generatedAt != 0
    && MIN_ROOM_SIZE <= |request.estimates| <= MAX_ROOM_SIZE
    && forall id :: id in request.estimates ==>
      && id != 0 && model.Accepts(request.estimates[id])
      && request.estimates[id].updatedAt <= request.generatedAt
  }

  /** The ratings in the order of the player ids. */
  ghost function Lineup(estimates: map<Id, Estimate>): (es: seq<Estimate>)
    ensures |es| == |estimates|
  {
    var ids := SortedList(estimates.Keys);
    seq(|ids|, i requires 0 <= i < |ids| =>
      assert ids[i] in Ids(ids);
      estimates[ids[i]])
  }

  ghost function PlacementOf(w: seq<real>, playerId: Id, i: nat): PlacementPrediction
    requires Positive(w) && i < |w|
  {
    PlacementPrediction(
      playerId,
      seq(|w|, k requires 0 <= k < |w| => PlaceProbability(w, i, k)),
      PlaceProbability(w, i, 0),
      ExpectedPlace(w, i))
  }

  lemma LineupAccepted(model: Baseline, request: PredictionRequest)
    requires model.Valid() && Predictable(model, request)
    ensures PredictionInput(model, Lineup(request.estimates))
  {
    var ids := SortedList(request.estimates.Keys);
    forall e | e in Lineup(request.estimates) ensures model.Accepts(e) {
      var i :| 0 <= i < |ids| && Lineup(request.estimates)[i] == e;
      assert ids[i] in Ids(ids);
    }
  }

  /** The prediction of a valid model, for every request. */
  ghost function Predicted(model: Baseline, request: PredictionRequest): Result<RoomPrediction>
    requires model.Valid()
  {
    if !Predictable(model, request) then Err(InvalidInput)
    else
      LineupAccepted(model, request);
      var ids := SortedList(request.estimates.Keys);
      var w := Weights(model, Lineup(request.estimates));
      Ok(RoomPrediction(
           request.roomId, request.modeId, model.config.version, request.generatedAt,
           Participants(ids, w)))
  }

  /** The weight loops. The scale is always positive, so the check on it never
      fails. */
  method PlacementWeights(model: Baseline, estimates: seq<Estimate>) returns (weights: seq<real>)
    requires PredictionInput(model, estimates)
    ensures weights == Weights(model, estimates)
  {
    hide Averaged, Functions.Hypot, LowestFloat, Standardized;
    var minimumMean, maximumMean, varianceNorm := estimates[0].mean, estimates[0].mean, 0.0;
    for k := 0 to |estimates|
      invariant minimumMean == LowestMean(estimates, k) && maximumMean == HighestMean(estimates, k)
      invariant varianceNorm == VarianceNorm(model, estimates, k)
    {
      var e := estimates[k];
      minimumMean := MinReal(minimumMean, e.mean);
      maximumMean := MaxReal(maximumMean, e.mean);
      varianceNorm := model.math.Hypot(varianceNorm, model.math.Hypot(e.uncertainty, model.Deviation(e)));
    }
    RootLaws(model.math, |estimates| as real);
    var roomScale := Averaged(model.math.sqrt(2.0), varianceNorm, model.math.sqrt(|estimates| as real));
    weights := WeightsAround(model, estimates, minimumMean / 2.0 + maximumMean / 2.0, roomScale);
  }

  method WeightsAround(model: Baseline, estimates: seq<Estimate>, center: real, roomScale: real)
    returns (weights: seq<real>)
    requires PredictionInput(model, estimates)
    requires center == LowestMean(estimates, |estimates|) / 2.0 + HighestMean(estimates, |estimates|) / 2.0
    requires roomScale == RoomScale(model, estimates)
    ensures weights == Weights(model, estimates)
  {
    hide Functions.Hypot, RoomScale, LowestMean, HighestMean, LowestFloat, Standardized;
    var logits: seq<real> := [];
    var maximumLogit := LowestFloat();
    for k := 0 to |estimates|
      invariant logits == seq(k, i requires 0 <= i < k => Logit(model, estimates, i))
      invariant maximumLogit == TopLogit(model, estimates, k)
    {
      var logit := Standardized(estimates[k].mean, center, roomScale);
      logits := logits + [logit];
      maximumLogit := MaxReal(maximumLogit, logit);
    }
    hide Logit, TopLogit;
    weights := [];
    for k := 0 to |logits|
      invariant weights == Weights(model, estimates)[..k]
    {
      var normalized := MaxReal(logits[k] - maximumLogit, -MAXIMUM_LOGIT_RANGE);
      weights := weights + [model.math.exp(normalized)];
    }
  }

  ghost predicate Listed(model: Baseline, request: PredictionRequest, id: Id)
    requires id in request.estimates
  {
    id != 0 && model.Accepts(request.estimates[id]) && request.estimates[id].updatedAt <= request.generatedAt
  }

  method Predict(model: Baseline, request: PredictionRequest) returns (result: Result<RoomPrediction>)
    requires model.Valid()
    ensures result == Predicted(model, request)
  {
    hide *;
    var valid, playerIds, estimates := OrderedEstimates(model, request);
    if !valid {
      Unpredictable(model, request);
      return Err(InvalidInput);
    }
    LineupAccepted(model, request);
    var weights := PlacementWeights(model, estimates);
    PredictedUnfold(model, request, playerIds, weights);
    var distributions := PlackettLuceDistributions(weights);
    var participants := Tabulate(playerIds, weights, distributions);
    result := Ok(RoomPrediction(
                   request.roomId, request.modeId, model.config.version, request.generatedAt, participants));
  }

  lemma Unpredictable(model: Baseline, request: PredictionRequest)
    requires model.Valid() && !Predictable(model, request)
    ensures Predicted(model, request) == Err(InvalidInput)
  {
    hide Predictable;
  }

  /** Validates the request and puts its ratings into the order of the player ids. */
  method OrderedEstimates(model: Baseline, request: PredictionRequest)
    returns (valid: bool, playerIds: seq<Id>, estimates: seq<Estimate>)
    requires model.Valid()
    ensures valid == Predictable(model, request)
    ensures valid ==> playerIds == SortedList(request.estimates.Keys) && estimates == Lineup(request.estimates)
  {
    playerIds, estimates := [], [];
    if request.roomId == 0 || request.modeId == 0 || request.generatedAt == 0 {
      return false, playerIds, estimates;
    }
    if |request.estimates| < MIN_ROOM_SIZE || |request.estimates| > MAX_ROOM_SIZE {
      return false, playerIds, estimates;
    }
    playerIds := Sort(request.estimates.Keys);
    SortedListUnique(request.estimates.Keys, playerIds);
    ListedIds(request, playerIds);
    for k := 0 to |playerIds|
      invariant |estimates| == k && forall i :: 0 <= i < k ==> estimates[i] == request.estimates[playerIds[i]]
      invariant forall i :: 0 <= i < k ==> Listed(model, request, playerIds[i])
    {
      var playerId := playerIds[k];
      var estimate := request.estimates[playerId];
      if playerId == 0 || !model.Accepts(estimate) || estimate.updatedAt > request.generatedAt {
        assert !Listed(model, request, playerId);
        return false, playerIds, estimates;
      }
      estimates := estimates + [estimate];
    }
    valid := true;
    assert estimates == Lineup(request.estimates);
  }

  lemma ListedIds(request: PredictionRequest, ids: seq<Id>)
    requires IsSortedList(request.estimates.Keys, ids)
    ensures forall i :: 0 <= i < |ids| ==> ids[i] in request.estimates
    ensures forall id :: id in request.estimates ==> id in ids
  {
    forall i | 0 <= i < |ids| ensures ids[i] in request.estimates {
      assert ids[i] in Ids(ids);
    }
    forall id | id in request.estimates ensures id in ids {
      assert id in Ids(ids);
    }
  }

  ghost function Participants(ids: seq<Id>, w: seq<real>): seq<PlacementPrediction>
    requires Positive(w) && |ids| == |w|
  {
    seq(|ids|, i requires 0 <= i < |ids| => PlacementOf(w, ids[i], i))
  }

  lemma PredictedUnfold(model: Baseline, request: PredictionRequest, ids: seq<Id>, w: seq<real>)
    requires model.Valid() && Predictable(model, request) && ids == SortedList(request.estimates.Keys)
    requires PredictionInput(model, Lineup(request.estimates)) && w == Weights(model, Lineup(request.estimates))
    ensures |ids| == |w|
    ensures Predicted(model, request)
      == Ok(RoomPrediction(request.roomId, request.modeId, model.config.version, request.generatedAt,
        Participants(ids, w)))
  {
  }

  /** The rows of the table become the participants' predictions. */
  method Tabulate(playerIds: seq<Id>, weights: seq<real>, distributions: array2<real>)
    returns (participants: seq<PlacementPrediction>)
    requires Positive(weights) && |playerIds| == |weights|
    requires distributions.Length0 == |weights| && distributions.Length1 == |weights|
    requires forall i, k :: 0 <= i < |weights| && 0 <= k < |weights| ==>
      distributions[i, k] == PlaceProbability(weights, i, k)
    ensures participants == Participants(playerIds, weights)
  {
    hide PlaceProbability;
    participants := [];
    for i := 0 to |playerIds|
      invariant participants == Participants(playerIds, weights)[..i]
    {
      var placeProbabilities :=
        seq(|weights|, k requires 0 <= k < |weights| reads distributions => distributions[i, k]);
      var expectedPlace := 0.0;
      for k := 0 to |placeProbabilities|
        invariant expectedPlace == ExpectedPlaceUpTo(weights, i, k)
      {
        expectedPlace := expectedPlace + ((k + 1) as real) * placeProbabilities[k];
      }
      assert placeProbabilities == PlacementOf(weights, playerIds[i], i).placeProbabilities;
      participants := participants
        + [PlacementPrediction(playerIds[i], placeProbabilities, placeProbabilities[0], expectedPlace)];
    }
  }
}

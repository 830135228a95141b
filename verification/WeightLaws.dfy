/** What the placement weights mean: how far a rating is behind the best one, measured
    in the common spread of the room. */
module WeightLaws {
  import opened Common
  import opened RatingTypes
  import opened Analysis
  import opened BaselineModel
  import opened Prediction

  /** A prediction is possible exactly for a named room of five to seven players, if
      everybody has a rating of this model within its bounds that is no newer than the
      prediction. */
  lemma PredictSucceedsIff(model: Baseline, request: PredictionRequest)
    requires model.Valid()
    ensures Predicted(model, request).Ok? <==>
      && request.roomId != 0 && request.modeId != 0 && request.generatedAt != 0
      && 5 <= |request.estimates| <= 7
      && forall id :: id in request.estimates ==>
        && var e := request.estimates[id];
          && id != 0 && e.Valid() && e.modelVersion == model.config.version && e.updatedAt <= request.generatedAt
          && model.config.minimumUncertainty <= e.uncertainty <= model.config.maximumUncertainty
  {
    hide Participants, Weights, Lineup, Estimate.Valid;
  }

  /** All variances of the room, of skill and of performance. */
  ghost function TotalVariance(model: Baseline, es: seq<Estimate>, k: nat): real
    requires k <= |es|
  {
    if k == 0 then 0.0
    else
      TotalVariance(model, es, k - 1)
      + (es[k - 1].uncertainty * es[k - 1].uncertainty + model.Deviation(es[k - 1]) * model.Deviation(es[k - 1]))
  }

  lemma {:induction false} NormIsTotal(model: Baseline, es: seq<Estimate>, k: nat)
    requires PredictionInput(model, es) && k <= |es|
    ensures VarianceNorm(model, es, k) * VarianceNorm(model, es, k) == TotalVariance(model, es, k)
  {
    hide Functions.Hypot, PredictionInput;
    if k > 0 {
      NormIsTotal(model, es, k - 1);
      LawfulInput(model, es);
      var e := es[k - 1];
      HypotLaws(model.math, e.uncertainty, model.Deviation(e));
      HypotLaws(model.math, VarianceNorm(model, es, k - 1), model.math.Hypot(e.uncertainty, model.Deviation(e)));
    } else {
      assert 0.0 * 0.0 == 0.0;
    }
  }

  lemma LawfulInput(model: Baseline, es: seq<Estimate>)
    requires PredictionInput(model, es)
    ensures model.math.Lawful() && |es| > 0
  {
  }

  /** The scale of a room is the root of twice its average variance. */
  lemma ScaleIsAverage(model: Baseline, es: seq<Estimate>)
    requires PredictionInput(model, es)
    ensures RoomScale(model, es) > 0.0
    ensures RoomScale(model, es) * RoomScale(model, es) * |es| as real == 2.0 * TotalVariance(model, es, |es|)
  {
    hide PredictionInput, VarianceNorm;
    LawfulInput(model, es);
    NormIsTotal(model, es, |es|);
    RootLaws(model.math, 2.0);
    RootLaws(model.math, |es| as real);
    var r, v, n := model.math.sqrt(2.0), VarianceNorm(model, es, |es|), model.math.sqrt(|es| as real);
    SquareOfAverage(r, v, n);
    ScaleUnfolds(model, es);
  }

  lemma ScaleUnfolds(model: Baseline, es: seq<Estimate>)
    requires PredictionInput(model, es)
    ensures model.math.sqrt(|es| as real) > 0.0
    ensures RoomScale(model, es)
      == Averaged(model.math.sqrt(2.0), VarianceNorm(model, es, |es|), model.math.sqrt(|es| as real))
  {
    RootLaws(model.math, |es| as real);
    hide VarianceNorm, Averaged;
  }

  lemma SquareOfAverage(r: real, v: real, n: real)
    requires n > 0.0
    ensures Averaged(r, v, n) * Averaged(r, v, n) * (n * n) == (r * r) * (v * v)
  {
    var q := r * v / n;
    assert q * n == r * v;
    assert q * q * (n * n) == (q * n) * (q * n);
    assert (r * v) * (r * v) == (r * r) * (v * v);
  }

  lemma DifferenceStandardized(a: real, b: real, center: real, scale: real)
    requires scale > 0.0
    ensures Standardized(a, center, scale) - Standardized(b, center, scale) == (a - b) / scale
  {
  }

  lemma LogitDistance(model: Baseline, es: seq<Estimate>, best: nat, i: nat)
    requires PredictionInput(model, es) && best < |es| && i < |es|
    ensures Logit(model, es, i) - Logit(model, es, best) == (es[i].mean - es[best].mean) / RoomScale(model, es)
  {
    hide Standardized, RoomScale, LowestMean, HighestMean, PredictionInput;
    ScaleIsAverage(model, es);
    var center := LowestMean(es, |es|) / 2.0 + HighestMean(es, |es|) / 2.0;
    DifferenceStandardized(es[i].mean, es[best].mean, center, RoomScale(model, es));
  }

  /** A player's weight is the exponential of the distance to the best mean in units of
      the room's scale, cut off at the maximum range. */
  lemma WeightIsDistance(model: Baseline, es: seq<Estimate>, best: nat, i: nat)
    requires PredictionInput(model, es) && best < |es| && i < |es|
    requires forall j :: 0 <= j < |es| ==> es[j].mean <= es[best].mean
    ensures Weights(model, es)[i]
      == model.math.exp(MaxReal((es[i].mean - es[best].mean) / RoomScale(model, es), -MAXIMUM_LOGIT_RANGE))
  {
    hide Logit, RoomScale, TopLogit, PredictionInput;
    BestLogitIsTop(model, es, best);
    LogitDistance(model, es, best, i);
  }

  lemma RootOrder(a: real, b: real, n: real, x: real, y: real)
    requires a > 0.0 && b > 0.0 && n > 0.0 && a * a * n == x && b * b * n == y && x <= y
    ensures a <= b
  {
    CancelFactor(a * a, b * b, n);
    SquaresOrder(a, b);
  }

  lemma FlatterQuotient(d: real, s: real, t: real)
    requires d <= 0.0 && 0.0 < s <= t
    ensures d / s <= d / t
  {
    var q := d / t;
    assert q * t == d && q <= 0.0;
    NonNegativeProduct(-q, t - s);
    assert q * s >= d;
    var p := d / s;
    assert p * s == d;
    CancelFactor(p, q, s);
  }

  /** Uncertainty flattens a prediction: with the same means and more variance in the
      room nobody's weight gets smaller, while the best one's stays one. */
  lemma UncertaintyFlattens(model: Baseline, es: seq<Estimate>, fs: seq<Estimate>, i: nat)
    requires PredictionInput(model, es) && PredictionInput(model, fs) && |es| == |fs| && i < |es|
    requires forall j :: 0 <= j < |es| ==> es[j].mean == fs[j].mean
    requires TotalVariance(model, es, |es|) <= TotalVariance(model, fs, |fs|)
    ensures Weights(model, es)[i] <= Weights(model, fs)[i]
  {
    hide PredictionInput, Weights, RoomScale, TotalVariance;
    LawfulInput(model, es);
    var best := BestOf(es, |es|);
    WeightIsDistance(model, es, best, i);
    WeightIsDistance(model, fs, best, i);
    ScaleIsAverage(model, es);
    ScaleIsAverage(model, fs);
    var s, t, d := RoomScale(model, es), RoomScale(model, fs), es[i].mean - es[best].mean;
    RootOrder(s, t, |es| as real, 2.0 * TotalVariance(model, es, |es|), 2.0 * TotalVariance(model, fs, |fs|));
    FlatterQuotient(d, s, t);
    LawfulExp(model.math, MaxReal(d / s, -MAXIMUM_LOGIT_RANGE), MaxReal(d / t, -MAXIMUM_LOGIT_RANGE));
  }

  lemma LawfulExp(f: Functions, x: real, y: real)
    requires f.Lawful() && x <= y
    ensures f.exp(x) <= f.exp(y)
  {
  }

  lemma {:induction false} BestOf(es: seq<Estimate>, k: nat) returns (best: nat)
    requires 0 < k <= |es|
    ensures best < k && forall j :: 0 <= j < k ==> es[j].mean <= es[best].mean
  {
    best := 0;
    if k > 1 {
      var before := BestOf(es, k - 1);
      best := if es[k - 1].mean > es[before].mean then k - 1 else before;
    }
  }
}

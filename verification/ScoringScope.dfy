/** Which observations are scored at all, without the order of the checks. */
module ScoringScope {
  import opened Common
  import opened RatingTypes
  import opened Totals
  import opened Calibration

  // ---------------------------------------------------------------------
  // One distribution
  // ---------------------------------------------------------------------

  /** The places weighted with their probabilities. */
  function WeightedPlaces(ps: seq<real>): seq<real> {
    seq(|ps|, i requires 0 <= i < |ps| => Weighted(i + 1, ps[i]))
  }

  function Weighted(place: nat, q: real): real {
    place as real * q
  }

  /** Probabilities for every place that sum to one, with the expected place and the
      chance to win that they imply. */
  ghost predicate SoundDistribution(p: PlacementPrediction, places: nat) {
    var ps := p.placeProbabilities;
    && p.playerId != 0 && |ps| == places > 0
    && (forall q :: q in ps ==> 0.0 <= q <= 1.0)
    && 1.0 - PREDICTION_TOLERANCE <= SumBy(Number, ps) <= 1.0 + PREDICTION_TOLERANCE
    && p.expectedPlace - PREDICTION_TOLERANCE
       <= SumBy(Number, WeightedPlaces(ps)) <= p.expectedPlace + PREDICTION_TOLERANCE
    && ps[0] - PREDICTION_TOLERANCE <= p.firstPlaceProbability <= ps[0] + PREDICTION_TOLERANCE
  }

  lemma {:induction false} SumsAre(ps: seq<real>, k: nat)
    requires k <= |ps| == |WeightedPlaces(ps)|
    ensures ProbabilitySum(ps, k) == SumBy(Number, ps[..k])
    ensures ExpectedPlaceOf(ps, k) == SumBy(Number, WeightedPlaces(ps)[..k])
  {
    hide WeightedPlaces, SumBy, Weighted;
    if k > 0 {
      SumsAre(ps, k - 1);
      SumsStep(ps, k);
    } else {
      SumOfNothing();
    }
  }

  lemma SumOfNothing()
    ensures SumBy(Number, []) == 0.0
  {
  }

  lemma SumsStep(ps: seq<real>, k: nat)
    requires 0 < k <= |ps|
    ensures |WeightedPlaces(ps)| == |ps|
    ensures SumBy(Number, ps[..k]) == SumBy(Number, ps[..k - 1]) + ps[k - 1]
    ensures ExpectedPlaceOf(ps, k) == ExpectedPlaceOf(ps, k - 1) + Weighted(k, ps[k - 1])
    ensures SumBy(Number, WeightedPlaces(ps)[..k])
      == SumBy(Number, WeightedPlaces(ps)[..k - 1]) + Weighted(k, ps[k - 1])
  {
    hide SumBy;
    var ws := WeightedPlaces(ps);
    assert ps[..k] == ps[..k - 1] + [ps[k - 1]];
    assert ws[..k] == ws[..k - 1] + [ws[k - 1]];
    SumOne(Number, ps[..k - 1], ps[k - 1]);
    SumOne(Number, ws[..k - 1], ws[k - 1]);
  }

  lemma WholeSums(ps: seq<real>)
    ensures ProbabilitySum(ps, |ps|) == SumBy(Number, ps)
    ensures ExpectedPlaceOf(ps, |ps|) == SumBy(Number, WeightedPlaces(ps))
  {
    assert |WeightedPlaces(ps)| == |ps|;
    assert ps[..|ps|] == ps && WeightedPlaces(ps)[..|ps|] == WeightedPlaces(ps);
    hide SumBy, ProbabilitySum, ExpectedPlaceOf, WeightedPlaces;
    SumsAre(ps, |ps|);
  }

  lemma WithinIff(x: real, y: real, tolerance: real)
    ensures Abs(x - y) <= tolerance <==> y - tolerance <= x <= y + tolerance
  {
  }

  lemma EachIsProbability(ps: seq<real>)
    ensures (forall q :: q in ps ==> 0.0 <= q <= 1.0) <==> (forall i :: 0 <= i < |ps| ==> 0.0 <= ps[i] <= 1.0)
  {
    if forall q :: q in ps ==> 0.0 <= q <= 1.0 {
      forall i | 0 <= i < |ps| ensures 0.0 <= ps[i] <= 1.0 {
        assert ps[i] in ps;
      }
    }
  }

  lemma DistributionIff(p: PlacementPrediction, places: nat)
    ensures PlacementValid(p, places) <==> SoundDistribution(p, places)
  {
    hide SumBy, ProbabilitySum, ExpectedPlaceOf, WeightedPlaces, Abs, Number;
    var ps := p.placeProbabilities;
    WholeSums(ps);
    WithinIff(SumBy(Number, ps), 1.0, PREDICTION_TOLERANCE);
    WithinIff(SumBy(Number, WeightedPlaces(ps)), p.expectedPlace, PREDICTION_TOLERANCE);
    EachIsProbability(ps);
    if |ps| > 0 {
      WithinIff(p.firstPlaceProbability, ps[0], PREDICTION_TOLERANCE);
      WithinIff(ps[0], p.firstPlaceProbability, PREDICTION_TOLERANCE);
    }
  }

  // ---------------------------------------------------------------------
  // One room
  // ---------------------------------------------------------------------

  /** The prediction is of this room, was made before its game was over, and has one
      sound distribution for each of the players who took part. */
  ghost predicate SoundPair(o: Observation) {
    var result, ps := o.result, o.prediction.participants;
    && result.Valid()
    && o.prediction.roomId == result.roomId && o.prediction.modeId == result.modeId
    && o.prediction.modelVersion != 0
    && o.prediction.generatedAt != 0 && o.prediction.generatedAt <= result.finishedAt
    && |ps| == |result.participants|
    && (forall i, j :: 0 <= i < j < |ps| ==> ps[i].playerId != ps[j].playerId)
    && (forall p :: p in ps ==>
      && SoundDistribution(p, |result.participants|)
      && exists q :: q in result.participants && q.playerId == p.playerId)
  }

  lemma {:induction false} PlaceKeys(ps: seq<ParticipantResult>, k: nat)
    requires k <= |ps|
    ensures forall id :: id in Places(ps, k) <==> exists q :: q in ps[..k] && q.playerId == id
  {
    if k > 0 {
      PlaceKeys(ps, k - 1);
      assert ps[..k] == ps[..k - 1] + [ps[k - 1]];
    }
  }

  lemma {:induction false} PlacesSize(ps: seq<ParticipantResult>, k: nat)
    requires k <= |ps| && forall i, j :: 0 <= i < j < |ps| ==> ps[i].playerId != ps[j].playerId
    ensures |Places(ps, k)| == k
  {
    if k > 0 {
      PlacesSize(ps, k - 1);
      PlaceKeys(ps, k - 1);
      assert ps[k - 1].playerId !in Places(ps, k - 1);
    }
  }

  lemma {:induction false} IdsSize(ps: seq<PlacementPrediction>)
    requires forall i, j :: 0 <= i < j < |ps| ==> ps[i].playerId != ps[j].playerId
    ensures |PlayerIds(ps)| == |ps|
  {
    if ps != [] {
      var front, last := ps[..|ps| - 1], ps[|ps| - 1];
      IdsSize(front);
      assert ps == front + [last];
      assert PlayerIds(ps) == PlayerIds(front) + {last.playerId};
      assert last.playerId !in PlayerIds(front);
    }
  }

  lemma DistinctParticipants(result: MatchResult)
    requires result.Valid()
    ensures forall i, j :: 0 <= i < j < |result.participants| ==>
      result.participants[i].playerId != result.participants[j].playerId
  {
  }

  lemma AcceptedIff(o: Observation)
    ensures Accepted(SegmentOf(o), o) <==> SoundPair(o)
  {
    hide PlacementValid, SoundDistribution, MatchResult.Valid;
    var ps, rs := o.prediction.participants, o.result.participants;
    forall p ensures PlacementValid(p, |rs|) <==> SoundDistribution(p, |rs|) {
      DistributionIff(p, |rs|);
    }
    assert rs[..|rs|] == rs;
    PlaceKeys(rs, |rs|);
    assert forall p :: p in ps <==> exists i :: 0 <= i < |ps| && ps[i] == p;
    if o.result.Valid() {
      DistinctParticipants(o.result);
      PlacesSize(rs, |rs|);
      if forall i, j :: 0 <= i < j < |ps| ==> ps[i].playerId != ps[j].playerId {
        IdsSize(ps);
      }
    }
  }

  /** A list of observations is scored exactly if there is one, the number of bins is
      between 2 and 100, and all are sound and of one model, mode, rules and size. */
  lemma CalibratedIff(log: real -> real, os: seq<Observation>, n: int)
    ensures Calibrated(log, os, n).Ok? <==>
      && os != [] && 2 <= n <= 100
      && forall o :: o in os ==>
        && SoundPair(o)
        && o.prediction.modelVersion == os[0].prediction.modelVersion
        && o.result.modeId == os[0].result.modeId
        && o.result.scoringRulesVersion == os[0].result.scoringRulesVersion
        && |o.result.participants| == |os[0].result.participants|
  {
    hide Accepted, SoundPair, TallyOf, AllCells, ReportOf;
    forall o ensures Accepted(SegmentOf(o), o) <==> SoundPair(o) {
      AcceptedIff(o);
    }
    if os != [] {
      forall o ensures Accepted(SegmentOf(os[0]), o) <==> SoundPair(o) && SegmentOf(o) == SegmentOf(os[0]) {
        OneSegment(os[0], o);
      }
      assert forall o :: o in os <==> exists i :: 0 <= i < |os| && os[i] == o;
    }
  }

  lemma OneSegment(first: Observation, o: Observation)
    ensures Accepted(SegmentOf(first), o) <==> Accepted(SegmentOf(o), o) && SegmentOf(o) == SegmentOf(first)
  {
    hide PredictionsAccepted, MatchResult.Valid;
  }
}

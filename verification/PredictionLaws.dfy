/** What the baseline predictions mean for players and for the matcher. */
module PredictionLaws {
  import opened Common
  import opened RatingTypes
  import opened MatchTypes
  import opened BaselineModel
  import opened SortedIds
  import opened PlackettLuce
  import opened PlacementLaws
  import opened Prediction
  import opened Eligibility
  import opened Orchestration
  import opened WakeUps

  // ---------------------------------------------------------------------
  // Players
  // ---------------------------------------------------------------------

  /** Probability of one of the first `m` places, read off a prediction. */
  ghost function TopOf(p: PlacementPrediction, m: nat): real
    requires m <= |p.placeProbabilities|
  {
    if m == 0 then 0.0 else TopOf(p, m - 1) + p.placeProbabilities[m - 1]
  }

  lemma {:induction false} TopOfPlacement(w: seq<real>, id: Id, i: nat, m: nat)
    requires Positive(w) && i < |w| && m <= |w|
    ensures TopOf(PlacementOf(w, id, i), m) == TopProbability(w, i, m)
  {
    hide PlaceProbability;
    if m > 0 {
      TopOfPlacement(w, id, i, m - 1);
    }
  }

  /** The two lists behind a prediction. */
  lemma PredictionParts(
      model: Baseline, request: PredictionRequest) returns (ids: seq<Id>, es: seq<Estimate>, w: seq<real>)
    requires model.Valid() && Predicted(model, request).Ok?
    ensures |ids| == |es| == |w| == |request.estimates| && Ascending(ids) && Ids(ids) == request.estimates.Keys
    ensures forall i :: 0 <= i < |ids| ==> ids[i] in request.estimates && es[i] == request.estimates[ids[i]]
    ensures PredictionInput(model, es) && w == Weights(model, es)
    ensures Predicted(model, request).value.participants == Participants(ids, w)
  {
    ids := SortedList(request.estimates.Keys);
    es := Lineup(request.estimates);
    LineupAccepted(model, request);
    w := Weights(model, es);
    ListedIds(request, ids);
    PredictedUnfold(model, request, ids, w);
  }

  /** A player whose mean rating is at least another's is at least as likely to
      finish among the first `m`, for every `m`, is expected no lower, and with an
      equal mean gets the same distribution; uncertainties play no part in it. */
  lemma HigherMeanDominates(model: Baseline, request: PredictionRequest, a: nat, b: nat, m: nat)
    requires model.Valid() && Predicted(model, request).Ok?
    requires var ps := Predicted(model, request).value.participants;
      && a < |ps| && b < |ps| && m <= |request.estimates|
      && ps[a].playerId in request.estimates && ps[b].playerId in request.estimates
      && request.estimates[ps[a].playerId].mean >= request.estimates[ps[b].playerId].mean
    ensures var ps := Predicted(model, request).value.participants;
      && |ps[a].placeProbabilities| == |ps[b].placeProbabilities| == |request.estimates|
      && TopOf(ps[a], m) >= TopOf(ps[b], m)
      && ps[a].firstPlaceProbability >= ps[b].firstPlaceProbability
      && ps[a].expectedPlace <= ps[b].expectedPlace
      && (request.estimates[ps[a].playerId].mean == request.estimates[ps[b].playerId].mean ==>
        ps[a].placeProbabilities == ps[b].placeProbabilities)
  {
    var ids, es, w := PredictionParts(model, request);
    hide Predicted, PredictionInput, Weights;
    WeightMonotone(model, es, a, b);
    HeavierDominates(w, a, b, m);
    HeavierDominates(w, a, b, 1);
    HeavierExpectsBetter(w, a, b);
    TopOfPlacement(w, ids[a], a, m);
    TopOfPlacement(w, ids[b], b, m);
    FirstIsTop(w, a);
    FirstIsTop(w, b);
    if es[a].mean == es[b].mean {
      WeightMonotone(model, es, b, a);
      forall k | 0 <= k < |w| ensures PlaceProbability(w, a, k) == PlaceProbability(w, b, k) {
        EqualWeightsEqualPlaces(w, a, b, k);
      }
    }
    hide PlaceProbability, ExpectedPlace, TopProbability;
  }

  lemma FirstIsTop(w: seq<real>, i: nat)
    requires Positive(w) && i < |w|
    ensures TopProbability(w, i, 1) == PlaceProbability(w, i, 0)
  {
    hide PlaceProbability;
    assert TopProbability(w, i, 0) == 0.0;
  }

  /** Every row of a prediction sums to one, every place is taken by somebody,
      and each probability of winning lies between zero and one. */
  lemma PredictionIsCoherent(model: Baseline, request: PredictionRequest, i: nat, k: nat)
    requires model.Valid() && Predicted(model, request).Ok?
    requires i < |request.estimates| && k < |request.estimates|
    ensures var ps := Predicted(model, request).value.participants;
      && |ps| == |ps[i].placeProbabilities| == |request.estimates|
      && TopOf(ps[i], |ps|) == 1.0
      && PlaceTotal(ps, k, |ps|) == 1.0
      && 0.0 < ps[i].firstPlaceProbability <= 1.0
      && ps[i].placeProbabilities[0] == ps[i].firstPlaceProbability
  {
    var ids, es, w := PredictionParts(model, request);
    hide Predicted, PredictionInput, Weights;
    TopOfPlacement(w, ids[i], i, |w|);
    PlacesSumToOne(w, i);
    RectangularParticipants(ids, w);
    PlaceTotalIsTaken(ids, w, k, |w|);
    PlayersSumToOne(w, k);
    WinBounds(w, i);
    hide PlaceProbability, ExpectedPlace, TopProbability, PlaceTaken;
  }

  lemma WinBounds(w: seq<real>, i: nat)
    requires Positive(w) && i < |w|
    ensures 0.0 < PlaceProbability(w, i, 0) <= 1.0
  {
    PlaceProbabilityIsHit(w, i, 0);
    TopIsPlaced(w, i, 1);
    FirstIsTop(w, i);
    UnplacedNonNegative(w, {}, i, 1);
    hide PlaceProbability, TopProbability, Unplaced;
  }

  ghost predicate Rectangular(ps: seq<PlacementPrediction>, n: nat) {
    forall i :: 0 <= i < |ps| ==> |ps[i].placeProbabilities| == n
  }

  lemma RectangularParticipants(ids: seq<Id>, w: seq<real>)
    requires Positive(w) && |ids| == |w|
    ensures Rectangular(Participants(ids, w), |w|)
  {
    hide PlaceProbability, ExpectedPlace;
  }

  /** Probability that one of the first `m` players takes place `k`. */
  ghost function PlaceTotal(ps: seq<PlacementPrediction>, k: nat, m: nat): real
    requires m <= |ps|
  {
    if m == 0 then 0.0 else PlaceTotal(ps, k, m - 1) + PlaceOf(ps[m - 1], k)
  }

  ghost function PlaceOf(p: PlacementPrediction, k: nat): real {
    if k < |p.placeProbabilities| then p.placeProbabilities[k] else 0.0
  }

  lemma {:induction false} PlaceTotalIsTaken(ids: seq<Id>, w: seq<real>, k: nat, m: nat)
    requires Positive(w) && |ids| == |w| && k < |w| && m <= |w|
    ensures PlaceTotal(Participants(ids, w), k, m) == PlaceTaken(w, k, m)
  {
    hide PlaceProbability, ExpectedPlace;
    if m > 0 {
      PlaceTotalIsTaken(ids, w, k, m - 1);
    }
  }

  lemma {:induction false} FirstPlaceTotalIsTaken(ids: seq<Id>, w: seq<real>, m: nat)
    requires Positive(w) && |ids| == |w| && m <= |w|
    ensures FirstPlaceTotal(Participants(ids, w), m) == if m == 0 then 0.0 else PlaceTaken(w, 0, m)
  {
    hide PlaceProbability, ExpectedPlace;
    if m > 0 {
      FirstPlaceTotalIsTaken(ids, w, m - 1);
    }
  }

  // ---------------------------------------------------------------------
  // The matcher
  // ---------------------------------------------------------------------

  ghost predicate DistinctPlayers(members: seq<Candidate>) {
    forall i, j :: 0 <= i < j < |members| ==> members[i].playerId != members[j].playerId
  }

  ghost predicate PlaysBefore(members: seq<Candidate>, k: nat, id: Id)
    requires k <= |members|
  {
    exists i :: 0 <= i < k && members[i].playerId == id
  }

  /** The request holds exactly the members' ratings. */
  ghost predicate HoldsMembers(members: seq<Candidate>, k: nat, es: map<Id, Estimate>)
    requires k <= |members|
  {
    && |es| == k
    && (forall id :: id in es ==> PlaysBefore(members, k, id))
    && (forall i :: 0 <= i < k ==> members[i].playerId in es && es[members[i].playerId] == members[i].rating)
  }

  lemma {:induction false} EstimatesOfMembers(members: seq<Candidate>, k: nat)
    requires k <= |members| && DistinctPlayers(members)
    ensures HoldsMembers(members, k, EstimatesOf(members, k))
  {
    if k > 0 {
      EstimatesOfMembers(members, k - 1);
      hide DistinctPlayers;
      OneMoreHeld(members, k, EstimatesOf(members, k - 1));
    }
  }

  lemma OneMoreHeld(members: seq<Candidate>, k: nat, before: map<Id, Estimate>)
    requires 0 < k <= |members| && DistinctPlayers(members) && HoldsMembers(members, k - 1, before)
    ensures HoldsMembers(members, k, before[members[k - 1].playerId := members[k - 1].rating])
  {
    var last := members[k - 1];
    var after := before[last.playerId := last.rating];
    assert after.Keys == before.Keys + {last.playerId};
    forall id | id in after ensures PlaysBefore(members, k, id) {
      if id in before {
        assert PlaysBefore(members, k - 1, id);
      } else {
        assert members[k - 1].playerId == id;
      }
    }
  }

  /** The model knows the room's rating version and reads every member. */
  ghost predicate ReadsRoom(model: Baseline, room: RoomView) {
    && model.config.version == room.policy.ratingModelVersion
    && forall m :: m in room.members ==>
      model.config.minimumUncertainty <= m.rating.uncertainty <= model.config.maximumUncertainty
  }

  ghost predicate AtFill(room: RoomView, evaluatedAt: Time) {
    && room.Valid() && |room.members| == room.capacity
    && evaluatedAt != 0 && room.createdAt <= evaluatedAt <= room.deadline
    && SnapshotsBy(room.members, evaluatedAt)
  }

  lemma RequestHoldsMembers(room: RoomView, evaluatedAt: Time)
    requires AtFill(room, evaluatedAt)
    ensures HoldsMembers(room.members, |room.members|, RoomRequest(room, evaluatedAt).estimates)
  {
    assert DistinctPlayers(room.members);
    EstimatesOfMembers(room.members, |room.members|);
  }

  /** What a rating in the request looks like. */
  lemma RequestedRating(model: Baseline, room: RoomView, evaluatedAt: Time, m: Candidate)
    requires AtFill(room, evaluatedAt) && m in room.members
    ensures m.playerId != 0 && m.rating.Valid() && m.rating.updatedAt <= evaluatedAt
    ensures m.rating.modelVersion == room.policy.ratingModelVersion
    ensures var es := RoomRequest(room, evaluatedAt).estimates; m.playerId in es && es[m.playerId] == m.rating
  {
    RequestHoldsMembers(room, evaluatedAt);
  }

  lemma RequestedBySomebody(room: RoomView, evaluatedAt: Time, id: Id) returns (m: Candidate)
    requires AtFill(room, evaluatedAt) && id in RoomRequest(room, evaluatedAt).estimates
    ensures m in room.members && m.playerId == id && m.rating == RoomRequest(room, evaluatedAt).estimates[id]
  {
    RequestHoldsMembers(room, evaluatedAt);
    hide AtFill, EstimatesOf;
    assert PlaysBefore(room.members, |room.members|, id);
    var i :| 0 <= i < |room.members| && room.members[i].playerId == id;
    m := room.members[i];
  }

  lemma RoomRequestPredictable(model: Baseline, room: RoomView, evaluatedAt: Time)
    requires model.Valid() && AtFill(room, evaluatedAt)
    ensures Predictable(model, RoomRequest(room, evaluatedAt)) <==> ReadsRoom(model, room)
  {
    var request := RoomRequest(room, evaluatedAt);
    if ReadsRoom(model, room) {
      forall id | id in request.estimates
        ensures id != 0 && model.Accepts(request.estimates[id]) && request.estimates[id].updatedAt <= evaluatedAt
      {
        var m := RequestedBySomebody(room, evaluatedAt, id);
        RequestedRating(model, room, evaluatedAt, m);
      }
      RequestHoldsMembers(room, evaluatedAt);
    }
    if Predictable(model, request) {
      forall m | m in room.members
        ensures model.Accepts(m.rating) && m.rating.modelVersion == room.policy.ratingModelVersion
      {
        RequestedRating(model, room, evaluatedAt, m);
      }
      assert room.members[0] in room.members;
    }
  }

  /** The baseline's own prediction always passes the matcher's coherence check. */
  lemma PredictionValidates(model: Baseline, room: RoomView, evaluatedAt: Time)
    requires model.Valid() && AtFill(room, evaluatedAt) && ReadsRoom(model, room)
    ensures Predicted(model, RoomRequest(room, evaluatedAt)).Ok?
    ensures ValidatedSpread(Predicted(model, RoomRequest(room, evaluatedAt)).value, room, evaluatedAt).Ok?
  {
    RoomRequestPredictable(model, room, evaluatedAt);
    var request := RoomRequest(room, evaluatedAt);
    var ids, es, w := PredictionParts(model, request);
    RequestHoldsMembers(room, evaluatedAt);
    PredictionAddressed(model, room, evaluatedAt);
    var ps := Participants(ids, w);
    forall i | 0 <= i < |ids| ensures ParticipantValid(ps[i], room) {
      var m := RequestedBySomebody(room, evaluatedAt, ids[i]);
      RequestedRating(model, room, evaluatedAt, m);
      RowValid(room, m, w, i);
    }
    FirstPlaceTotalIsTaken(ids, w, |w|);
    PlayersSumToOne(w, 0);
    hide *;
    RowsValid(room, ids, w);
    SpreadExists(Predicted(model, request).value, room, evaluatedAt);
  }

  lemma PredictionAddressed(model: Baseline, room: RoomView, evaluatedAt: Time)
    requires model.Valid() && AtFill(room, evaluatedAt) && ReadsRoom(model, room)
    requires Predicted(model, RoomRequest(room, evaluatedAt)).Ok?
    ensures PredictionMatches(Predicted(model, RoomRequest(room, evaluatedAt)).value, room, evaluatedAt)
  {
    RequestHoldsMembers(room, evaluatedAt);
    hide EstimatesOf, PlacementOf;
  }

  lemma RowValid(room: RoomView, m: Candidate, w: seq<real>, i: nat)
    requires m in room.members && m.playerId != 0 && Positive(w) && i < |w| == |room.members|
    ensures ParticipantValid(PlacementOf(w, m.playerId, i), room)
  {
    WinBounds(w, i);
    hide PlaceProbability, ExpectedPlace;
  }

  lemma RowsValid(room: RoomView, ids: seq<Id>, w: seq<real>)
    requires Positive(w) && |ids| == |w| == |room.members| > 0 && Ascending(ids)
    requires forall i :: 0 <= i < |ids| ==> ParticipantValid(Participants(ids, w)[i], room)
    ensures ParticipantsValid(Participants(ids, w), room, |ids|)
  {
    hide ParticipantValid, PlaceProbability, ExpectedPlace;
  }

  lemma SpreadExists(prediction: RoomPrediction, room: RoomView, evaluatedAt: Time)
    requires |room.members| > 0 && PredictionMatches(prediction, room, evaluatedAt)
    requires ParticipantsValid(prediction.participants, room, |prediction.participants|)
    requires FirstPlaceTotal(prediction.participants, |prediction.participants|) == 1.0
    ensures ValidatedSpread(prediction, room, evaluatedAt).Ok?
  {
    hide PredictionMatches, ParticipantsValid, FirstPlaceTotal;
  }

  ghost function AsPredictor(model: Baseline): Predictor
    requires model.Valid()
  {
    request => Predicted(model, request)
  }

  /** With the baseline behind it, the fairness check of a full room fails in
      exactly three cases: a malformed room, an instant outside its lifetime or
      before a rating snapshot, or a member the model does not read. */
  lemma FairnessAlwaysDecides(model: Baseline, room: RoomView, evaluatedAt: Time)
    requires model.Valid()
    ensures Fairness(AsPredictor(model), room, evaluatedAt).Ok?
      <==> (AtFill(room, evaluatedAt) && ReadsRoom(model, room))
  {
    if AtFill(room, evaluatedAt) {
      RoomRequestPredictable(model, room, evaluatedAt);
      if ReadsRoom(model, room) {
        PredictionValidates(model, room, evaluatedAt);
      }
    }
    hide ValidatedSpread, EstimatesOf, SkillGap, Predictable;
  }

  /** The baseline's predictions do not depend on when they are generated. */
  lemma BaselineIsTimeInvariant(model: Baseline)
    requires model.Valid()
    ensures TimeInvariant(AsPredictor(model))
  {
    forall request: PredictionRequest, later: Time |
      request.generatedAt <= later && later != 0 && Predicted(model, request).Ok?
      ensures Predicted(model, request.(generatedAt := later))
        == Ok(Predicted(model, request).value.(generatedAt := later))
    {
      SamePrediction(model, request, later);
    }
  }

  lemma SamePrediction(model: Baseline, request: PredictionRequest, later: Time)
    requires model.Valid() && request.generatedAt <= later && later != 0 && Predicted(model, request).Ok?
    ensures Predicted(model, request.(generatedAt := later))
      == Ok(Predicted(model, request).value.(generatedAt := later))
  {
    assert Predictable(model, request.(generatedAt := later));
    hide Predictable, Participants, Weights, Lineup;
  }

  /** The worker's schedule over the baseline: sleeping until the retry time ends
      by the ticket's deadline, and at the first instant at which any evaluation
      of the view would have ended the wait. */
  lemma BaselineScheduleIsExact(model: Baseline, a: MatchAttempt)
    requires model.Valid()
    ensures var predict := AsPredictor(model);
      && a.evaluatedAt <= FinalWakeUp(predict, a)
      && (Retries(Attempt(predict, a)) ==> FinalWakeUp(predict, a) <= a.Deadline())
      && !Retries(Attempt(predict, a.(evaluatedAt := FinalWakeUp(predict, a))))
      && (forall t :: a.evaluatedAt <= t < FinalWakeUp(predict, a) && t != 0 ==>
        Retries(Attempt(predict, a.(evaluatedAt := t))))
  {
    BaselineIsTimeInvariant(model);
    ScheduleIsExact(AsPredictor(model), a);
  }
}

/** Rating data exchanged between the rating models and the matcher. */
module RatingTypes {
  import opened Common

  const MIN_ROOM_SIZE := 5
  const MAX_ROOM_SIZE := 7

  datatype Estimate = Estimate(
    mean: real,
    uncertainty: real,
    performanceDeviation: Option<real>,
    games: nat,
    modelVersion: Id,
    updatedAt: Time)
  {
    predicate Valid() {
      && uncertainty > 0.0
      && (performanceDeviation.Some? ==> performanceDeviation.value >= 0.0)
      && modelVersion != 0
      && updatedAt != 0
    }
  }

  datatype PredictionRequest = PredictionRequest(
    roomId: Id,
    modeId: Id,
    generatedAt: Time,
    estimates: map<Id, Estimate>)

  datatype PlacementPrediction = PlacementPrediction(
    playerId: Id,
    placeProbabilities: seq<real>,
    firstPlaceProbability: real,
    expectedPlace: real)

  datatype RoomPrediction = RoomPrediction(
    roomId: Id,
    modeId: Id,
    modelVersion: Id,
    generatedAt: Time,
    participants: seq<PlacementPrediction>)

  type Predictor = PredictionRequest -> Result<RoomPrediction>

  /** Optional observations of one session. */
  datatype Features = Features(
    score: Option<int>,
    elapsedMillis: Option<int>,
    completed: Option<bool>,
    moves: Option<int>,
    undoMoves: Option<int>,
    revealedCards: Option<int>)
  {
    predicate Valid() {
      && (elapsedMillis.Some? ==> elapsedMillis.value >= 0)
      && (moves.Some? ==> moves.value >= 0)
      && (undoMoves.Some? ==> undoMoves.value >= 0)
      && (revealedCards.Some? ==> revealedCards.value >= 0)
    }
  }

  datatype ParticipantResult = ParticipantResult(playerId: Id, place: int, features: Features)

  datatype MatchResult = MatchResult(
    eventId: Id,
    roomId: Id,
    modeId: Id,
    deckId: Id,
    scoringRulesVersion: Id,
    finishedAt: Time,
    availableAt: Time,
    participants: seq<ParticipantResult>)
  {
    predicate Valid() {
      && eventId != 0 && roomId != 0 && modeId != 0 && deckId != 0 && scoringRulesVersion != 0
      && finishedAt != 0 && availableAt != 0 && finishedAt <= availableAt
      && MIN_ROOM_SIZE <= |participants| <= MAX_ROOM_SIZE
      && (forall i, j :: 0 <= i < j < |participants| ==> participants[i].playerId != participants[j].playerId)
      && (forall p :: p in participants ==>
        p.playerId != 0 && 1 <= p.place <= |participants| && p.features.Valid())
      && (exists p :: p in participants && p.place == 1)
    }
  }
}

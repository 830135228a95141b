/** Hard eligibility and fairness rules for one room and one candidate. */
module Eligibility {
  import opened Common
  import opened RatingTypes
  import opened MatchTypes

  datatype Rejection =
    | InvalidCandidate
    | RoomExpired
    | RoomFull
    | DuplicateTicket
    | DuplicatePlayer
    | RatingModelMismatch
    | SkillGapExceeded
    | SkillWindowExceeded
    | ProbabilityGapExceeded

  datatype CandidateDecision = CandidateDecision(
    ticketId: Id,
    eligible: bool,
    rejection: Option<Rejection>,
    skillGap: real,
    allowedSkillGap: real,
    winProbabilitySpread: Option<real>)

  datatype FairnessReport = FairnessReport(
    skillGap: real,
    maximumSkillGap: real,
    winProbabilitySpread: real,
    maximumWinProbabilitySpread: real,
    withinHardLimits: bool)

  const PROBABILITY_TOLERANCE := 0.000000001

  // ---------------------------------------------------------------------
  // Skill gap
  // ---------------------------------------------------------------------

  function MinMean(members: seq<Candidate>, k: nat): real
    requires 0 < k <= |members|
  {
    if k == 1 then members[0].rating.mean
    else MinReal(MinMean(members, k - 1), members[k - 1].rating.mean)
  }

  function MaxMean(members: seq<Candidate>, k: nat): real
    requires 0 < k <= |members|
  {
    if k == 1 then members[0].rating.mean
    else MaxReal(MaxMean(members, k - 1), members[k - 1].rating.mean)
  }

  function SkillGap(members: seq<Candidate>): real {
    if |members| < 2 then 0.0
    else MaxMean(members, |members|) - MinMean(members, |members|)
  }

  /** The loop behind the gap. */
  method ComputeSkillGap(members: seq<Candidate>) returns (gap: real)
    ensures gap == SkillGap(members)
  {
    if |members| < 2 {
      return 0.0;
    }
    var minimum := members[0].rating.mean;
    var maximum := minimum;
    for k := 1 to |members|
      invariant minimum == MinMean(members, k) && maximum == MaxMean(members, k)
    {
      minimum := MinReal(minimum, members[k].rating.mean);
      maximum := MaxReal(maximum, members[k].rating.mean);
    }
    gap := maximum - minimum;
  }

  /** Any two members are at most `limit` apart. */
  ghost predicate PairwiseWithin(members: seq<Candidate>, limit: real) {
    forall i, j :: 0 <= i < |members| && 0 <= j < |members| ==>
      members[i].rating.mean - members[j].rating.mean <= limit
  }

  lemma {:induction false} MeanBounds(members: seq<Candidate>, k: nat)
    requires 0 < k <= |members|
    ensures forall i :: 0 <= i < k ==> MinMean(members, k) <= members[i].rating.mean <= MaxMean(members, k)
    ensures exists i :: 0 <= i < k && members[i].rating.mean == MinMean(members, k)
    ensures exists i :: 0 <= i < k && members[i].rating.mean == MaxMean(members, k)
  {
    if k > 1 {
      MeanBounds(members, k - 1);
      var low :| 0 <= low < k - 1 && members[low].rating.mean == MinMean(members, k - 1);
      var high :| 0 <= high < k - 1 && members[high].rating.mean == MaxMean(members, k - 1);
      assert members[k - 1].rating.mean == MinMean(members, k) || members[low].rating.mean == MinMean(members, k);
      assert members[k - 1].rating.mean == MaxMean(members, k) || members[high].rating.mean == MaxMean(members, k);
    } else {
      assert members[0].rating.mean == MinMean(members, k) == MaxMean(members, k);
    }
  }

  /** The gap is within a limit exactly when every pair of members is. */
  lemma SkillGapIsPairwise(members: seq<Candidate>, limit: real)
    requires limit >= 0.0
    ensures SkillGap(members) <= limit <==> PairwiseWithin(members, limit)
  {
    if |members| >= 2 {
      MeanBounds(members, |members|);
      var low :| 0 <= low < |members| && members[low].rating.mean == MinMean(members, |members|);
      var high :| 0 <= high < |members| && members[high].rating.mean == MaxMean(members, |members|);
      if PairwiseWithin(members, limit) {
        assert members[high].rating.mean - members[low].rating.mean <= limit;
      }
    }
  }

  // ---------------------------------------------------------------------
  // Probability spread
  // ---------------------------------------------------------------------

  ghost predicate HasPlayer(members: seq<Candidate>, playerId: Id) {
    exists m :: m in members && m.playerId == playerId
  }

  ghost predicate PredictionMatches(prediction: RoomPrediction, room: RoomView, evaluatedAt: Time) {
    && prediction.roomId == room.roomId
    && prediction.modeId == room.modeId
    && prediction.modelVersion == room.policy.ratingModelVersion
    && prediction.generatedAt == evaluatedAt
    && |prediction.participants| == |room.members|
  }

  ghost predicate ParticipantValid(p: PlacementPrediction, room: RoomView)
    requires |room.members| > 0
  {
    && HasPlayer(room.members, p.playerId) && p.playerId != 0
    && 0.0 <= p.firstPlaceProbability <= 1.0
    && |p.placeProbabilities| == |room.members|
    && Abs(p.placeProbabilities[0] - p.firstPlaceProbability) <= PROBABILITY_TOLERANCE
  }

  ghost predicate ParticipantsValid(ps: seq<PlacementPrediction>, room: RoomView, k: nat)
    requires |room.members| > 0 && k <= |ps|
  {
    && (forall i :: 0 <= i < k ==> ParticipantValid(ps[i], room))
    && (forall i, j :: 0 <= i < j < k ==> ps[i].playerId != ps[j].playerId)
  }

  function FirstPlaceTotal(ps: seq<PlacementPrediction>, k: nat): real
    requires k <= |ps|
  {
    if k == 0 then 0.0 else FirstPlaceTotal(ps, k - 1) + ps[k - 1].firstPlaceProbability
  }

  function MinFirstPlace(ps: seq<PlacementPrediction>, k: nat): real
    requires 0 < k <= |ps|
  {
    if k == 1 then ps[0].firstPlaceProbability
    else MinReal(MinFirstPlace(ps, k - 1), ps[k - 1].firstPlaceProbability)
  }

  function MaxFirstPlace(ps: seq<PlacementPrediction>, k: nat): real
    requires 0 < k <= |ps|
  {
    if k == 1 then ps[0].firstPlaceProbability
    else MaxReal(MaxFirstPlace(ps, k - 1), ps[k - 1].firstPlaceProbability)
  }

  /** The spread of a prediction that is coherent for the complete room. */
  ghost function ValidatedSpread(prediction: RoomPrediction, room: RoomView, evaluatedAt: Time): Result<real>
    requires |room.members| > 0
  {
    var ps := prediction.participants;
    if !PredictionMatches(prediction, room, evaluatedAt) then Err(InvalidPrediction)
    else if !ParticipantsValid(ps, room, |ps|) then Err(InvalidPrediction)
    else if Abs(FirstPlaceTotal(ps, |ps|) - 1.0) > PROBABILITY_TOLERANCE then Err(InvalidPrediction)
    else Ok(MaxFirstPlace(ps, |ps|) - MinFirstPlace(ps, |ps|))
  }

  /** The validation loop with its membership and duplicate sets. */
  method ComputeValidatedSpread(
      prediction: RoomPrediction, room: RoomView, evaluatedAt: Time) returns (spread: Result<real>)
    requires |room.members| > 0
    ensures spread == ValidatedSpread(prediction, room, evaluatedAt)
  {
    var ps := prediction.participants;
    if prediction.roomId != room.roomId || prediction.modeId != room.modeId
       || prediction.modelVersion != room.policy.ratingModelVersion
       || prediction.generatedAt != evaluatedAt || |ps| != |room.members| {
      return Err(InvalidPrediction);
    }
    var members: set<Id> := {};
    for k := 0 to |room.members|
      invariant forall id :: id in members <==> HasPlayer(room.members[..k], id)
    {
      members := members + {room.members[k].playerId};
      assert room.members[..k + 1] == room.members[..k] + [room.members[k]];
    }
    assert room.members[..|room.members|] == room.members;
    var minimum, maximum := ps[0].firstPlaceProbability, ps[0].firstPlaceProbability;
    var total := 0.0;
    var seen: set<Id> := {};
    for k := 0 to |ps|
      invariant ParticipantsValid(ps, room, k)
      invariant seen == set i | 0 <= i < k :: ps[i].playerId
      invariant total == FirstPlaceTotal(ps, k)
      invariant k > 0 ==> minimum == MinFirstPlace(ps, k) && maximum == MaxFirstPlace(ps, k)
      invariant k == 0 ==> minimum == maximum == ps[0].firstPlaceProbability
    {
      var p := ps[k];
      if p.playerId !in members || p.playerId == 0 {
        assert !ParticipantValid(p, room);
        return Err(InvalidPrediction);
      }
      if p.playerId in seen {
        return Err(InvalidPrediction);
      }
      if p.firstPlaceProbability < 0.0 || p.firstPlaceProbability > 1.0 {
        assert !ParticipantValid(p, room);
        return Err(InvalidPrediction);
      }
      if |p.placeProbabilities| != |room.members|
         || Abs(p.placeProbabilities[0] - p.firstPlaceProbability) > PROBABILITY_TOLERANCE {
        assert !ParticipantValid(p, room);
        return Err(InvalidPrediction);
      }
      seen := seen + {p.playerId};
      minimum := MinReal(minimum, p.firstPlaceProbability);
      maximum := MaxReal(maximum, p.firstPlaceProbability);
      total := total + p.firstPlaceProbability;
    }
    if Abs(total - 1.0) > PROBABILITY_TOLERANCE {
      return Err(InvalidPrediction);
    }
    spread := Ok(maximum - minimum);
  }

  // ---------------------------------------------------------------------
  // Fairness of a complete room
  // ---------------------------------------------------------------------

  ghost function EstimatesOf(members: seq<Candidate>, k: nat): map<Id, Estimate>
    requires k <= |members|
  {
    if k == 0 then map[]
    else EstimatesOf(members, k - 1)[members[k - 1].playerId := members[k - 1].rating]
  }

  ghost predicate SnapshotsBy(members: seq<Candidate>, evaluatedAt: Time) {
    forall m :: m in members ==> m.snapshotAt <= evaluatedAt
  }

  ghost function RoomRequest(room: RoomView, evaluatedAt: Time): PredictionRequest {
    PredictionRequest(room.roomId, room.modeId, evaluatedAt, EstimatesOf(room.members, |room.members|))
  }

  ghost function Fairness(predict: Predictor, room: RoomView, evaluatedAt: Time): (report: Result<FairnessReport>)
    ensures report.Ok? ==> room.Valid() && |room.members| == room.capacity
  {
    if !room.Valid() then Err(InvalidInput)
    else if |room.members| != room.capacity then Err(InvalidInput)
    else if evaluatedAt == 0 || evaluatedAt < room.createdAt || room.deadline < evaluatedAt then Err(InvalidInput)
    else if !SnapshotsBy(room.members, evaluatedAt) then Err(InvalidInput)
    else
      var prediction := predict(RoomRequest(room, evaluatedAt));
      if prediction.Err? then Err(PredictionFailed)
      else
        var spread := ValidatedSpread(prediction.value, room, evaluatedAt);
        if spread.Err? then Err(spread.error)
        else
          var gap := SkillGap(room.members);
          Ok(FairnessReport(
               gap, room.policy.maxSkillGap, spread.value, room.policy.maxWinProbabilitySpread,
               gap <= room.policy.maxSkillGap && spread.value <= room.policy.maxWinProbabilitySpread))
  }

  method EvaluateFairness(
      predict: Predictor, room: RoomView, evaluatedAt: Time) returns (report: Result<FairnessReport>)
    ensures report == Fairness(predict, room, evaluatedAt)
  {
    var valid := ValidateRoom(room);
    if !valid || |room.members| != room.capacity {
      return Err(InvalidInput);
    }
    if evaluatedAt == 0 || evaluatedAt < room.createdAt || room.deadline < evaluatedAt {
      return Err(InvalidInput);
    }
    var estimates: map<Id, Estimate> := map[];
    for k := 0 to |room.members|
      invariant forall i :: 0 <= i < k ==> room.members[i].snapshotAt <= evaluatedAt
      invariant estimates == EstimatesOf(room.members, k)
    {
      if evaluatedAt < room.members[k].snapshotAt {
        return Err(InvalidInput);
      }
      estimates := estimates[room.members[k].playerId := room.members[k].rating];
    }
    var prediction := predict(PredictionRequest(room.roomId, room.modeId, evaluatedAt, estimates));
    if prediction.Err? {
      return Err(PredictionFailed);
    }
    var spread := ComputeValidatedSpread(prediction.value, room, evaluatedAt);
    if spread.Err? {
      return Err(spread.error);
    }
    var gap := ComputeSkillGap(room.members);
    report := Ok(FairnessReport(
                   gap, room.policy.maxSkillGap, spread.value, room.policy.maxWinProbabilitySpread,
                   gap <= room.policy.maxSkillGap && spread.value <= room.policy.maxWinProbabilitySpread));
  }

  /** Room validation with its ticket and player sets. */
  method ValidateRoom(room: RoomView) returns (valid: bool)
    ensures valid == room.Valid()
  {
    if room.roomId == 0 || room.modeId == 0 || room.aggregateVersion < 0
       || room.capacity < MIN_ROOM_SIZE || room.capacity > MAX_ROOM_SIZE
       || room.createdAt == 0 || room.deadline == 0 || room.deadline <= room.createdAt
       || |room.members| > room.capacity || !room.policy.Valid()
       || room.createdAt + room.policy.fillTimeout < room.deadline {
      return false;
    }
    var tickets: set<Id>, players: set<Id> := {}, {};
    for k := 0 to |room.members|
      invariant forall i :: 0 <= i < k ==>
        && room.members[i].Valid() && room.members[i].snapshotAt <= room.deadline
        && room.members[i].rating.modelVersion == room.policy.ratingModelVersion
      invariant tickets == set i | 0 <= i < k :: room.members[i].ticketId
      invariant players == set i | 0 <= i < k :: room.members[i].playerId
      invariant forall i, j :: 0 <= i < j < k ==>
        && room.members[i].ticketId != room.members[j].ticketId
        && room.members[i].playerId != room.members[j].playerId
    {
      var m := room.members[k];
      if !m.Valid() || room.deadline < m.snapshotAt || m.rating.modelVersion != room.policy.ratingModelVersion
         || m.ticketId in tickets || m.playerId in players {
        assert m in room.members;
        return false;
      }
      tickets, players := tickets + {m.ticketId}, players + {m.playerId};
    }
    valid := true;
  }

  // ---------------------------------------------------------------------
  // One candidate
  // ---------------------------------------------------------------------

  /** The first member that clashes with the candidate decides the rejection. */
  function Clash(members: seq<Candidate>, candidate: Candidate): (rejection: Option<Rejection>)
    ensures rejection.None? <==>
      forall m :: m in members ==> m.ticketId != candidate.ticketId && m.playerId != candidate.playerId
  {
    if members == [] then None
    else if candidate.ticketId == members[0].ticketId then
      assert members[0] in members;
      Some(DuplicateTicket)
    else if candidate.playerId == members[0].playerId then
      assert members[0] in members;
      Some(DuplicatePlayer)
    else
      assert members == [members[0]] + members[1..];
      Clash(members[1..], candidate)
  }

  function Reject(candidate: Candidate, why: Rejection, gap: real, allowed: real): CandidateDecision {
    CandidateDecision(candidate.ticketId, false, Some(why), gap, allowed, None)
  }

  /** The decision for one candidate, in the order of the checks. */
  ghost function Evaluate(
      predict: Predictor, room: RoomView, candidate: Candidate, evaluatedAt: Time): Result<CandidateDecision> {
    if !candidate.Valid() || evaluatedAt < candidate.joinedAt || evaluatedAt < candidate.snapshotAt then
      Ok(Reject(candidate, InvalidCandidate, 0.0, 0.0))
    else if room.deadline < evaluatedAt then Ok(Reject(candidate, RoomExpired, 0.0, 0.0))
    else if |room.members| == room.capacity then Ok(Reject(candidate, RoomFull, 0.0, 0.0))
    else if Clash(room.members, candidate).Some? then
      Ok(Reject(candidate, Clash(room.members, candidate).value, 0.0, 0.0))
    else if candidate.rating.modelVersion != room.policy.ratingModelVersion then
      Ok(Reject(candidate, RatingModelMismatch, 0.0, 0.0))
    else
      var proposed := room.members + [candidate];
      var gap := SkillGap(proposed);
      var allowed := room.policy.AllowedSkillGap(evaluatedAt - room.createdAt);
      if allowed.Err? then Err(allowed.error)
      else if gap > room.policy.maxSkillGap then Ok(Reject(candidate, SkillGapExceeded, gap, allowed.value))
      else if gap > allowed.value then Ok(Reject(candidate, SkillWindowExceeded, gap, allowed.value))
      else if |proposed| < room.capacity then
        Ok(CandidateDecision(candidate.ticketId, true, None, gap, allowed.value, None))
      else
        var report := Fairness(predict, room.(members := proposed), evaluatedAt);
        if report.Err? then Err(report.error)
        else
          Ok(CandidateDecision(
               candidate.ticketId,
               report.value.withinHardLimits,
               if report.value.withinHardLimits then None else Some(ProbabilityGapExceeded),
               report.value.skillGap, allowed.value, Some(report.value.winProbabilitySpread)))
  }

  method EvaluateCandidate(predict: Predictor, room: RoomView, candidate: Candidate, evaluatedAt: Time)
    returns (decision: Result<CandidateDecision>)
    ensures decision == Evaluate(predict, room, candidate, evaluatedAt)
  {
    if !candidate.Valid() || evaluatedAt < candidate.joinedAt || evaluatedAt < candidate.snapshotAt {
      return Ok(Reject(candidate, InvalidCandidate, 0.0, 0.0));
    }
    if room.deadline < evaluatedAt {
      return Ok(Reject(candidate, RoomExpired, 0.0, 0.0));
    }
    if |room.members| == room.capacity {
      return Ok(Reject(candidate, RoomFull, 0.0, 0.0));
    }
    for k := 0 to |room.members|
      invariant Clash(room.members, candidate) == Clash(room.members[k..], candidate)
    {
      if candidate.ticketId == room.members[k].ticketId {
        return Ok(Reject(candidate, DuplicateTicket, 0.0, 0.0));
      }
      if candidate.playerId == room.members[k].playerId {
        return Ok(Reject(candidate, DuplicatePlayer, 0.0, 0.0));
      }
      assert room.members[k..][1..] == room.members[k + 1..];
    }
    if candidate.rating.modelVersion != room.policy.ratingModelVersion {
      return Ok(Reject(candidate, RatingModelMismatch, 0.0, 0.0));
    }
    var proposed := room.members + [candidate];
    var gap := ComputeSkillGap(proposed);
    var allowed := room.policy.AllowedSkillGap(evaluatedAt - room.createdAt);
    if allowed.Err? {
      return Err(allowed.error);
    }
    if gap > room.policy.maxSkillGap {
      return Ok(Reject(candidate, SkillGapExceeded, gap, allowed.value));
    }
    if gap > allowed.value {
      return Ok(Reject(candidate, SkillWindowExceeded, gap, allowed.value));
    }
    if |proposed| < room.capacity {
      return Ok(CandidateDecision(candidate.ticketId, true, None, gap, allowed.value, None));
    }
    var report := EvaluateFairness(predict, room.(members := proposed), evaluatedAt);
    if report.Err? {
      return Err(report.error);
    }
    var within := report.value.withinHardLimits;
    decision := Ok(CandidateDecision(
                     candidate.ticketId, within, if within then None else Some(ProbabilityGapExceeded),
                     report.value.skillGap, allowed.value, Some(report.value.winProbabilitySpread)));
  }

  /** The checks around one evaluation. */
  ghost predicate FilterAccepts(room: RoomView, candidates: seq<Candidate>, evaluatedAt: Time) {
    && room.Valid()
    && evaluatedAt != 0 && room.createdAt <= evaluatedAt
    && |candidates| <= room.policy.candidateLimit
  }

  ghost function Decide(
      predict: Predictor, room: RoomView, candidate: Candidate, evaluatedAt: Time): Result<CandidateDecision> {
    if FilterAccepts(room, [candidate], evaluatedAt) then Evaluate(predict, room, candidate, evaluatedAt)
    else Err(InvalidInput)
  }

  /** Decisions in input order, each independent of the other candidates; an
      error of any candidate fails the batch. */
  method Filter(predict: Predictor, room: RoomView, candidates: seq<Candidate>, evaluatedAt: Time)
    returns (decisions: Result<seq<CandidateDecision>>)
    ensures decisions.Ok? <==>
      && FilterAccepts(room, candidates, evaluatedAt)
      && forall k :: 0 <= k < |candidates| ==> Evaluate(predict, room, candidates[k], evaluatedAt).Ok?
    ensures decisions.Ok? ==>
      && |decisions.value| == |candidates|
      && forall k :: 0 <= k < |candidates| ==>
        Ok(decisions.value[k]) == Evaluate(predict, room, candidates[k], evaluatedAt)
    ensures decisions.Err? && FilterAccepts(room, candidates, evaluatedAt) ==>
      exists k :: 0 <= k < |candidates| && Evaluate(predict, room, candidates[k], evaluatedAt) == Err(decisions.error)
    ensures !FilterAccepts(room, candidates, evaluatedAt) ==> decisions == Err(InvalidInput)
  {
    var valid := ValidateRoom(room);
    if !valid || evaluatedAt == 0 || evaluatedAt < room.createdAt || |candidates| > room.policy.candidateLimit {
      return Err(InvalidInput);
    }
    var made: seq<CandidateDecision> := [];
    for k := 0 to |candidates|
      invariant |made| == k
      invariant forall i :: 0 <= i < k ==> Ok(made[i]) == Evaluate(predict, room, candidates[i], evaluatedAt)
    {
      var decision := EvaluateCandidate(predict, room, candidates[k], evaluatedAt);
      if decision.Err? {
        return Err(decision.error);
      }
      made := made + [decision.value];
    }
    decisions := Ok(made);
  }

  /** An eligible candidate leaves the room inside the hard skill limit, and a
      candidate that completes the room leaves it inside both hard limits. */
  lemma EligibleIsFair(predict: Predictor, room: RoomView, candidate: Candidate, evaluatedAt: Time)
    requires Decide(predict, room, candidate, evaluatedAt).Ok?
    requires Decide(predict, room, candidate, evaluatedAt).value.eligible
    ensures
      var filled := room.(members := room.members + [candidate]);
      && |filled.members| <= room.capacity
      && PairwiseWithin(filled.members, room.policy.maxSkillGap)
      && (|filled.members| == room.capacity ==>
        && Fairness(predict, filled, evaluatedAt).Ok?
        && Fairness(predict, filled, evaluatedAt).value.withinHardLimits)
  {
    SkillGapIsPairwise(room.members + [candidate], room.policy.maxSkillGap);
  }
}

/** One simulated run: arrivals form rooms in event time with the production
    matcher. The rooms live in one list; their identifiers are its positions
    counted from one. */
module Simulator {
  import opened Common
  import opened RatingTypes
  import opened MatchTypes
  import opened Eligibility

  datatype Partition = Partition(id: Id, modeId: Id, capacity: int, trafficWeight: nat)

  datatype WorkloadConfig = WorkloadConfig(
    startedAt: Time,
    ticketCount: int,
    ratingModelVersion: Id,
    partitions: seq<Partition>)

  datatype Arrival = Arrival(
    ticketId: Id,
    playerId: Id,
    partitionId: Id,
    arrivedAt: Time,
    snapshotAt: Time,
    latentSkill: real,
    rating: Estimate)

  datatype Workload = Workload(config: WorkloadConfig, arrivals: seq<Arrival>)

  datatype RunConfig = RunConfig(
    policy: Policy,
    scoringRulesVersion: Id,
    resultDelay: Duration,
    availabilityDelay: Duration,
    binCount: int)
  {
    predicate Valid() {
      && policy.Valid() && scoringRulesVersion != 0
      && resultDelay > 0 && availabilityDelay >= 0 && 2 <= binCount <= 100
    }
  }

  datatype OutcomeRequest = OutcomeRequest(
    eventId: Id,
    roomId: Id,
    partitionId: Id,
    deckId: Id,
    scoringRulesVersion: Id,
    finishedAt: Time,
    availableAt: Time,
    participants: seq<(Id, real)>)

  type Outcomes = OutcomeRequest -> Result<MatchResult>

  /** A room of the run; `filled` holds what was fixed when it filled. */
  datatype Filled = Filled(at: Time, prediction: RoomPrediction, result: MatchResult)

  datatype SimulatedRoom = SimulatedRoom(
    view: RoomView,
    partitionId: Id,
    arrivals: seq<Arrival>,
    filled: Option<Filled>,
    timedOut: bool)

  datatype RunError = InvalidWorkload | NoCandidateRooms | MatchFailed | NotPredicted | NoOutcome

  datatype Formation = Formed(rooms: seq<SimulatedRoom>) | Aborted(error: RunError)

  // ---------------------------------------------------------------------
  // Workloads
  // ---------------------------------------------------------------------

  predicate ArrivalValid(w: Workload, modelVersion: Id, i: nat)
    requires i < |w.arrivals|
  {
    var a := w.arrivals[i];
    && a.ticketId != 0 && a.playerId != 0
    && (if i == 0 then a.arrivedAt >= w.config.startedAt else a.arrivedAt > w.arrivals[i - 1].arrivedAt)
    && a.snapshotAt == a.arrivedAt && a.rating.Valid()
    && a.rating.modelVersion == modelVersion && a.rating.updatedAt <= a.snapshotAt
    && (exists p :: p in w.config.partitions && p.id == a.partitionId)
  }

  ghost predicate WorkloadValid(w: Workload, modelVersion: Id) {
    && w.config.startedAt != 0 && w.config.ticketCount == |w.arrivals| > 0
    && w.config.ratingModelVersion == modelVersion && w.config.partitions != []
    && (forall i :: 0 <= i < |w.config.partitions| ==>
      var p := w.config.partitions[i];
      && p.id != 0 && p.modeId != 0 && MIN_ROOM_SIZE <= p.capacity <= MAX_ROOM_SIZE && p.trafficWeight > 0)
    && (forall i, j :: 0 <= i < j < |w.config.partitions| ==> w.config.partitions[i].id != w.config.partitions[j].id)
    && (forall i :: 0 <= i < |w.arrivals| ==> ArrivalValid(w, modelVersion, i))
    && (forall i, j :: 0 <= i < j < |w.arrivals| ==>
      w.arrivals[i].ticketId != w.arrivals[j].ticketId && w.arrivals[i].playerId != w.arrivals[j].playerId)
  }

  lemma {:induction false} ArrivalsInOrder(w: Workload, modelVersion: Id, i: nat, j: nat)
    requires i < j < |w.arrivals| && forall k :: 0 <= k < |w.arrivals| ==> ArrivalValid(w, modelVersion, k)
    ensures w.config.startedAt <= w.arrivals[i].arrivedAt < w.arrivals[j].arrivedAt
    decreases j
  {
    assert ArrivalValid(w, modelVersion, j);
    if i < j - 1 {
      ArrivalsInOrder(w, modelVersion, i, j - 1);
    } else {
      StartsFirst(w, modelVersion, i);
    }
  }

  lemma {:induction false} StartsFirst(w: Workload, modelVersion: Id, i: nat)
    requires i < |w.arrivals| && forall k :: 0 <= k < |w.arrivals| ==> ArrivalValid(w, modelVersion, k)
    ensures w.config.startedAt <= w.arrivals[i].arrivedAt
  {
    assert ArrivalValid(w, modelVersion, i);
    if i > 0 {
      StartsFirst(w, modelVersion, i - 1);
    }
  }

  function CandidateOf(a: Arrival): Candidate {
    Candidate(a.ticketId, a.playerId, a.arrivedAt, a.snapshotAt, a.rating)
  }

  function Candidates(arrivals: seq<Arrival>): seq<Candidate> {
    seq(|arrivals|, i requires 0 <= i < |arrivals| => CandidateOf(arrivals[i]))
  }

  // ---------------------------------------------------------------------
  // The two capabilities
  // ---------------------------------------------------------------------

  /** The run's rooms hold arrivals of the workload. */
  ghost predicate FromWorkload(w: Workload, room: RoomView) {
    forall m :: m in room.members ==> exists a :: a in w.arrivals && CandidateOf(a) == m
  }

  /** A predictor that decides every complete room of the workload. */
  ghost predicate PredictorDecides(predict: Predictor, w: Workload) {
    forall room: RoomView, at: Time ::
      room.Valid() && |room.members| == room.capacity && FromWorkload(w, room)
      && room.createdAt <= at <= room.deadline && at != 0 && SnapshotsBy(room.members, at) ==>
        Fairness(predict, room, at).Ok?
  }

  function OutcomeRequestOf(config: RunConfig, room: SimulatedRoom, at: Time): OutcomeRequest {
    var finishedAt := at + config.resultDelay;
    OutcomeRequest(room.view.roomId, room.view.roomId, room.partitionId, room.view.roomId, config.scoringRulesVersion,
                   finishedAt, finishedAt + config.availabilityDelay,
                   seq(|room.arrivals|, i requires 0 <= i < |room.arrivals| =>
                     (room.arrivals[i].playerId, room.arrivals[i].latentSkill)))
  }

  // ---------------------------------------------------------------------
  // What every room of a run is
  // ---------------------------------------------------------------------

  ghost predicate InPartition(w: Workload, room: SimulatedRoom) {
    exists p :: p in w.config.partitions && p.id == room.partitionId
      && p.modeId == room.view.modeId && p.capacity == room.view.capacity
  }

  /** Neither the moment, nor the deadline of a room that opens at it, nor the times
      of a result of a room that fills at it are exactly zero, the unset time. */
  predicate MomentSet(config: RunConfig, at: Time) {
    && at != 0 && at + config.policy.fillTimeout != 0
    && at + config.resultDelay != 0 && at + config.resultDelay + config.availabilityDelay != 0
  }

  ghost predicate AvoidsZero(w: Workload, config: RunConfig) {
    forall i :: 0 <= i < |w.arrivals| ==> MomentSet(config, w.arrivals[i].arrivedAt)
  }

  /** A full room of the workload, with a proper request for its outcome. */
  ghost predicate Askable(w: Workload, config: RunConfig, room: SimulatedRoom, at: Time) {
    && InPartition(w, room) && |room.arrivals| == room.view.capacity && room.view.roomId != 0
    && MomentSet(config, at)
    && (forall i :: 0 <= i < |room.arrivals| ==> room.arrivals[i].playerId != 0)
    && (forall i, j :: 0 <= i < j < |room.arrivals| ==> room.arrivals[i].playerId != room.arrivals[j].playerId)
  }

  /** An outcome generator that decides every full room. */
  ghost predicate OutcomesDecide(outcomes: Outcomes, w: Workload, config: RunConfig) {
    forall room: SimulatedRoom, at: Time ::
      Askable(w, config, room, at) ==> outcomes(OutcomeRequestOf(config, room, at)).Ok?
  }

  /** The scalar fields of the view of a room opened by its first arrival. */
  ghost predicate ViewOk(config: RunConfig, room: SimulatedRoom, index: nat) {
    && room.arrivals != [] && room.view.roomId == index + 1 && room.view.aggregateVersion == 0
    && room.view.createdAt == room.arrivals[0].arrivedAt
    && room.view.deadline == room.view.createdAt + config.policy.fillTimeout
    && room.view.policy == config.policy
  }

  /** Members are the arrivals, of the room's partition, inside its time and limits. */
  ghost predicate MembersOk(config: RunConfig, room: SimulatedRoom) {
    && room.view.members == Candidates(room.arrivals)
    && |room.arrivals| <= room.view.capacity
    && (forall i :: 0 <= i < |room.arrivals| ==>
      && room.arrivals[i].partitionId == room.partitionId
      && room.view.createdAt <= room.arrivals[i].arrivedAt <= room.view.deadline)
    && (forall i, j :: 0 <= i < j < |room.arrivals| ==>
      && room.arrivals[i].ticketId != room.arrivals[j].ticketId
      && room.arrivals[i].playerId != room.arrivals[j].playerId
      && room.arrivals[i].arrivedAt < room.arrivals[j].arrivedAt)
    && PairwiseWithin(room.view.members, config.policy.maxSkillGap)
  }

  /** A room is filled exactly when it is full, inside both hard limits, with the
      prediction and the result of exactly its members. */
  ghost predicate FilledOk(predict: Predictor, outcomes: Outcomes, config: RunConfig, room: SimulatedRoom) {
    && (room.filled.Some? <==> |room.arrivals| == room.view.capacity)
    && (room.filled.Some? ==>
      var f := room.filled.value;
      && room.arrivals != [] && !room.timedOut && f.at == room.arrivals[|room.arrivals| - 1].arrivedAt
      && predict(RoomRequest(room.view, f.at)) == Ok(f.prediction)
      && Fairness(predict, room.view, f.at).Ok? && Fairness(predict, room.view, f.at).value.withinHardLimits
      && outcomes(OutcomeRequestOf(config, room, f.at)) == Ok(f.result))
  }

  ghost predicate RoomOk(
      predict: Predictor, outcomes: Outcomes, w: Workload, config: RunConfig, room: SimulatedRoom, index: nat) {
    && InPartition(w, room) && ViewOk(config, room, index) && MembersOk(config, room)
    && FilledOk(predict, outcomes, config, room)
  }

  /** All arrivals placed so far, with multiplicity. */
  ghost function Placed(rooms: seq<SimulatedRoom>): multiset<Arrival> {
    if rooms == [] then multiset{} else Placed(rooms[..|rooms| - 1]) + multiset(rooms[|rooms| - 1].arrivals)
  }

  /** Room `i` still forms at time `now`. */
  predicate Forming(room: SimulatedRoom) {
    room.filled.None? && !room.timedOut
  }

  /** The active lists: positions of rooms of the partition, among them all that
      can still take somebody. */
  ghost predicate ActiveOk(rooms: seq<SimulatedRoom>, active: map<Id, seq<nat>>) {
    && (forall id, k :: id in active && 0 <= k < |active[id]| ==>
      && active[id][k] < |rooms| && rooms[active[id][k]].partitionId == id && !rooms[active[id][k]].timedOut)
    && (forall id, k, l :: id in active && 0 <= k < l < |active[id]| ==> active[id][k] != active[id][l])
    && (forall i :: 0 <= i < |rooms| && Forming(rooms[i]) ==>
      rooms[i].partitionId in active && i in active[rooms[i].partitionId])
  }

  ghost predicate RoomsOk(
      predict: Predictor, outcomes: Outcomes, w: Workload, config: RunConfig, rooms: seq<SimulatedRoom>) {
    forall i :: 0 <= i < |rooms| ==> RoomOk(predict, outcomes, w, config, rooms[i], i)
  }
}

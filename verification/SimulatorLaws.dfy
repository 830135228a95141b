/** Conservation in the report of a run, and the run that always reports. */
module SimulatorLaws {
  import opened Common
  import opened RatingTypes
  import opened MatchTypes
  import opened Eligibility
  import opened BaselineModel
  import opened Prediction
  import opened PredictionLaws
  import opened PlacementLaws
  import opened PlackettLuce
  import opened Simulator
  import opened SimulatorRun
  import opened SimulatorReport
  import Calibration
  import EligibilityLaws

  // ---------------------------------------------------------------------
  // Samples of exact rooms
  // ---------------------------------------------------------------------

  /** Every ticket and every room is either filled or timed out, and each list has
      one entry for what it measures. */
  ghost predicate SamplesExact(s: Samples) {
    && s.counts.tickets == s.counts.filledTickets + s.counts.timedOutTickets
    && s.counts.rooms == s.counts.filled + s.counts.timedOut
    && |s.playerWaits| == s.counts.tickets && |s.resolutions| == s.counts.rooms
    && |s.filledDurations| == |s.skillGaps| == |s.winSpreads| == |s.observations| == s.counts.filled
  }

  ghost predicate WithinLimit(values: seq<Duration>, limit: Duration) {
    forall i :: 0 <= i < |values| ==> 0 <= values[i] <= limit
  }

  ghost predicate AtMost(values: seq<real>, limit: real) {
    forall i :: 0 <= i < |values| ==> values[i] <= limit
  }

  /** Nobody waits longer than the fill timeout, and every filled room is inside
      both hard limits. */
  ghost predicate SamplesBounded(policy: Policy, s: Samples) {
    && WithinLimit(s.playerWaits, policy.fillTimeout) && WithinLimit(s.resolutions, policy.fillTimeout)
    && WithinLimit(s.filledDurations, policy.fillTimeout)
    && AtMost(s.skillGaps, policy.maxSkillGap) && AtMost(s.winSpreads, policy.maxWinProbabilitySpread)
  }

  ghost predicate RoomBounded(policy: Policy, room: SimulatedRoom) {
    && room.view.createdAt <= ResolutionOf(room) <= room.view.createdAt + policy.fillTimeout
    && (forall i :: 0 <= i < |room.arrivals| ==>
      room.view.createdAt <= room.arrivals[i].arrivedAt <= ResolutionOf(room))
    && (room.filled.Some? ==>
      && room.filled.value.prediction.participants != []
      && SkillGap(room.view.members) <= policy.maxSkillGap
      && SpreadOf(room.filled.value.prediction) <= policy.maxWinProbabilitySpread)
  }

  /** The end of a room's waiting: when it filled, or else its deadline. */
  ghost predicate EndsAt(room: SimulatedRoom, at: Time) {
    (room.filled.Some? ==> at == room.filled.value.at) && (room.filled.None? ==> at == room.view.deadline)
  }

  /** What one room adds to the samples: everybody's wait from arrival to the end of
      the room's waiting, the time from its creation to that end, and, if it filled,
      the largest differences between two of its members' means and between two of
      its players' predicted chances to win. */
  lemma RoomSamples(s: Samples, room: SimulatedRoom, at: Time, limit: real)
    requires Sampleable(room) && EndsAt(room, at)
    ensures var after := Sampled(s, room);
      && |after.playerWaits| == |s.playerWaits| + |room.arrivals|
      && (forall i :: 0 <= i < |room.arrivals| ==>
        room.arrivals[i].arrivedAt + after.playerWaits[|s.playerWaits| + i] == at)
      && |after.resolutions| == |s.resolutions| + 1
      && room.view.createdAt + after.resolutions[|s.resolutions|] == at
      && (room.filled.None? ==> after.filledDurations == s.filledDurations && after.observations == s.observations)
      && (room.filled.Some? ==>
        && after.filledDurations == s.filledDurations + [after.resolutions[|s.resolutions|]]
        && |after.skillGaps| == |s.skillGaps| + 1 && |after.winSpreads| == |s.winSpreads| + 1
        && after.observations
          == s.observations + [Calibration.Observation(room.filled.value.prediction, room.filled.value.result)]
        && (limit >= 0.0 ==>
          (after.skillGaps[|s.skillGaps|] <= limit <==> PairwiseWithin(room.view.members, limit)))
        && (after.winSpreads[|s.winSpreads|] <= limit
          <==> EligibilityLaws.ChancesWithin(room.filled.value.prediction.participants, limit)))
  {
    hide SkillGap, PairwiseWithin, EligibilityLaws.ChancesWithin, MinFirstPlace, MaxFirstPlace;
    if room.filled.Some? {
      EligibilityLaws.SpreadIsPairwise(room.filled.value.prediction.participants, limit);
      if limit >= 0.0 {
        SkillGapIsPairwise(room.view.members, limit);
      }
    }
  }

  /** The run is over when the waiting of its last room is. */
  lemma {:induction false} ResolvedLast(startedAt: Time, rooms: seq<SimulatedRoom>)
    ensures startedAt <= LatestResolution(startedAt, rooms)
    ensures forall room, at :: room in rooms && EndsAt(room, at) ==> at <= LatestResolution(startedAt, rooms)
    ensures LatestResolution(startedAt, rooms) == startedAt
      || exists room :: room in rooms && EndsAt(room, LatestResolution(startedAt, rooms))
  {
    if rooms != [] {
      var front, last := rooms[..|rooms| - 1], rooms[|rooms| - 1];
      ResolvedLast(startedAt, front);
      assert rooms == front + [last];
      assert EndsAt(last, ResolutionOf(last));
    }
  }

  /** The spread that filled a room is the spread of its stored prediction. */
  lemma FairPrediction(predict: Predictor, view: RoomView, at: Time, prediction: RoomPrediction)
    requires Fairness(predict, view, at).Ok? && Fairness(predict, view, at).value.withinHardLimits
    requires predict(RoomRequest(view, at)) == Ok(prediction)
    ensures prediction.participants != [] && SpreadOf(prediction) <= view.policy.maxWinProbabilitySpread
    ensures SkillGap(view.members) <= view.policy.maxSkillGap
    ensures PredictionMatches(prediction, view, at) && |view.members| > 0
    ensures ParticipantsValid(prediction.participants, view, |prediction.participants|)
    ensures AtFill(view, at)
  {
    hide EstimatesOf, MaxFirstPlace, MinFirstPlace, FirstPlaceTotal, ParticipantsValid, SkillGap;
  }

  lemma RoomIsBounded(
    predict: Predictor, outcomes: Outcomes, w: Workload, config: RunConfig, room: SimulatedRoom, i: nat)
    requires config.Valid() && RoomOk(predict, outcomes, w, config, room, i)
    ensures RoomBounded(config.policy, room) && Sampleable(room)
  {
    hide InPartition, PairwiseWithin, Fairness, RoomRequest, OutcomeRequestOf, SkillGap;
    if room.filled.Some? {
      FairPrediction(predict, room.view, room.filled.value.at, room.filled.value.prediction);
    }
  }

  lemma SampledKeeps(policy: Policy, s: Samples, room: SimulatedRoom)
    requires SamplesExact(s) && SamplesBounded(policy, s) && RoomBounded(policy, room) && Sampleable(room)
    ensures SamplesExact(Sampled(s, room)) && SamplesBounded(policy, Sampled(s, room))
  {
    hide SkillGap, SpreadOf;
  }

  lemma {:induction false} SamplesKeep(policy: Policy, rooms: seq<SimulatedRoom>)
    requires AllSampleable(rooms) && policy.fillTimeout >= 0
    requires forall i :: 0 <= i < |rooms| ==> RoomBounded(policy, rooms[i])
    ensures SamplesExact(SamplesOf(rooms)) && SamplesBounded(policy, SamplesOf(rooms))
  {
    hide SamplesExact, SamplesBounded, RoomBounded, Sampled, Sampleable;
    if rooms == [] {
      NoSamplesKeep(policy);
    } else {
      var front, last := rooms[..|rooms| - 1], rooms[|rooms| - 1];
      SamplesKeep(policy, front);
      assert RoomBounded(policy, rooms[|rooms| - 1]);
      SampledKeeps(policy, SamplesOf(front), last);
    }
  }

  lemma {:induction false} NoSamplesKeep(policy: Policy)
    ensures SamplesExact(NO_SAMPLES) && SamplesBounded(policy, NO_SAMPLES)
  {
    NothingBounded(policy.fillTimeout, policy.maxSkillGap);
    NothingBounded(policy.fillTimeout, policy.maxWinProbabilitySpread);
    hide WithinLimit, AtMost;
  }

  lemma NothingBounded(limit: Duration, bound: real)
    ensures WithinLimit([], limit) && AtMost([], bound)
  {
  }

  // ---------------------------------------------------------------------
  // Totals
  // ---------------------------------------------------------------------

  ghost function TotalCounts(rooms: seq<SimulatedRoom>): Counts {
    if rooms == [] then NO_COUNTS else TotalCounts(rooms[..|rooms| - 1]).Plus(CountsOf(rooms[|rooms| - 1]))
  }

  lemma {:induction false} SamplesCount(rooms: seq<SimulatedRoom>)
    requires AllSampleable(rooms)
    ensures SamplesOf(rooms).counts == TotalCounts(rooms)
  {
    if rooms != [] {
      SamplesCount(rooms[..|rooms| - 1]);
      hide CountsOf, WaitsOf, ResolutionOf, SpreadOf, SkillGap;
    }
  }

  lemma {:induction false} TicketsArePlaced(rooms: seq<SimulatedRoom>)
    ensures TotalCounts(rooms).tickets == |Placed(rooms)| && TotalCounts(rooms).rooms == |rooms|
  {
    if rooms != [] {
      TicketsArePlaced(rooms[..|rooms| - 1]);
    }
  }

  /** Counters summed over the first partitions. */
  ghost function OverPartitions(rooms: seq<SimulatedRoom>, ps: seq<Partition>, k: nat): Counts
    requires k <= |ps|
  {
    if k == 0 then NO_COUNTS else OverPartitions(rooms, ps, k - 1).Plus(TotalCounts(Within(rooms, ps[k - 1].id)))
  }

  ghost predicate Listed(ps: seq<Partition>, k: nat, id: Id)
    requires k <= |ps|
  {
    exists i :: 0 <= i < k && ps[i].id == id
  }

  ghost predicate DistinctPartitions(ps: seq<Partition>) {
    forall i, j :: 0 <= i < j < |ps| ==> ps[i].id != ps[j].id
  }

  lemma CountsStep(rooms: seq<SimulatedRoom>, room: SimulatedRoom)
    ensures TotalCounts(rooms + [room]) == TotalCounts(rooms).Plus(CountsOf(room))
    ensures forall id :: Within(rooms + [room], id) == Within(rooms, id) + if room.partitionId == id then [room] else []
  {
    assert (rooms + [room])[..|rooms|] == rooms;
  }

  lemma {:induction false} OneMoreRoom(rooms: seq<SimulatedRoom>, room: SimulatedRoom, ps: seq<Partition>, k: nat)
    requires DistinctPartitions(ps) && k <= |ps|
    ensures OverPartitions(rooms + [room], ps, k)
      == if Listed(ps, k, room.partitionId) then OverPartitions(rooms, ps, k).Plus(CountsOf(room))
        else OverPartitions(rooms, ps, k)
  {
    hide Within, TotalCounts, CountsOf;
    if k > 0 {
      OneMoreRoom(rooms, room, ps, k - 1);
      var id := ps[k - 1].id;
      CountsStep(rooms, room);
      CountsStep(Within(rooms, id), room);
      assert Within(rooms, id) + [] == Within(rooms, id);
      assert Listed(ps, k, room.partitionId) <==> Listed(ps, k - 1, room.partitionId) || id == room.partitionId;
      assert Listed(ps, k - 1, room.partitionId) ==> id != room.partitionId;
    }
  }

  lemma {:induction false} NothingOver(ps: seq<Partition>, k: nat)
    requires k <= |ps|
    ensures OverPartitions([], ps, k) == NO_COUNTS
  {
    if k > 0 {
      NothingOver(ps, k - 1);
    }
  }

  lemma {:induction false} PartitionsCover(w: Workload, rooms: seq<SimulatedRoom>)
    requires Located(w, rooms) && DistinctPartitions(w.config.partitions)
    ensures OverPartitions(rooms, w.config.partitions, |w.config.partitions|) == TotalCounts(rooms)
  {
    var ps := w.config.partitions;
    if rooms == [] {
      NothingOver(ps, |ps|);
    } else {
      var front, last := rooms[..|rooms| - 1], rooms[|rooms| - 1];
      assert rooms == front + [last];
      PartitionsCover(w, front);
      OneMoreRoom(front, last, ps, |ps|);
      assert InPartition(w, rooms[|rooms| - 1]);
      LocatedIsListed(w, last);
      hide OverPartitions, CountsOf;
    }
  }

  lemma LocatedIsListed(w: Workload, room: SimulatedRoom)
    requires InPartition(w, room)
    ensures Listed(w.config.partitions, |w.config.partitions|, room.partitionId)
  {
    var p :| p in w.config.partitions && p.id == room.partitionId
      && p.modeId == room.view.modeId && p.capacity == room.view.capacity;
    var i :| 0 <= i < |w.config.partitions| && w.config.partitions[i] == p;
  }

  /** Counters of the reported partitions, added up. */
  ghost function ReportedCounts(r: RunReport, k: nat): Counts
    requires k <= |r.partitions|
  {
    if k == 0 then NO_COUNTS else ReportedCounts(r, k - 1).Plus(r.partitions[k - 1].samples.counts)
  }

  lemma {:induction false} ReportedAreCounts(
    log: real -> real, w: Workload, config: RunConfig, rooms: seq<SimulatedRoom>, r: RunReport, k: nat)
    requires ReportOk(log, w, config, rooms, r) && k <= |r.partitions|
    ensures ReportedCounts(r, k) == OverPartitions(rooms, w.config.partitions, k)
  {
    hide Within, TotalCounts, SamplesOf, AllSampleable, LatestResolution;
    if k > 0 {
      ReportedAreCounts(log, w, config, rooms, r, k - 1);
      assert PartitionOk(log, config, rooms, w.config.partitions[k - 1], r.partitions[k - 1]);
      SamplesCount(Within(rooms, w.config.partitions[k - 1].id));
    }
  }

  lemma ResolvedParts(predict: Predictor, outcomes: Outcomes, w: Workload, config: RunConfig, rooms: seq<SimulatedRoom>)
    requires config.Valid() && Resolved(predict, outcomes, w, config, rooms)
    ensures Located(w, rooms) && AllSampleable(rooms)
    ensures forall i :: 0 <= i < |rooms| ==> RoomBounded(config.policy, rooms[i])
  {
    hide RoomBounded, Sampleable, ViewOk, MembersOk, FilledOk, InPartition;
    forall i | 0 <= i < |rooms|
      ensures RoomBounded(config.policy, rooms[i]) && Sampleable(rooms[i]) && InPartition(w, rooms[i])
    {
      assert RoomOk(predict, outcomes, w, config, rooms[i], i);
      RoomIsBounded(predict, outcomes, w, config, rooms[i], i);
    }
  }

  /** The report of a run counts every arrival once, splits tickets and rooms
      exactly into filled and timed out, keeps every sample inside the policy, and
      its partitions add up to the whole. */
  lemma RunConserves(
    predict: Predictor, outcomes: Outcomes, w: Workload, config: RunConfig, rooms: seq<SimulatedRoom>,
    log: real -> real, r: RunReport)
    requires config.Valid() && WorkloadValid(w, config.policy.ratingModelVersion)
    requires Resolved(predict, outcomes, w, config, rooms) && ReportOk(log, w, config, rooms, r)
    ensures r.overall.counts.tickets == |w.arrivals| && r.overall.counts.rooms == |rooms|
    ensures SamplesExact(r.overall) && SamplesBounded(config.policy, r.overall)
    ensures ReportedCounts(r, |r.partitions|) == r.overall.counts
  {
    hide *;
    ResolvedParts(predict, outcomes, w, config, rooms);
    ReportParts(log, w, config, rooms, r);
    TimeoutPositive(config);
    SamplesKeep(config.policy, rooms);
    SamplesCount(rooms);
    TicketsArePlaced(rooms);
    AllPlaced(predict, outcomes, w, config, rooms);
    DistinctFrom(w, config);
    PartitionsCover(w, rooms);
    ReportedAreCounts(log, w, config, rooms, r, |r.partitions|);
  }

  lemma ReportParts(log: real -> real, w: Workload, config: RunConfig, rooms: seq<SimulatedRoom>, r: RunReport)
    requires ReportOk(log, w, config, rooms, r)
    ensures AllSampleable(rooms) && r.overall == SamplesOf(rooms) && |r.partitions| == |w.config.partitions|
  {
    hide PartitionOk, LatestResolution, AllSampleable, SamplesOf;
  }

  lemma TimeoutPositive(config: RunConfig)
    requires config.Valid()
    ensures config.policy.fillTimeout >= 0
  {
  }

  lemma AllPlaced(predict: Predictor, outcomes: Outcomes, w: Workload, config: RunConfig, rooms: seq<SimulatedRoom>)
    requires Resolved(predict, outcomes, w, config, rooms)
    ensures |Placed(rooms)| == |w.arrivals|
  {
    hide RoomsOk, Placed;
    assert |multiset(w.arrivals)| == |w.arrivals|;
  }

  lemma DistinctFrom(w: Workload, config: RunConfig)
    requires WorkloadValid(w, config.policy.ratingModelVersion)
    ensures DistinctPartitions(w.config.partitions)
  {
    hide ArrivalValid;
  }

  // ---------------------------------------------------------------------
  // A run that always reports
  // ---------------------------------------------------------------------

  /** Every prediction of a complete room of the workload is a coherent placement
      distribution for each participant. */
  ghost predicate PredictorCoherent(predict: Predictor, w: Workload) {
    forall room: RoomView, at: Time ::
      AtFill(room, at) && FromWorkload(w, room) && predict(RoomRequest(room, at)).Ok? ==>
        RowsCoherent(predict(RoomRequest(room, at)).value, |room.members|)
  }

  ghost predicate RowsCoherent(prediction: RoomPrediction, roomSize: nat) {
    forall i :: 0 <= i < |prediction.participants| ==> Calibration.PlacementValid(prediction.participants[i], roomSize)
  }

  /** The result of a request: the requested room, times and players, in the
      partition's mode. */
  ghost predicate Answers(config: RunConfig, room: SimulatedRoom, at: Time, result: MatchResult) {
    && result.Valid()
    && result.roomId == room.view.roomId && result.modeId == room.view.modeId
    && result.scoringRulesVersion == config.scoringRulesVersion
    && result.finishedAt == at + config.resultDelay
    && |result.participants| == |room.arrivals|
    && forall i :: 0 <= i < |room.arrivals| ==> HasResult(result, room.arrivals[i].playerId)
  }

  ghost predicate HasResult(result: MatchResult, playerId: Id) {
    exists i :: 0 <= i < |result.participants| && result.participants[i].playerId == playerId
  }

  function ObservationOf(f: Filled): Calibration.Observation {
    Calibration.Observation(f.prediction, f.result)
  }

  /** Outcomes that answer the request of every full room. */
  ghost predicate OutcomesAnswer(outcomes: Outcomes, w: Workload, config: RunConfig) {
    forall room: SimulatedRoom, at: Time :: Askable(w, config, room, at) ==>
      && outcomes(OutcomeRequestOf(config, room, at)).Ok?
      && Answers(config, room, at, outcomes(OutcomeRequestOf(config, room, at)).value)
  }

  lemma AnswersFilled(outcomes: Outcomes, w: Workload, config: RunConfig, room: SimulatedRoom, f: Filled)
    requires OutcomesAnswer(outcomes, w, config) && Askable(w, config, room, f.at)
    requires outcomes(OutcomeRequestOf(config, room, f.at)) == Ok(f.result)
    ensures Answers(config, room, f.at, f.result)
  {
    hide Answers, OutcomeRequestOf, Askable;
  }

  lemma CoherentFilled(predict: Predictor, w: Workload, room: RoomView, at: Time, prediction: RoomPrediction)
    requires PredictorCoherent(predict, w) && AtFill(room, at) && FromWorkload(w, room)
    requires predict(RoomRequest(room, at)) == Ok(prediction)
    ensures RowsCoherent(prediction, |room.members|)
  {
    hide AtFill, FromWorkload, RoomRequest, RowsCoherent;
  }

  /** The calibration segment of a partition. */
  function SegmentOf(config: RunConfig, p: Partition): Calibration.Segment
    requires p.capacity >= 0
  {
    Calibration.Segment(config.policy.ratingModelVersion, p.modeId, config.scoringRulesVersion, p.capacity)
  }

  lemma MembersFromWorkload(
    predict: Predictor, outcomes: Outcomes, w: Workload, config: RunConfig, rooms: seq<SimulatedRoom>, i: nat)
    requires Resolved(predict, outcomes, w, config, rooms) && i < |rooms|
    ensures FromWorkload(w, rooms[i].view)
  {
    hide Placed, InPartition, ViewOk, FilledOk, PairwiseWithin;
    assert RoomOk(predict, outcomes, w, config, rooms[i], i);
    forall m | m in rooms[i].view.members ensures exists a :: a in w.arrivals && CandidateOf(a) == m {
      var j :| 0 <= j < |rooms[i].view.members| && rooms[i].view.members[j] == m;
      PlacedHas(rooms, i, rooms[i].arrivals[j]);
      assert rooms[i].arrivals[j] in multiset(w.arrivals);
    }
  }

  /** What was fixed when a room filled scores in its partition's segment. */
  lemma FilledScores(
    predict: Predictor, outcomes: Outcomes, w: Workload, config: RunConfig, rooms: seq<SimulatedRoom>, i: nat,
    p: Partition)
    requires config.Valid() && WorkloadValid(w, config.policy.ratingModelVersion)
    requires Resolved(predict, outcomes, w, config, rooms) && i < |rooms| && rooms[i].filled.Some?
    requires PredictorCoherent(predict, w) && OutcomesAnswer(outcomes, w, config) && AvoidsZero(w, config)
    requires p in w.config.partitions && p.id == rooms[i].partitionId && p.capacity >= MIN_ROOM_SIZE
    ensures Calibration.Accepted(SegmentOf(config, p), ObservationOf(rooms[i].filled.value))
  {
    hide *;
    var room := rooms[i];
    var f := room.filled.value;
    FilledParts(predict, outcomes, w, config, rooms, i);
    FilledAtSetMoment(predict, outcomes, w, config, rooms, i);
    SameRoomPartition(w, config, room, p);
    FairPrediction(predict, room.view, f.at, f.prediction);
    MembersFromWorkload(predict, outcomes, w, config, rooms, i);
    CoherentFilled(predict, w, room.view, f.at, f.prediction);
    FilledIsAskable(predict, w, config, room, f);
    AnswersFilled(outcomes, w, config, room, f);
    ScoresFrom(config, room, f, p);
  }

  lemma FilledIsAskable(predict: Predictor, w: Workload, config: RunConfig, room: SimulatedRoom, f: Filled)
    requires InPartition(w, room) && room.view.roomId != 0 && MomentSet(config, f.at)
    requires room.view.members == Candidates(room.arrivals) && |room.arrivals| == room.view.capacity
    requires AtFill(room.view, f.at)
    ensures Askable(w, config, room, f.at)
  {
    hide InPartition, Policy.Valid;
    forall i | 0 <= i < |room.arrivals| ensures room.arrivals[i].playerId == room.view.members[i].playerId != 0 {
      assert room.view.members[i] in room.view.members;
    }
  }

  lemma FilledParts(
    predict: Predictor, outcomes: Outcomes, w: Workload, config: RunConfig, rooms: seq<SimulatedRoom>, i: nat)
    requires config.Valid() && Resolved(predict, outcomes, w, config, rooms) && i < |rooms| && rooms[i].filled.Some?
    ensures var room, f := rooms[i], rooms[i].filled.value;
      && InPartition(w, room) && room.view.policy == config.policy
      && room.view.members == Candidates(room.arrivals) && |room.arrivals| == room.view.capacity
      && predict(RoomRequest(room.view, f.at)) == Ok(f.prediction)
      && Fairness(predict, room.view, f.at).Ok? && Fairness(predict, room.view, f.at).value.withinHardLimits
      && outcomes(OutcomeRequestOf(config, room, f.at)) == Ok(f.result)
      && config.policy.ratingModelVersion != 0 && config.resultDelay > 0
      && room.view.roomId != 0 && f.at in set a | a in room.arrivals :: a.arrivedAt
  {
    hide InPartition, PairwiseWithin, Fairness, RoomRequest, OutcomeRequestOf, Placed;
    assert RoomOk(predict, outcomes, w, config, rooms[i], i);
    assert rooms[i].arrivals[|rooms[i].arrivals| - 1] in rooms[i].arrivals;
  }

  /** Rooms fill at the moments of arrivals. */
  lemma FilledAtSetMoment(
    predict: Predictor, outcomes: Outcomes, w: Workload, config: RunConfig, rooms: seq<SimulatedRoom>, i: nat)
    requires config.Valid() && WorkloadValid(w, config.policy.ratingModelVersion) && AvoidsZero(w, config)
    requires Resolved(predict, outcomes, w, config, rooms) && i < |rooms| && rooms[i].filled.Some?
    ensures MomentSet(config, rooms[i].filled.value.at)
  {
    hide *;
    FilledParts(predict, outcomes, w, config, rooms, i);
    var a :| a in rooms[i].arrivals && a.arrivedAt == rooms[i].filled.value.at;
    PlacedHas(rooms, i, a);
    PlacedAll(predict, outcomes, w, config, rooms);
    assert a in w.arrivals;
    var k: nat :| k < |w.arrivals| && w.arrivals[k] == a;
    MomentIsSet(w, config, k);
  }

  lemma PlacedAll(predict: Predictor, outcomes: Outcomes, w: Workload, config: RunConfig, rooms: seq<SimulatedRoom>)
    requires Resolved(predict, outcomes, w, config, rooms)
    ensures Placed(rooms) == multiset(w.arrivals)
  {
    hide RoomsOk, Placed;
  }

  lemma SameRoomPartition(w: Workload, config: RunConfig, room: SimulatedRoom, p: Partition)
    requires WorkloadValid(w, config.policy.ratingModelVersion) && InPartition(w, room)
    requires p in w.config.partitions && p.id == room.partitionId
    ensures p.modeId == room.view.modeId && p.capacity == room.view.capacity
  {
    hide ArrivalValid;
    var q :| q in w.config.partitions && q.id == room.partitionId && q.modeId == room.view.modeId
      && q.capacity == room.view.capacity;
    var i, j :| 0 <= i < |w.config.partitions| && w.config.partitions[i] == p
      && 0 <= j < |w.config.partitions| && w.config.partitions[j] == q;
  }

  lemma ScoresFrom(config: RunConfig, room: SimulatedRoom, f: Filled, p: Partition)
    requires room.view.policy == config.policy && p.modeId == room.view.modeId
      && p.capacity == room.view.capacity >= MIN_ROOM_SIZE
    requires room.view.members == Candidates(room.arrivals) && |room.arrivals| == room.view.capacity
    requires AtFill(room.view, f.at) && PredictionMatches(f.prediction, room.view, f.at)
    requires ParticipantsValid(f.prediction.participants, room.view, |f.prediction.participants|)
    requires RowsCoherent(f.prediction, |room.view.members|) && Answers(config, room, f.at, f.result)
    requires config.policy.ratingModelVersion != 0 && config.resultDelay > 0
    ensures Calibration.Accepted(SegmentOf(config, p), ObservationOf(f))
  {
    hide MatchResult.Valid, Calibration.PlacementValid, Calibration.Places, RoomView.Valid;
    var o, ps := ObservationOf(f), f.prediction.participants;
    forall i | 0 <= i < |ps| ensures ps[i].playerId in Calibration.AllPlaces(o) {
      assert ParticipantValid(ps[i], room.view);
      KnownPlayer(config, room, f, ps[i].playerId);
    }
    DistinctResult(f.result);
    PlacesSized(o.result.participants, |o.result.participants|);
    IdsSized(ps);
  }

  lemma DistinctResult(r: MatchResult)
    requires r.Valid()
    ensures forall i, j :: 0 <= i < j < |r.participants| ==> r.participants[i].playerId != r.participants[j].playerId
  {
  }

  lemma KnownPlayer(config: RunConfig, room: SimulatedRoom, f: Filled, playerId: Id)
    requires room.view.members == Candidates(room.arrivals) && Answers(config, room, f.at, f.result)
    requires HasPlayer(room.view.members, playerId)
    ensures playerId in Calibration.AllPlaces(ObservationOf(f))
  {
    hide MatchResult.Valid, Calibration.Places;
    var m :| m in room.view.members && m.playerId == playerId;
    var i :| 0 <= i < |room.view.members| && room.view.members[i] == m;
    assert room.arrivals[i].playerId == playerId;
    PlacesKnow(f.result.participants, |f.result.participants|, playerId);
  }

  lemma {:induction false} PlacesKnow(ps: seq<ParticipantResult>, k: nat, playerId: Id)
    requires k <= |ps|
    ensures (exists i :: 0 <= i < k && ps[i].playerId == playerId) ==> playerId in Calibration.Places(ps, k)
  {
    if k > 0 {
      PlacesKnow(ps, k - 1, playerId);
    }
  }

  lemma {:induction false} PlacesSized(ps: seq<ParticipantResult>, k: nat)
    requires k <= |ps| && forall i, j :: 0 <= i < j < |ps| ==> ps[i].playerId != ps[j].playerId
    ensures |Calibration.Places(ps, k)| == k
    ensures forall id :: id in Calibration.Places(ps, k) ==> exists i :: 0 <= i < k && ps[i].playerId == id
  {
    if k > 0 {
      PlacesSized(ps, k - 1);
      assert ps[k - 1].playerId !in Calibration.Places(ps, k - 1);
      assert Calibration.Places(ps, k).Keys == Calibration.Places(ps, k - 1).Keys + {ps[k - 1].playerId};
    }
  }

  lemma {:induction false} IdsSized(ps: seq<PlacementPrediction>)
    requires forall i, j :: 0 <= i < j < |ps| ==> ps[i].playerId != ps[j].playerId
    ensures |Calibration.PlayerIds(ps)| == |ps|
    ensures forall id :: id in Calibration.PlayerIds(ps) <==> exists i :: 0 <= i < |ps| && ps[i].playerId == id
  {
    if ps != [] {
      var front, last := ps[..|ps| - 1], ps[|ps| - 1];
      assert ps == front + [last];
      IdsSized(front);
      assert last.playerId !in Calibration.PlayerIds(front);
      assert Calibration.PlayerIds(ps) == Calibration.PlayerIds(front) + {last.playerId};
      assert ps[|ps| - 1].playerId == last.playerId;
    } else {
      assert Calibration.PlayerIds(ps) == {};
    }
  }

  /** Every observation of a set of rooms is that of one of its filled rooms. */
  lemma {:induction false} ObservedRooms(rooms: seq<SimulatedRoom>, o: Calibration.Observation)
    requires AllSampleable(rooms) && o in SamplesOf(rooms).observations
    ensures exists i :: 0 <= i < |rooms| && rooms[i].filled.Some? && ObservationOf(rooms[i].filled.value) == o
  {
    hide CountsOf, WaitsOf, ResolutionOf, SpreadOf, SkillGap;
    if rooms != [] {
      var front, last := rooms[..|rooms| - 1], rooms[|rooms| - 1];
      if o in SamplesOf(front).observations {
        ObservedRooms(front, o);
        var i :| 0 <= i < |front| && front[i].filled.Some? && ObservationOf(front[i].filled.value) == o;
        assert rooms[i] == front[i];
      } else {
        assert rooms[|rooms| - 1].filled.Some? && ObservationOf(rooms[|rooms| - 1].filled.value) == o;
      }
    }
  }

  lemma UniformCalibrates(log: real -> real, segment: Calibration.Segment, os: seq<Calibration.Observation>, n: int)
    requires 2 <= n <= 100 && forall o :: o in os ==> Calibration.Accepted(segment, o)
    ensures os != [] ==> Calibration.Calibrated(log, os, n).Ok?
  {
    hide Calibration.ReportOf, Calibration.TallyOf, Calibration.AllCells, Calibration.PredictionsAccepted,
      MatchResult.Valid;
    if os != [] {
      assert os[0] in os;
      assert forall i :: 0 <= i < |os| ==> Calibration.Accepted(segment, os[i]);
    }
  }

  lemma PartitionReports(
    predict: Predictor, outcomes: Outcomes, w: Workload, config: RunConfig, rooms: seq<SimulatedRoom>,
    log: real -> real, i: nat)
    requires config.Valid() && WorkloadValid(w, config.policy.ratingModelVersion)
    requires Resolved(predict, outcomes, w, config, rooms)
    requires PredictorCoherent(predict, w) && OutcomesAnswer(outcomes, w, config) && AvoidsZero(w, config)
    requires i < |w.config.partitions|
    ensures var within := Within(rooms, w.config.partitions[i].id);
      AllSampleable(within) && Calibrates(log, config, SamplesOf(within))
  {
    hide *;
    var p := w.config.partitions[i];
    ResolvedParts(predict, outcomes, w, config, rooms);
    WithinSampleable(rooms, p.id);
    WithinFrom(rooms, p.id);
    var within := Within(rooms, p.id);
    PartitionSized(w, config, i);
    forall o | o in SamplesOf(within).observations ensures Calibration.Accepted(SegmentOf(config, p), o) {
      ObservedRooms(within, o);
      var j :| 0 <= j < |within| && within[j].filled.Some? && ObservationOf(within[j].filled.value) == o;
      assert within[j] in rooms && within[j].partitionId == p.id;
      var k :| 0 <= k < |rooms| && rooms[k] == within[j];
      FilledScores(predict, outcomes, w, config, rooms, k, p);
    }
    BinsInRange(config);
    UniformCalibrates(log, SegmentOf(config, p), SamplesOf(within).observations, config.binCount);
    CalibratesFrom(log, config, SamplesOf(within));
  }

  lemma CalibratesFrom(log: real -> real, config: RunConfig, s: Samples)
    requires s.observations != [] ==> Calibration.Calibrated(log, s.observations, config.binCount).Ok?
    ensures Calibrates(log, config, s)
  {
    hide Calibration.Calibrated;
  }

  lemma BinsInRange(config: RunConfig)
    requires config.Valid()
    ensures 2 <= config.binCount <= 100
  {
  }

  lemma PartitionSized(w: Workload, config: RunConfig, i: nat)
    requires WorkloadValid(w, config.policy.ratingModelVersion) && i < |w.config.partitions|
    ensures w.config.partitions[i].capacity >= MIN_ROOM_SIZE > 0 && w.config.partitions[i] in w.config.partitions
  {
    hide ArrivalValid;
  }

  /** The rooms of a valid run can always be reported. */
  lemma RunReports(
    predict: Predictor, outcomes: Outcomes, w: Workload, config: RunConfig, rooms: seq<SimulatedRoom>,
    log: real -> real)
    requires config.Valid() && WorkloadValid(w, config.policy.ratingModelVersion)
    requires Resolved(predict, outcomes, w, config, rooms)
    requires PredictorCoherent(predict, w) && OutcomesAnswer(outcomes, w, config) && AvoidsZero(w, config)
    ensures Located(w, rooms) && Reportable(log, w, config, rooms)
  {
    hide Resolved, WorkloadValid, RunConfig.Valid, PredictorCoherent, OutcomesAnswer, AllSampleable, Calibrates,
      SamplesOf, Within, Located;
    ResolvedParts(predict, outcomes, w, config, rooms);
    forall i | 0 <= i < |w.config.partitions|
      ensures var within := Within(rooms, w.config.partitions[i].id);
        AllSampleable(within) && Calibrates(log, config, SamplesOf(within))
    {
      PartitionReports(predict, outcomes, w, config, rooms, log, i);
    }
  }

  // ---------------------------------------------------------------------
  // The baseline as predictor
  // ---------------------------------------------------------------------

  /** The arrivals carry ratings that the model reads. */
  ghost predicate ReadsWorkload(model: Baseline, w: Workload) {
    && model.Valid() && model.config.version == w.config.ratingModelVersion
    && forall a :: a in w.arrivals ==>
      a.rating.modelVersion == w.config.ratingModelVersion
      && model.config.minimumUncertainty <= a.rating.uncertainty <= model.config.maximumUncertainty
  }

  lemma WorkloadRoomIsRead(model: Baseline, w: Workload, room: RoomView)
    requires ReadsWorkload(model, w) && room.Valid() && |room.members| == room.capacity && FromWorkload(w, room)
    ensures ReadsRoom(model, room)
  {
    hide Baseline.Valid, Candidate.Valid, Policy.Valid;
    forall m | m in room.members
      ensures m.rating.modelVersion == model.config.version
      ensures model.config.minimumUncertainty <= m.rating.uncertainty <= model.config.maximumUncertainty
    {
      var a :| a in w.arrivals && CandidateOf(a) == m;
    }
    assert room.members[0] in room.members;
  }

  /** With the baseline every complete room of such a workload is decided, by a
      coherent prediction. */
  lemma BaselineDecides(model: Baseline, w: Workload)
    requires ReadsWorkload(model, w)
    ensures model.Valid()
    ensures PredictorDecides(AsPredictor(model), w) && PredictorCoherent(AsPredictor(model), w)
  {
    hide RoomView.Valid, FromWorkload, Fairness, ReadsRoom, RowsCoherent, RoomRequest, Predicted, SnapshotsBy;
    ModelIsValid(model, w);
    hide Baseline.Valid, ReadsWorkload;
    forall room: RoomView, at: Time | AtFill(room, at) && FromWorkload(w, room)
      ensures Fairness(AsPredictor(model), room, at).Ok?
      ensures AsPredictor(model)(RoomRequest(room, at)).Ok? ==>
        RowsCoherent(AsPredictor(model)(RoomRequest(room, at)).value, |room.members|)
    {
      WorkloadRoomIsRead(model, w, room);
      FairnessAlwaysDecides(model, room, at);
      RowsAreCoherent(model, room, at);
    }
  }

  lemma ModelIsValid(model: Baseline, w: Workload)
    requires ReadsWorkload(model, w)
    ensures model.Valid()
  {
  }

  lemma RowsAreCoherent(model: Baseline, room: RoomView, at: Time)
    requires model.Valid() && AtFill(room, at) && ReadsRoom(model, room)
    ensures Predicted(model, RoomRequest(room, at)).Ok?
    ensures RowsCoherent(Predicted(model, RoomRequest(room, at)).value, |room.members|)
  {
    PredictionValidates(model, room, at);
    var prediction := Predicted(model, RoomRequest(room, at)).value;
    var ids, es, w := PredictionParts(model, RoomRequest(room, at));
    PredictionAddressed(model, room, at);
    hide *;
    forall i | 0 <= i < |ids|
      ensures Calibration.PlacementValid(PlacementOf(w, ids[i], i), |ids|)
    {
      var m := RequestedBySomebody(room, at, ids[i]);
      RequestedRating(model, room, at, m);
      RowIsCoherent(w, ids[i], i);
    }
    RowsFromList(prediction, room, at, ids, w);
  }

  lemma RowsFromList(prediction: RoomPrediction, room: RoomView, at: Time, ids: seq<Id>, w: seq<real>)
    requires Positive(w) && |ids| == |w| && prediction.participants == Participants(ids, w)
    requires PredictionMatches(prediction, room, at)
    requires forall i :: 0 <= i < |ids| ==> Calibration.PlacementValid(PlacementOf(w, ids[i], i), |ids|)
    ensures RowsCoherent(prediction, |room.members|)
  {
    hide Calibration.PlacementValid, PlacementOf;
  }

  /** A row of the placement distribution, as the calibration reads it. */
  lemma RowIsCoherent(w: seq<real>, id: Id, i: nat)
    requires Positive(w) && i < |w| && id != 0
    ensures Calibration.PlacementValid(PlacementOf(w, id, i), |w|)
  {
    hide PlaceProbability, ExpectedPlaceUpTo, TopProbability;
    var ps := PlacementOf(w, id, i).placeProbabilities;
    SumsOfRow(w, id, i, |w|);
    PlacesSumToOne(w, i);
    forall k | 0 <= k < |ps| ensures 0.0 <= ps[k] <= 1.0 {
      EntryIsProbability(w, i, k);
    }
  }

  lemma {:induction false} SumsOfRow(w: seq<real>, id: Id, i: nat, m: nat)
    requires Positive(w) && i < |w| && m <= |w|
    ensures Calibration.ProbabilitySum(PlacementOf(w, id, i).placeProbabilities, m) == TopProbability(w, i, m)
    ensures Calibration.ExpectedPlaceOf(PlacementOf(w, id, i).placeProbabilities, m) == ExpectedPlaceUpTo(w, i, m)
  {
    hide PlaceProbability;
    if m > 0 {
      SumsOfRow(w, id, i, m - 1);
    }
  }
}

/** The run keeps its rooms exact and, for capabilities that decide, never fails. */
module SimulatorRun {
  import opened Common
  import opened RatingTypes
  import opened MatchTypes
  import opened Eligibility
  import opened Selector
  import opened Orchestration
  import opened Priority
  import opened Simulator
  import opened RoomFormation

  /** Everything known after the first `k` arrivals. */
  ghost predicate State(
    predict: Predictor, outcomes: Outcomes, w: Workload, config: RunConfig,
    rooms: seq<SimulatedRoom>, active: map<Id, seq<nat>>, k: nat)
    requires k <= |w.arrivals|
  {
    && RoomsOk(predict, outcomes, w, config, rooms) && ActiveOk(rooms, active)
    && Placed(rooms) == multiset(w.arrivals[..k])
  }

  /** No moment at the zero time, a predictor that decides every complete room and
      an outcome for every full one. */
  ghost predicate Smooth(predict: Predictor, outcomes: Outcomes, w: Workload, config: RunConfig) {
    AvoidsZero(w, config) && PredictorDecides(predict, w) && OutcomesDecide(outcomes, w, config)
  }

  // ---------------------------------------------------------------------
  // Placed arrivals
  // ---------------------------------------------------------------------

  lemma {:induction false} PlacedHas(rooms: seq<SimulatedRoom>, i: nat, a: Arrival)
    requires i < |rooms| && a in rooms[i].arrivals
    ensures a in Placed(rooms)
  {
    if i < |rooms| - 1 {
      PlacedHas(rooms[..|rooms| - 1], i, a);
    } else {
      assert a in multiset(rooms[i].arrivals);
    }
  }

  lemma PlacedOpen(rooms: seq<SimulatedRoom>, room: SimulatedRoom)
    ensures Placed(rooms + [room]) == Placed(rooms) + multiset(room.arrivals)
  {
    assert (rooms + [room])[..|rooms|] == rooms;
  }

  lemma {:induction false} PlacedJoin(rooms: seq<SimulatedRoom>, i: nat, room: SimulatedRoom, a: Arrival)
    requires i < |rooms| && room.arrivals == rooms[i].arrivals + [a]
    ensures Placed(rooms[i := room]) == Placed(rooms) + multiset{a}
  {
    var last := |rooms| - 1;
    if i == last {
      assert rooms[i := room][..last] == rooms[..last];
    } else {
      PlacedJoin(rooms[..last], i, room, a);
      assert rooms[i := room][..last] == rooms[..last][i := room];
    }
  }

  /** Whoever sits in a room arrived earlier than the next arrival. */
  lemma {:induction false} ArrivedBefore(
      w: Workload, modelVersion: Id, rooms: seq<SimulatedRoom>, k: nat, i: nat, a: Arrival)
    requires WorkloadValid(w, modelVersion) && k < |w.arrivals| && Placed(rooms) == multiset(w.arrivals[..k])
    requires i < |rooms| && a in rooms[i].arrivals
    ensures a in w.arrivals && w.config.startedAt <= a.arrivedAt < w.arrivals[k].arrivedAt
    ensures exists j :: 0 <= j < k && w.arrivals[j] == a
  {
    hide ArrivalValid;
    PlacedHas(rooms, i, a);
    assert a in w.arrivals[..k];
    var j :| 0 <= j < k && w.arrivals[..k][j] == a;
    assert w.arrivals[j] == a;
    ArrivalsInOrder(w, modelVersion, j, k);
  }

  // ---------------------------------------------------------------------
  // No step fails
  // ---------------------------------------------------------------------

  lemma CandidateValid(w: Workload, modelVersion: Id, j: nat)
    requires WorkloadValid(w, modelVersion) && j < |w.arrivals| && w.arrivals[j].arrivedAt != 0
    ensures CandidateOf(w.arrivals[j]).Valid() && w.arrivals[j].rating.modelVersion == modelVersion
    ensures w.arrivals[j].snapshotAt == w.arrivals[j].arrivedAt
  {
    assert ArrivalValid(w, modelVersion, j);
  }

  lemma {:induction false} MemberValid(
      w: Workload, config: RunConfig, rooms: seq<SimulatedRoom>, k: nat, i: nat, a: Arrival)
    requires WorkloadValid(w, config.policy.ratingModelVersion) && AvoidsZero(w, config) && k < |w.arrivals|
    requires Placed(rooms) == multiset(w.arrivals[..k]) && i < |rooms| && a in rooms[i].arrivals
    ensures CandidateOf(a).Valid() && a.rating.modelVersion == config.policy.ratingModelVersion
    ensures a.snapshotAt == a.arrivedAt && a in w.arrivals
    ensures a.arrivedAt < w.arrivals[k].arrivedAt && MomentSet(config, a.arrivedAt)
  {
    hide WorkloadValid;
    ArrivedBefore(w, config.policy.ratingModelVersion, rooms, k, i, a);
    var j :| 0 <= j < k && w.arrivals[j] == a;
    CandidateValid(w, config.policy.ratingModelVersion, j);
  }

  /** A forming room is valid, and active at the next arrival. */
  lemma ViewIsValid(
    predict: Predictor, outcomes: Outcomes, w: Workload, config: RunConfig, rooms: seq<SimulatedRoom>, k: nat, i: nat)
    requires WorkloadValid(w, config.policy.ratingModelVersion) && config.Valid() && AvoidsZero(w, config)
    requires k < |w.arrivals| && Placed(rooms) == multiset(w.arrivals[..k])
    requires i < |rooms| && RoomOk(predict, outcomes, w, config, rooms[i], i)
    ensures rooms[i].view.Valid() && rooms[i].view.createdAt <= w.arrivals[k].arrivedAt
    ensures FromWorkload(w, rooms[i].view) && SnapshotsBy(rooms[i].view.members, w.arrivals[k].arrivedAt)
  {
    hide FilledOk, PairwiseWithin, Candidate.Valid, ArrivalValid, Placed;
    var room := rooms[i];
    PartitionBounds(w, config, room);
    forall m | m in room.view.members
      ensures m.Valid() && m.snapshotAt <= room.view.deadline
        && m.rating.modelVersion == config.policy.ratingModelVersion
      ensures exists a :: a in w.arrivals && CandidateOf(a) == m
      ensures m.snapshotAt <= w.arrivals[k].arrivedAt
    {
      var j :| 0 <= j < |room.view.members| && room.view.members[j] == m;
      assert room.arrivals[j] in room.arrivals;
      MemberValid(w, config, rooms, k, i, room.arrivals[j]);
    }
    MemberValid(w, config, rooms, k, i, room.arrivals[0]);
  }

  lemma PartitionBounds(w: Workload, config: RunConfig, room: SimulatedRoom)
    requires WorkloadValid(w, config.policy.ratingModelVersion) && InPartition(w, room)
    ensures MIN_ROOM_SIZE <= room.view.capacity <= MAX_ROOM_SIZE && room.view.modeId != 0
  {
    hide ArrivalValid;
    var p :| p in w.config.partitions && p.id == room.partitionId
      && p.modeId == room.view.modeId && p.capacity == room.view.capacity;
    var i :| 0 <= i < |w.config.partitions| && w.config.partitions[i] == p;
  }

  /** Rooms of one partition are interchangeable to the scope check. */
  lemma SamePartition(w: Workload, config: RunConfig, a: SimulatedRoom, b: SimulatedRoom)
    requires WorkloadValid(w, config.policy.ratingModelVersion)
    requires InPartition(w, a) && InPartition(w, b) && a.partitionId == b.partitionId
    ensures a.view.modeId == b.view.modeId && a.view.capacity == b.view.capacity
  {
    hide ArrivalValid;
    var p :| p in w.config.partitions && p.id == a.partitionId && p.modeId == a.view.modeId
      && p.capacity == a.view.capacity;
    var q :| q in w.config.partitions && q.id == b.partitionId && q.modeId == b.view.modeId
      && q.capacity == b.view.capacity;
    var i, j :| 0 <= i < |w.config.partitions| && w.config.partitions[i] == p
      && 0 <= j < |w.config.partitions| && w.config.partitions[j] == q;
  }

  /** With a deciding predictor every valid room of the workload decides every
      valid candidate of the workload. */
  lemma DecisionExists(predict: Predictor, w: Workload, view: RoomView, c: Candidate, at: Time)
    requires PredictorDecides(predict, w) && view.Valid() && c.Valid() && FromWorkload(w, view)
    requires exists a :: a in w.arrivals && CandidateOf(a) == c
    requires view.createdAt <= at && at != 0 && SnapshotsBy(view.members, at)
    requires c.snapshotAt <= view.deadline
    ensures Decide(predict, view, c, at).Ok?
  {
    hide PredictorDecides, Fairness, SkillGap, Candidate.Valid;
    var full := view.(members := view.members + [c]);
    assert view.policy.Valid();
    if |full.members| == view.capacity && Clash(view.members, c).None?
       && c.rating.modelVersion == view.policy.ratingModelVersion && c.snapshotAt <= at && at <= view.deadline {
      FullIsValid(view, c);
      FullFromWorkload(w, view, c);
      FullDecides(predict, w, full, at);
    }
  }

  lemma FullFromWorkload(w: Workload, view: RoomView, c: Candidate)
    requires FromWorkload(w, view) && exists a :: a in w.arrivals && CandidateOf(a) == c
    ensures FromWorkload(w, view.(members := view.members + [c]))
  {
  }

  lemma FullIsValid(view: RoomView, c: Candidate)
    requires view.Valid() && c.Valid() && |view.members| + 1 == view.capacity && Clash(view.members, c).None?
    requires c.rating.modelVersion == view.policy.ratingModelVersion && c.snapshotAt <= view.deadline
    ensures view.(members := view.members + [c]).Valid()
  {
    hide Candidate.Valid, Policy.Valid, Clash;
    forall i | 0 <= i < |view.members|
      ensures view.members[i].ticketId != c.ticketId && view.members[i].playerId != c.playerId
    {
      assert view.members[i] in view.members;
    }
  }

  lemma FullDecides(predict: Predictor, w: Workload, full: RoomView, at: Time)
    requires PredictorDecides(predict, w) && full.Valid() && |full.members| == full.capacity
    requires FromWorkload(w, full) && full.createdAt <= at <= full.deadline && at != 0 && SnapshotsBy(full.members, at)
    ensures Fairness(predict, full, at).Ok?
  {
    hide Fairness, RoomView.Valid, SnapshotsBy, FromWorkload;
  }

  lemma {:induction false} OptionsExist(predict: Predictor, views: seq<RoomView>, c: Candidate, at: Time, k: nat)
    requires k <= |views| && forall i :: 0 <= i < |views| ==> Decide(predict, views[i], c, at).Ok?
    ensures OptionsOf(predict, views, c, at, k).Ok?
  {
    hide Decide;
    if k > 0 {
      OptionsExist(predict, views, c, at, k - 1);
    }
  }

  /** The attempt that the run makes for one arrival. */
  function AttemptFor(config: RunConfig, a: Arrival, views: seq<RoomView>): MatchAttempt {
    MatchAttempt(TicketAccepted, a.arrivedAt, CandidateOf(a), config.policy, views)
  }

  /** A new ticket never times out at its own arrival. */
  lemma NeverTimedOut(predict: Predictor, config: RunConfig, a: Arrival, views: seq<RoomView>)
    requires config.Valid() && Attempt(predict, AttemptFor(config, a, views)).Ok?
    ensures !Attempt(predict, AttemptFor(config, a, views)).value.TimedOut?
  {
    hide Selection, AttemptValid;
  }

  lemma AttemptSucceeds(
    predict: Predictor, outcomes: Outcomes, w: Workload, config: RunConfig,
    rooms: seq<SimulatedRoom>, live: seq<nat>, views: seq<RoomView>, k: nat)
    requires WorkloadValid(w, config.policy.ratingModelVersion) && config.Valid()
    requires AvoidsZero(w, config) && PredictorDecides(predict, w)
    requires k < |w.arrivals| && RoomsOk(predict, outcomes, w, config, rooms)
      && Placed(rooms) == multiset(w.arrivals[..k])
    requires LivePartition(rooms, live, w.arrivals[k].partitionId, w.arrivals[k].arrivedAt)
    requires |views| <= config.policy.roomLimit && forall i :: 0 <= i < |views| ==> IsView(rooms, live, views[i])
    requires DistinctIds(views)
    ensures Attempt(predict, AttemptFor(config, w.arrivals[k], views)).Ok?
  {
    hide *;
    var a := w.arrivals[k];
    MomentIsSet(w, config, k);
    CandidateValid(w, config.policy.ratingModelVersion, k);
    forall i | 0 <= i < |views|
      ensures views[i].Valid() && views[i].createdAt <= a.arrivedAt && views[i].policy == config.policy
      ensures views[i].modeId == views[0].modeId && views[i].capacity == views[0].capacity
      ensures Decide(predict, views[i], CandidateOf(a), a.arrivedAt).Ok?
    {
      OneView(predict, outcomes, w, config, rooms, live, views[i], k);
      SameScope(predict, outcomes, w, config, rooms, live, views[0], views[i], a.partitionId, a.arrivedAt);
    }
    OptionsExist(predict, views, CandidateOf(a), a.arrivedAt, |views|);
    AttemptFromParts(predict, config, a, views);
  }

  ghost predicate LivePartition(rooms: seq<SimulatedRoom>, live: seq<nat>, id: Id, now: Time) {
    && Below(live, |rooms|)
    && forall k :: 0 <= k < |live| ==>
      Forming(rooms[live[k]]) && now <= rooms[live[k]].view.deadline && rooms[live[k]].partitionId == id
  }

  lemma MomentIsSet(w: Workload, config: RunConfig, k: nat)
    requires WorkloadValid(w, config.policy.ratingModelVersion) && AvoidsZero(w, config) && k < |w.arrivals|
    ensures MomentSet(config, w.arrivals[k].arrivedAt) && w.arrivals[k].arrivedAt != 0
  {
    hide ArrivalValid;
  }

  lemma OneView(
    predict: Predictor, outcomes: Outcomes, w: Workload, config: RunConfig,
    rooms: seq<SimulatedRoom>, live: seq<nat>, view: RoomView, k: nat)
    requires WorkloadValid(w, config.policy.ratingModelVersion) && config.Valid()
    requires AvoidsZero(w, config) && PredictorDecides(predict, w)
    requires k < |w.arrivals| && RoomsOk(predict, outcomes, w, config, rooms)
      && Placed(rooms) == multiset(w.arrivals[..k])
    requires LivePartition(rooms, live, w.arrivals[k].partitionId, w.arrivals[k].arrivedAt) && IsView(rooms, live, view)
    ensures view.Valid() && view.createdAt <= w.arrivals[k].arrivedAt && view.policy == config.policy
    ensures Decide(predict, view, CandidateOf(w.arrivals[k]), w.arrivals[k].arrivedAt).Ok?
  {
    hide WorkloadValid, PredictorDecides, Decide, FilledOk, MembersOk, InPartition, RoomView.Valid, RunConfig.Valid,
      Placed, FromWorkload, SnapshotsBy, Candidate.Valid;
    var a := w.arrivals[k];
    var l :| 0 <= l < |live| && rooms[live[l]].view == view;
    assert RoomOk(predict, outcomes, w, config, rooms[live[l]], live[l]);
    ViewIsValid(predict, outcomes, w, config, rooms, k, live[l]);
    MomentIsSet(w, config, k);
    CandidateValid(w, config.policy.ratingModelVersion, k);
    assert a in w.arrivals;
    DecisionExists(predict, w, view, CandidateOf(a), a.arrivedAt);
  }

  lemma SameScope(
    predict: Predictor, outcomes: Outcomes, w: Workload, config: RunConfig,
    rooms: seq<SimulatedRoom>, live: seq<nat>, a: RoomView, b: RoomView, id: Id, now: Time)
    requires WorkloadValid(w, config.policy.ratingModelVersion) && RoomsOk(predict, outcomes, w, config, rooms)
    requires LivePartition(rooms, live, id, now) && IsView(rooms, live, a) && IsView(rooms, live, b)
    ensures a.modeId == b.modeId && a.capacity == b.capacity
  {
    hide WorkloadValid, FilledOk, MembersOk, ViewOk, InPartition;
    var i, j :| 0 <= i < |live| && rooms[live[i]].view == a && 0 <= j < |live| && rooms[live[j]].view == b;
    assert RoomOk(predict, outcomes, w, config, rooms[live[i]], live[i]);
    assert RoomOk(predict, outcomes, w, config, rooms[live[j]], live[j]);
    SamePartition(w, config, rooms[live[i]], rooms[live[j]]);
  }

  lemma AttemptFromParts(predict: Predictor, config: RunConfig, a: Arrival, views: seq<RoomView>)
    requires config.Valid() && a.arrivedAt != 0 && CandidateOf(a).Valid() && a.snapshotAt == a.arrivedAt
    requires a.rating.modelVersion == config.policy.ratingModelVersion
    requires |views| <= config.policy.roomLimit && DistinctIds(views)
    requires forall i :: 0 <= i < |views| ==>
      && views[i].Valid() && views[i].createdAt <= a.arrivedAt && views[i].policy == config.policy
      && views[i].modeId == views[0].modeId && views[i].capacity == views[0].capacity
    requires OptionsOf(predict, views, CandidateOf(a), a.arrivedAt, |views|).Ok?
    ensures Attempt(predict, AttemptFor(config, a, views)).Ok?
  {
    hide OptionsOf, RoomView.Valid, Candidate.Valid, RetryBoundary, Least, SelectionOf;
  }

  // ---------------------------------------------------------------------
  // One arrival
  // ---------------------------------------------------------------------

  lemma LiveWaits(
    predict: Predictor, outcomes: Outcomes, w: Workload, config: RunConfig, rooms: seq<SimulatedRoom>, live: seq<nat>,
    k: nat)
    requires WorkloadValid(w, config.policy.ratingModelVersion) && config.Valid() && AvoidsZero(w, config)
    requires k < |w.arrivals| && RoomsOk(predict, outcomes, w, config, rooms)
      && Placed(rooms) == multiset(w.arrivals[..k])
    requires LivePartition(rooms, live, w.arrivals[k].partitionId, w.arrivals[k].arrivedAt)
    ensures w.arrivals[k].arrivedAt != 0
    ensures forall l :: 0 <= l < |live| ==> Waiting(rooms[live[l]].view, w.arrivals[k].arrivedAt)
  {
    hide WorkloadValid, RunConfig.Valid, RoomOk, RoomView.Valid, Placed;
    MomentIsSet(w, config, k);
    forall l | 0 <= l < |live| ensures Waiting(rooms[live[l]].view, w.arrivals[k].arrivedAt) {
      assert RoomOk(predict, outcomes, w, config, rooms[live[l]], live[l]);
      ViewIsValid(predict, outcomes, w, config, rooms, k, live[l]);
    }
  }

  lemma LiveDistinct(
    predict: Predictor, outcomes: Outcomes, w: Workload, config: RunConfig, rooms: seq<SimulatedRoom>, live: seq<nat>)
    requires RoomsOk(predict, outcomes, w, config, rooms) && Below(live, |rooms|)
    requires forall k, l :: 0 <= k < l < |live| ==> live[k] != live[l]
    ensures DistinctViews(rooms, live)
  {
    hide InPartition, MembersOk, FilledOk;
    forall k | 0 <= k < |live| ensures rooms[live[k]].view.roomId == live[k] + 1 {
      assert RoomOk(predict, outcomes, w, config, rooms[live[k]], live[k]);
    }
  }

  /** A forming room of the arrival's partition that finds the arrival eligible. */
  ghost predicate CanSeat(predict: Predictor, room: SimulatedRoom, a: Arrival) {
    && Forming(room) && room.partitionId == a.partitionId && a.arrivedAt <= room.view.deadline
    && Decide(predict, room.view, CandidateOf(a), a.arrivedAt).Ok?
    && Decide(predict, room.view, CandidateOf(a), a.arrivedAt).value.eligible
  }

  ghost predicate IsChosen(predict: Predictor, rooms: seq<SimulatedRoom>, a: Arrival, id: Id) {
    1 <= id <= |rooms| && CanSeat(predict, rooms[id - 1], a)
  }

  /** The matcher names a live room that finds the arrival eligible. */
  lemma ChosenRoom(
    predict: Predictor, outcomes: Outcomes, w: Workload, config: RunConfig,
    rooms: seq<SimulatedRoom>, live: seq<nat>, views: seq<RoomView>, a: Arrival)
    requires RoomsOk(predict, outcomes, w, config, rooms) && LivePartition(rooms, live, a.partitionId, a.arrivedAt)
    requires forall i :: 0 <= i < |views| ==> IsView(rooms, live, views[i])
    requires Attempt(predict, AttemptFor(config, a, views)).Ok?
    requires Attempt(predict, AttemptFor(config, a, views)).value.Matched?
    ensures IsChosen(predict, rooms, a, Attempt(predict, AttemptFor(config, a, views)).value.selection.roomId)
  {
    hide *;
    var selection := MatchedSelection(predict, config, a, views);
    var rank := SelectedIsEligible(predict, views, CandidateOf(a), a.arrivedAt);
    LiveIsBelow(rooms, live, a.partitionId, a.arrivedAt);
    var l := ViewPosition(rooms, live, views[rank]);
    LiveRoom(predict, outcomes, w, config, rooms, live, l, a);
    SeatIn(predict, rooms, live[l], a, selection);
  }

  lemma MatchedSelection(
      predict: Predictor, config: RunConfig, a: Arrival, views: seq<RoomView>) returns (selection: RoomSelection)
    requires Attempt(predict, AttemptFor(config, a, views)).Ok?
    requires Attempt(predict, AttemptFor(config, a, views)).value.Matched?
    ensures Selection(predict, views, CandidateOf(a), a.arrivedAt).Ok?
    ensures Selection(predict, views, CandidateOf(a), a.arrivedAt).value == Some(selection)
    ensures Attempt(predict, AttemptFor(config, a, views)).value.selection == selection
  {
    hide Selection, AttemptValid, RetryBoundary;
    selection := Selection(predict, views, CandidateOf(a), a.arrivedAt).value.value;
  }

  lemma ViewPosition(rooms: seq<SimulatedRoom>, live: seq<nat>, view: RoomView) returns (l: nat)
    requires Below(live, |rooms|) && IsView(rooms, live, view)
    ensures l < |live| && rooms[live[l]].view == view
  {
    l :| l < |live| && rooms[live[l]].view == view;
  }

  lemma LiveRoom(
    predict: Predictor, outcomes: Outcomes, w: Workload, config: RunConfig,
    rooms: seq<SimulatedRoom>, live: seq<nat>, l: nat, a: Arrival)
    requires RoomsOk(predict, outcomes, w, config, rooms) && LivePartition(rooms, live, a.partitionId, a.arrivedAt)
      && l < |live|
    ensures live[l] < |rooms| && rooms[live[l]].view.roomId == live[l] + 1
    ensures Forming(rooms[live[l]]) && rooms[live[l]].partitionId == a.partitionId
      && a.arrivedAt <= rooms[live[l]].view.deadline
  {
    hide InPartition, MembersOk, FilledOk;
    assert RoomOk(predict, outcomes, w, config, rooms[live[l]], live[l]);
  }

  lemma SeatIn(predict: Predictor, rooms: seq<SimulatedRoom>, i: nat, a: Arrival, selection: RoomSelection)
    requires i < |rooms| && rooms[i].view.roomId == i + 1 && selection.roomId == rooms[i].view.roomId
    requires Forming(rooms[i]) && rooms[i].partitionId == a.partitionId && a.arrivedAt <= rooms[i].view.deadline
    requires Decide(predict, rooms[i].view, CandidateOf(a), a.arrivedAt) == Ok(selection.decision)
      && selection.decision.eligible
    ensures IsChosen(predict, rooms, a, selection.roomId)
  {
    hide Decide;
  }

  lemma ChosenParts(predict: Predictor, rooms: seq<SimulatedRoom>, a: Arrival, id: Id)
    requires IsChosen(predict, rooms, a, id)
    ensures 1 <= id <= |rooms| && CanSeat(predict, rooms[id - 1], a) && Forming(rooms[id - 1])
  {
    hide Decide;
  }

  lemma SeatParts(predict: Predictor, room: SimulatedRoom, a: Arrival)
    requires CanSeat(predict, room, a)
    ensures Forming(room) && room.partitionId == a.partitionId && a.arrivedAt <= room.view.deadline
    ensures Decide(predict, room.view, CandidateOf(a), a.arrivedAt).Ok?
    ensures Decide(predict, room.view, CandidateOf(a), a.arrivedAt).value.eligible
  {
    hide Decide;
  }

  method FindPartition(w: Workload, modelVersion: Id, k: nat) returns (p: Partition)
    requires WorkloadValid(w, modelVersion) && k < |w.arrivals|
    ensures p in w.config.partitions && p.id == w.arrivals[k].partitionId && p.capacity >= MIN_ROOM_SIZE
  {
    assert ArrivalValid(w, modelVersion, k);
    var i := 0;
    while w.config.partitions[i].id != w.arrivals[k].partitionId
      invariant 0 <= i < |w.config.partitions|
      invariant forall j :: 0 <= j < i ==> w.config.partitions[j].id != w.arrivals[k].partitionId
      decreases |w.config.partitions| - i
    {
      PartitionAhead(w, k, i);
      i := i + 1;
    }
    p := w.config.partitions[i];
  }

  lemma PartitionAhead(w: Workload, k: nat, i: nat)
    requires k < |w.arrivals| && i < |w.config.partitions|
    requires exists p :: p in w.config.partitions && p.id == w.arrivals[k].partitionId
    requires forall j :: 0 <= j <= i ==> w.config.partitions[j].id != w.arrivals[k].partitionId
    ensures i + 1 < |w.config.partitions|
  {
    var p :| p in w.config.partitions && p.id == w.arrivals[k].partitionId;
    var j :| 0 <= j < |w.config.partitions| && w.config.partitions[j] == p;
  }

  lemma OpenKeepsState(
    predict: Predictor, outcomes: Outcomes, w: Workload, config: RunConfig,
    rooms: seq<SimulatedRoom>, active: map<Id, seq<nat>>, k: nat, room: SimulatedRoom)
    requires k < |w.arrivals| && State(predict, outcomes, w, config, rooms, active, k)
    requires RoomOk(predict, outcomes, w, config, room, |rooms|) && room.arrivals == [w.arrivals[k]] && !room.timedOut
    requires room.partitionId in active
    ensures State(predict, outcomes, w, config, rooms + [room],
                  active[room.partitionId := active[room.partitionId] + [|rooms|]], k + 1)
  {
    hide RoomOk, Placed;
    PlacedOpen(rooms, room);
    assert w.arrivals[..k + 1] == w.arrivals[..k] + [w.arrivals[k]];
  }

  lemma JoinKeepsState(
    predict: Predictor, outcomes: Outcomes, w: Workload, config: RunConfig,
    rooms: seq<SimulatedRoom>, active: map<Id, seq<nat>>, k: nat, i: nat, room: SimulatedRoom)
    requires k < |w.arrivals| && State(predict, outcomes, w, config, rooms, active, k) && i < |rooms|
      && Forming(rooms[i])
    requires RoomOk(predict, outcomes, w, config, room, i) && room.arrivals == rooms[i].arrivals + [w.arrivals[k]]
    requires !room.timedOut && room.partitionId == rooms[i].partitionId
    ensures State(predict, outcomes, w, config, rooms[i := room], active, k + 1)
  {
    hide RoomOk, Placed;
    PlacedJoin(rooms, i, room, w.arrivals[k]);
    assert w.arrivals[..k + 1] == w.arrivals[..k] + [w.arrivals[k]];
    var after := rooms[i := room];
    forall j | 0 <= j < |after| && Forming(after[j])
      ensures after[j].partitionId in active && j in active[after[j].partitionId]
    {
      assert Forming(rooms[j]);
    }
  }

  lemma SweepKeepsState(
    predict: Predictor, outcomes: Outcomes, w: Workload, config: RunConfig,
    rooms: seq<SimulatedRoom>, active: map<Id, seq<nat>>, k: nat, after: seq<SimulatedRoom>, live: seq<nat>)
    requires k < |w.arrivals| && State(predict, outcomes, w, config, rooms, active, k)
    requires var id, now := w.arrivals[k].partitionId, w.arrivals[k].arrivedAt;
      var indices := if id in active then active[id] else [];
      && Swept(rooms, indices, now, after)
      && (forall i :: i in live <==> i in indices && i < |rooms| && Live(rooms[i], now))
      && (forall k, l :: 0 <= k < l < |live| ==> live[k] != live[l])
    ensures State(predict, outcomes, w, config, after, active[w.arrivals[k].partitionId := live], k)
    ensures LivePartition(after, live, w.arrivals[k].partitionId, w.arrivals[k].arrivedAt)
  {
    hide RoomsOk, ActiveOk, Placed, Live;
    var id, now := w.arrivals[k].partitionId, w.arrivals[k].arrivedAt;
    var indices := if id in active then active[id] else [];
    SweptKeepsRooms(predict, outcomes, w, config, rooms, indices, now, after);
    SweptKeepsPlaced(rooms, after);
    SweptKeepsActive(rooms, active, id, now, after, live);
  }

  lemma IndicesBelow(rooms: seq<SimulatedRoom>, active: map<Id, seq<nat>>, id: Id)
    requires ActiveOk(rooms, active)
    ensures var indices := if id in active then active[id] else [];
      && (forall k :: 0 <= k < |indices| ==> indices[k] < |rooms|)
      && (forall k, l :: 0 <= k < l < |indices| ==> indices[k] != indices[l])
  {
  }

  lemma StateParts(
    predict: Predictor, outcomes: Outcomes, w: Workload, config: RunConfig,
    rooms: seq<SimulatedRoom>, active: map<Id, seq<nat>>, k: nat)
    requires k <= |w.arrivals| && State(predict, outcomes, w, config, rooms, active, k)
    ensures RoomsOk(predict, outcomes, w, config, rooms) && ActiveOk(rooms, active)
    ensures Placed(rooms) == multiset(w.arrivals[..k])
  {
  }

  lemma RoomOpenEarlier(
    predict: Predictor, outcomes: Outcomes, w: Workload, config: RunConfig, rooms: seq<SimulatedRoom>, k: nat, i: nat)
    requires WorkloadValid(w, config.policy.ratingModelVersion) && k < |w.arrivals|
    requires RoomsOk(predict, outcomes, w, config, rooms) && Placed(rooms) == multiset(w.arrivals[..k]) && i < |rooms|
    ensures RoomOk(predict, outcomes, w, config, rooms[i], i) && rooms[i].view.createdAt <= w.arrivals[k].arrivedAt
    ensures forall j :: 0 <= j < |rooms[i].arrivals| ==> rooms[i].arrivals[j].arrivedAt < w.arrivals[k].arrivedAt
  {
    hide WorkloadValid, MembersOk, FilledOk, InPartition, Placed;
    assert RoomOk(predict, outcomes, w, config, rooms[i], i);
    forall j | 0 <= j < |rooms[i].arrivals| ensures rooms[i].arrivals[j].arrivedAt < w.arrivals[k].arrivedAt {
      assert rooms[i].arrivals[j] in rooms[i].arrivals;
      ArrivedBefore(w, config.policy.ratingModelVersion, rooms, k, i, rooms[i].arrivals[j]);
    }
  }

  lemma SmoothParts(predict: Predictor, outcomes: Outcomes, w: Workload, config: RunConfig)
    ensures Smooth(predict, outcomes, w, config) <==>
      AvoidsZero(w, config) && PredictorDecides(predict, w) && OutcomesDecide(outcomes, w, config)
  {
  }

  /** What the matcher is offered for the next arrival. */
  ghost predicate Offered(
      rooms: seq<SimulatedRoom>, live: seq<nat>, views: seq<RoomView>, config: RunConfig, a: Arrival) {
    && LivePartition(rooms, live, a.partitionId, a.arrivedAt)
    && |views| <= config.policy.roomLimit && DistinctIds(views)
    && forall i :: 0 <= i < |views| ==> IsView(rooms, live, views[i])
  }

  lemma OfferedIs(rooms: seq<SimulatedRoom>, live: seq<nat>, views: seq<RoomView>, config: RunConfig, a: Arrival)
    requires LivePartition(rooms, live, a.partitionId, a.arrivedAt)
    requires |views| <= config.policy.roomLimit && forall i :: 0 <= i < |views| ==> IsView(rooms, live, views[i])
    requires forall k, l :: 0 <= k < l < |views| ==> views[k].roomId != views[l].roomId
    ensures Offered(rooms, live, views, config, a)
  {
    hide IsView;
  }

  lemma OfferedParts(rooms: seq<SimulatedRoom>, live: seq<nat>, views: seq<RoomView>, config: RunConfig, a: Arrival)
    requires Offered(rooms, live, views, config, a)
    ensures LivePartition(rooms, live, a.partitionId, a.arrivedAt)
    ensures |views| <= config.policy.roomLimit && DistinctIds(views)
    ensures forall i :: 0 <= i < |views| ==> IsView(rooms, live, views[i])
  {
    hide IsView, DistinctIds;
  }

  /** Sweeps the partition's rooms and orders those still active. */
  method OfferRooms(
    ghost predict: Predictor, ghost outcomes: Outcomes, w: Workload, config: RunConfig,
    rooms: seq<SimulatedRoom>, active: map<Id, seq<nat>>, k: nat)
    returns (swept: seq<SimulatedRoom>, live: seq<nat>, views: Result<seq<RoomView>>)
    requires WorkloadValid(w, config.policy.ratingModelVersion) && config.Valid() && k < |w.arrivals|
    requires State(predict, outcomes, w, config, rooms, active, k)
    ensures State(predict, outcomes, w, config, swept, active[w.arrivals[k].partitionId := live], k)
    ensures views.Ok? ==> Offered(swept, live, views.value, config, w.arrivals[k])
    ensures views.Err? ==> !Smooth(predict, outcomes, w, config)
  {
    hide *;
    SmoothParts(predict, outcomes, w, config);
    ConfigParts(config);
    StateParts(predict, outcomes, w, config, rooms, active, k);
    var a := w.arrivals[k];
    var indices: seq<nat> := if a.partitionId in active then active[a.partitionId] else [];
    IndicesBelow(rooms, active, a.partitionId);
    swept, live := ActiveRoomsAt(rooms, indices, a.arrivedAt);
    SweepKeepsState(predict, outcomes, w, config, rooms, active, k, swept, live);
    StateParts(predict, outcomes, w, config, swept, active[a.partitionId := live], k);
    LiveIsBelow(swept, live, a.partitionId, a.arrivedAt);
    LiveDistinct(predict, outcomes, w, config, swept, live);
    views := CandidateRooms(swept, live, config.policy, a.arrivedAt);
    if views.Ok? {
      OfferedIs(swept, live, views.value, config, a);
    } else if Smooth(predict, outcomes, w, config) {
      LiveWaits(predict, outcomes, w, config, swept, live, k);
    }
  }

  /** One turn of the event loop. The match never times out and always names a
      forming room, so neither case has a branch here. */
  method PlaceArrival(
    predict: Predictor, outcomes: Outcomes, w: Workload, config: RunConfig,
    rooms: seq<SimulatedRoom>, active: map<Id, seq<nat>>, k: nat)
    returns (after: seq<SimulatedRoom>, lists: map<Id, seq<nat>>, failure: Option<RunError>)
    requires WorkloadValid(w, config.policy.ratingModelVersion) && config.Valid() && k < |w.arrivals|
    requires State(predict, outcomes, w, config, rooms, active, k)
    ensures failure.None? ==> State(predict, outcomes, w, config, after, lists, k + 1)
    ensures failure.Some? ==> failure.value != NotPredicted && !Smooth(predict, outcomes, w, config)
  {
    hide *;
    SmoothParts(predict, outcomes, w, config);
    var a := w.arrivals[k];
    var swept, live, views := OfferRooms(predict, outcomes, w, config, rooms, active, k);
    after, lists, failure := swept, active[a.partitionId := live], None;
    if views.Err? {
      failure := Some(NoCandidateRooms);
      return;
    }
    StateParts(predict, outcomes, w, config, swept, lists, k);
    OfferedParts(swept, live, views.value, config, a);
    var attempt := AttemptMatch(predict, AttemptFor(config, a, views.value));
    if attempt.Err? {
      if Smooth(predict, outcomes, w, config) {
        AttemptSucceeds(predict, outcomes, w, config, swept, live, views.value, k);
      }
      failure := Some(MatchFailed);
      return;
    }
    NeverTimedOut(predict, config, a, views.value);
    if attempt.value.RetryScheduled? {
      after, lists := OpenRoom(predict, outcomes, w, config, swept, lists, k);
    } else {
      ChosenRoom(predict, outcomes, w, config, swept, live, views.value, a);
      ChosenParts(predict, swept, a, attempt.value.selection.roomId);
      var index := attempt.value.selection.roomId - 1;
      after, failure := TakeSeat(predict, outcomes, w, config, swept, lists, k, index, a);
    }
  }

  /** An unmatched arrival opens a room. */
  method OpenRoom(
    ghost predict: Predictor, ghost outcomes: Outcomes, w: Workload, config: RunConfig,
    rooms: seq<SimulatedRoom>, active: map<Id, seq<nat>>, k: nat)
    returns (after: seq<SimulatedRoom>, lists: map<Id, seq<nat>>)
    requires WorkloadValid(w, config.policy.ratingModelVersion) && config.Valid() && k < |w.arrivals|
    requires State(predict, outcomes, w, config, rooms, active, k) && w.arrivals[k].partitionId in active
    ensures State(predict, outcomes, w, config, after, lists, k + 1)
  {
    hide *;
    var a := w.arrivals[k];
    var p := FindPartition(w, config.policy.ratingModelVersion, k);
    OpenedOk(predict, outcomes, w, config, p, a, |rooms|);
    OpenedFields(config, p, a, |rooms|);
    OpenKeepsState(predict, outcomes, w, config, rooms, active, k, Opened(config, p, a, |rooms|));
    after := rooms + [Opened(config, p, a, |rooms|)];
    lists := active[a.partitionId := active[a.partitionId] + [|rooms|]];
  }

  lemma AskedDecides(outcomes: Outcomes, w: Workload, config: RunConfig, room: SimulatedRoom, at: Time)
    requires OutcomesDecide(outcomes, w, config) && Askable(w, config, room, at)
    ensures outcomes(OutcomeRequestOf(config, room, at)).Ok?
  {
    hide Askable, OutcomeRequestOf;
  }

  lemma JoinedIsAskable(
    predict: Predictor, outcomes: Outcomes, w: Workload, config: RunConfig, rooms: seq<SimulatedRoom>, k: nat, i: nat)
    requires WorkloadValid(w, config.policy.ratingModelVersion) && AvoidsZero(w, config) && k < |w.arrivals|
    requires Placed(rooms) == multiset(w.arrivals[..k]) && i < |rooms|
    requires RoomOk(predict, outcomes, w, config, rooms[i], i)
    requires MembersOk(config, Joined(rooms[i], w.arrivals[k])) && |rooms[i].arrivals| + 1 == rooms[i].view.capacity
    ensures Askable(w, config, Joined(rooms[i], w.arrivals[k]), w.arrivals[k].arrivedAt)
  {
    hide FilledOk, PairwiseWithin, Candidate.Valid, WorkloadValid, Placed, Candidates, InPartition;
    MomentIsSet(w, config, k);
    CandidateValid(w, config.policy.ratingModelVersion, k);
    JoinedPartition(w, rooms[i], w.arrivals[k]);
    NonZeroPlayer(w.arrivals[k]);
    forall j | 0 <= j < |rooms[i].arrivals| ensures rooms[i].arrivals[j].playerId != 0 {
      assert rooms[i].arrivals[j] in rooms[i].arrivals;
      MemberValid(w, config, rooms, k, i, rooms[i].arrivals[j]);
      NonZeroPlayer(rooms[i].arrivals[j]);
    }
  }

  lemma JoinedPartition(w: Workload, room: SimulatedRoom, a: Arrival)
    requires InPartition(w, room)
    ensures InPartition(w, Joined(room, a))
  {
  }

  lemma NonZeroPlayer(a: Arrival)
    requires CandidateOf(a).Valid()
    ensures a.playerId != 0
  {
  }

  /** A matched arrival takes its seat in the chosen room. */
  method TakeSeat(
    predict: Predictor, outcomes: Outcomes, ghost w: Workload, config: RunConfig,
    rooms: seq<SimulatedRoom>, ghost active: map<Id, seq<nat>>, ghost k: nat, index: nat, a: Arrival)
    returns (after: seq<SimulatedRoom>, failure: Option<RunError>)
    requires WorkloadValid(w, config.policy.ratingModelVersion) && k < |w.arrivals| && a == w.arrivals[k]
    requires State(predict, outcomes, w, config, rooms, active, k) && index < |rooms|
    requires CanSeat(predict, rooms[index], a)
    ensures failure.None? ==> State(predict, outcomes, w, config, after, active, k + 1)
    ensures failure.Some? ==>
      failure.value == NoOutcome && !(AvoidsZero(w, config) && OutcomesDecide(outcomes, w, config))
  {
    hide *;
    StateParts(predict, outcomes, w, config, rooms, active, k);
    RoomOpenEarlier(predict, outcomes, w, config, rooms, k, index);
    SeatParts(predict, rooms[index], a);
    after, failure := rooms, None;
    var joined, failed, error := JoinRoom(predict, outcomes, w, config, rooms[index], index, a);
    if failed {
      if AvoidsZero(w, config) && OutcomesDecide(outcomes, w, config) {
        JoinedIsAskable(predict, outcomes, w, config, rooms, k, index);
        AskedDecides(outcomes, w, config, Joined(rooms[index], a), a.arrivedAt);
      }
      failure := Some(error);
      return;
    }
    JoinKeepsState(predict, outcomes, w, config, rooms, active, k, index, joined);
    after := rooms[index := joined];
  }

  lemma ConfigParts(config: RunConfig)
    requires config.Valid()
    ensures config.policy.roomLimit > 0
  {
  }

  lemma LiveIsBelow(rooms: seq<SimulatedRoom>, live: seq<nat>, id: Id, now: Time)
    requires LivePartition(rooms, live, id, now)
    ensures Below(live, |rooms|)
  {
  }

  lemma OpenedFields(config: RunConfig, p: Partition, a: Arrival, index: nat)
    ensures var room := Opened(config, p, a, index);
      room.arrivals == [a] && !room.timedOut && room.partitionId == p.id
  {
  }

  // ---------------------------------------------------------------------
  // The whole run
  // ---------------------------------------------------------------------

  /** What the run hands to the report: exact rooms, each either filled or timed
      out, that hold every arrival of the workload exactly once. */
  ghost predicate Resolved(
      predict: Predictor, outcomes: Outcomes, w: Workload, config: RunConfig, rooms: seq<SimulatedRoom>) {
    && RoomsOk(predict, outcomes, w, config, rooms)
    && Placed(rooms) == multiset(w.arrivals)
    && forall i :: 0 <= i < |rooms| ==> rooms[i].timedOut != rooms[i].filled.Some?
  }

  method ValidateWorkload(w: Workload, modelVersion: Id) returns (valid: bool)
    ensures valid == WorkloadValid(w, modelVersion)
  {
    if w.config.startedAt == 0 || w.config.ticketCount != |w.arrivals| || |w.arrivals| == 0
       || w.config.ratingModelVersion != modelVersion || w.config.partitions == [] {
      return false;
    }
    var ids: set<Id> := {};
    for i := 0 to |w.config.partitions|
      invariant forall j :: 0 <= j < i ==>
        var p := w.config.partitions[j];
        && p.id != 0 && p.modeId != 0 && MIN_ROOM_SIZE <= p.capacity <= MAX_ROOM_SIZE && p.trafficWeight > 0
      invariant ids == set j | 0 <= j < i :: w.config.partitions[j].id
      invariant forall j, l :: 0 <= j < l < i ==> w.config.partitions[j].id != w.config.partitions[l].id
    {
      var p := w.config.partitions[i];
      if p.id == 0 || p.modeId == 0 || p.capacity < MIN_ROOM_SIZE || p.capacity > MAX_ROOM_SIZE
         || p.trafficWeight == 0 || p.id in ids {
        return false;
      }
      ids := ids + {p.id};
    }
    valid := ValidateArrivals(w, modelVersion);
  }

  method ValidateArrivals(w: Workload, modelVersion: Id) returns (valid: bool)
    ensures valid <==>
      && (forall i :: 0 <= i < |w.arrivals| ==> ArrivalValid(w, modelVersion, i))
      && (forall i, j :: 0 <= i < j < |w.arrivals| ==>
        w.arrivals[i].ticketId != w.arrivals[j].ticketId && w.arrivals[i].playerId != w.arrivals[j].playerId)
  {
    hide ArrivalValid;
    var tickets: set<Id>, players: set<Id> := {}, {};
    for i := 0 to |w.arrivals|
      invariant forall j :: 0 <= j < i ==> ArrivalValid(w, modelVersion, j)
      invariant tickets == set j | 0 <= j < i :: w.arrivals[j].ticketId
      invariant players == set j | 0 <= j < i :: w.arrivals[j].playerId
      invariant forall j, l :: 0 <= j < l < i ==>
        w.arrivals[j].ticketId != w.arrivals[l].ticketId && w.arrivals[j].playerId != w.arrivals[l].playerId
    {
      var a := w.arrivals[i];
      if !ArrivalValid(w, modelVersion, i) || a.ticketId in tickets || a.playerId in players {
        return false;
      }
      tickets, players := tickets + {a.ticketId}, players + {a.playerId};
    }
    valid := true;
  }

  /** The event loop, then the time-out of everything that did not fill. A valid
      workload with deciding capabilities always forms its rooms, and the error
      for a completed room without a prediction is never raised at all. */
  method FormRooms(predict: Predictor, outcomes: Outcomes, w: Workload, config: RunConfig) returns (r: Formation)
    requires config.Valid()
    ensures r.Formed? ==>
      WorkloadValid(w, config.policy.ratingModelVersion) && Resolved(predict, outcomes, w, config, r.rooms)
    ensures r.Aborted? ==> r.error != NotPredicted
    ensures WorkloadValid(w, config.policy.ratingModelVersion) && Smooth(predict, outcomes, w, config) ==> r.Formed?
  {
    hide *;
    var valid := ValidateWorkload(w, config.policy.ratingModelVersion);
    if !valid {
      return Aborted(InvalidWorkload);
    }
    var rooms: seq<SimulatedRoom> := [];
    var active: map<Id, seq<nat>> := map[];
    StateStarts(predict, outcomes, w, config);
    for k := 0 to |w.arrivals|
      invariant State(predict, outcomes, w, config, rooms, active, k)
    {
      var failure;
      rooms, active, failure := PlaceArrival(predict, outcomes, w, config, rooms, active, k);
      if failure.Some? {
        return Aborted(failure.value);
      }
    }
    StateParts(predict, outcomes, w, config, rooms, active, |w.arrivals|);
    assert w.arrivals[..|w.arrivals|] == w.arrivals;
    var resolved := ResolveRooms(rooms);
    ResolvedFrom(predict, outcomes, w, config, rooms, resolved);
    r := Formed(resolved);
  }

  lemma StateStarts(predict: Predictor, outcomes: Outcomes, w: Workload, config: RunConfig)
    ensures State(predict, outcomes, w, config, [], map[], 0)
  {
    assert w.arrivals[..0] == [];
  }

  method ResolveRooms(rooms: seq<SimulatedRoom>) returns (resolved: seq<SimulatedRoom>)
    ensures |resolved| == |rooms|
    ensures forall i :: 0 <= i < |rooms| ==>
      resolved[i] == if rooms[i].filled.None? then TimeOut(rooms[i]) else rooms[i]
  {
    resolved := rooms;
    for i := 0 to |rooms|
      invariant |resolved| == |rooms|
      invariant forall j :: 0 <= j < i ==> resolved[j] == if rooms[j].filled.None? then TimeOut(rooms[j]) else rooms[j]
      invariant forall j :: i <= j < |rooms| ==> resolved[j] == rooms[j]
    {
      if rooms[i].filled.None? {
        resolved := resolved[i := TimeOut(rooms[i])];
      }
    }
  }

  lemma ResolvedFrom(
    predict: Predictor, outcomes: Outcomes, w: Workload, config: RunConfig,
    rooms: seq<SimulatedRoom>, resolved: seq<SimulatedRoom>)
    requires RoomsOk(predict, outcomes, w, config, rooms) && Placed(rooms) == multiset(w.arrivals)
    requires |resolved| == |rooms| && forall i :: 0 <= i < |rooms| ==>
      resolved[i] == if rooms[i].filled.None? then TimeOut(rooms[i]) else rooms[i]
    ensures Resolved(predict, outcomes, w, config, resolved)
  {
    hide RoomOk, Placed;
    forall i | 0 <= i < |resolved|
      ensures RoomOk(predict, outcomes, w, config, resolved[i], i) && resolved[i].timedOut != resolved[i].filled.Some?
    {
      assert RoomOk(predict, outcomes, w, config, rooms[i], i);
      if rooms[i].filled.None? {
        SweptKeepsRoom(predict, outcomes, w, config, rooms[i], i);
      } else {
        FilledIsOpen(predict, outcomes, w, config, rooms[i], i);
      }
    }
    SweptKeepsPlaced(rooms, resolved);
  }

  lemma FilledIsOpen(
      predict: Predictor, outcomes: Outcomes, w: Workload, config: RunConfig, room: SimulatedRoom, i: nat)
    requires RoomOk(predict, outcomes, w, config, room, i) && room.filled.Some?
    ensures !room.timedOut
  {
    hide InPartition, ViewOk, MembersOk;
  }

  // ---------------------------------------------------------------------
  // What the rooms of a run mean
  // ---------------------------------------------------------------------

  /** Room `i` holds the arrival, and no other room does. */
  ghost predicate OnlyIn(rooms: seq<SimulatedRoom>, a: Arrival, i: nat) {
    && i < |rooms| && a in rooms[i].arrivals
    && forall j :: 0 <= j < |rooms| && a in rooms[j].arrivals ==> j == i
  }

  /** Every arrival of the workload lies in exactly one room. */
  lemma EveryArrivalInOneRoom(
    predict: Predictor, outcomes: Outcomes, w: Workload, config: RunConfig, rooms: seq<SimulatedRoom>, k: nat)
    requires WorkloadValid(w, config.policy.ratingModelVersion) && Resolved(predict, outcomes, w, config, rooms)
      && k < |w.arrivals|
    ensures exists i: nat :: OnlyIn(rooms, w.arrivals[k], i)
  {
    hide RoomsOk, ArrivalValid, Placed, OnlyIn;
    OccursOnce(w, config.policy.ratingModelVersion, k);
    FoundOnce(rooms, w.arrivals[k]);
  }

  lemma OccursOnce(w: Workload, modelVersion: Id, k: nat)
    requires WorkloadValid(w, modelVersion) && k < |w.arrivals|
    ensures multiset(w.arrivals)[w.arrivals[k]] == 1
  {
    hide ArrivalValid;
    var before, after := w.arrivals[..k], w.arrivals[k + 1..];
    assert w.arrivals == before + [w.arrivals[k]] + after;
    assert w.arrivals[k] !in before && w.arrivals[k] !in after;
  }

  lemma {:induction false} FoundOnce(rooms: seq<SimulatedRoom>, a: Arrival)
    ensures Placed(rooms)[a] == 1 ==> exists i: nat :: OnlyIn(rooms, a, i)
    ensures Placed(rooms)[a] == 0 ==> forall j :: 0 <= j < |rooms| ==> a !in rooms[j].arrivals
  {
    if rooms != [] {
      var front, last := rooms[..|rooms| - 1], rooms[|rooms| - 1];
      FoundOnce(front, a);
      assert Placed(rooms)[a] == Placed(front)[a] + multiset(last.arrivals)[a];
      assert a in last.arrivals <==> multiset(last.arrivals)[a] > 0;
      hide Placed;
      if Placed(rooms)[a] == 1 {
        if a in last.arrivals {
          assert OnlyIn(rooms, a, |rooms| - 1);
        } else {
          var i: nat :| OnlyIn(front, a, i);
          assert OnlyIn(rooms, a, i);
        }
      }
    }
  }

  /** A filled room holds exactly its capacity, everybody within the hard skill
      limit and within the hard probability limit of the prediction it filled on. */
  lemma FilledRoomIsFair(
    predict: Predictor, outcomes: Outcomes, w: Workload, config: RunConfig, rooms: seq<SimulatedRoom>, i: nat)
    requires Resolved(predict, outcomes, w, config, rooms) && i < |rooms| && rooms[i].filled.Some?
    ensures var room := rooms[i];
      && |room.arrivals| == |room.view.members| == room.view.capacity
      && PairwiseWithin(room.view.members, config.policy.maxSkillGap)
      && Fairness(predict, room.view, room.filled.value.at).Ok?
      && Fairness(predict, room.view, room.filled.value.at).value.withinHardLimits
      && Fairness(predict, room.view, room.filled.value.at).value.maximumWinProbabilitySpread
        == config.policy.maxWinProbabilitySpread
  {
    hide PairwiseWithin, InPartition, Placed;
    assert RoomOk(predict, outcomes, w, config, rooms[i], i);
  }
}

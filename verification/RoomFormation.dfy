/** The event loop of a simulated run. */
module RoomFormation {
  import opened Common
  import opened RatingTypes
  import opened MatchTypes
  import opened Eligibility
  import opened Priority
  import opened Totals
  import opened Simulator

  // ---------------------------------------------------------------------
  // Active rooms
  // ---------------------------------------------------------------------

  predicate Live(room: SimulatedRoom, now: Time) {
    room.filled.None? && now <= room.view.deadline
  }

  function TimeOut(room: SimulatedRoom): SimulatedRoom {
    room.(timedOut := true)
  }

  /** Rooms past their deadline are timed out; the others stay as they are. */
  ghost predicate Swept(rooms: seq<SimulatedRoom>, indices: seq<nat>, now: Time, after: seq<SimulatedRoom>) {
    && |after| == |rooms|
    && forall i :: 0 <= i < |rooms| ==>
      after[i] == if i in indices && rooms[i].filled.None? && now > rooms[i].view.deadline then TimeOut(rooms[i])
        else rooms[i]
  }

  method ActiveRoomsAt(rooms: seq<SimulatedRoom>, indices: seq<nat>, now: Time)
    returns (after: seq<SimulatedRoom>, live: seq<nat>)
    requires forall k :: 0 <= k < |indices| ==> indices[k] < |rooms|
    requires forall k, l :: 0 <= k < l < |indices| ==> indices[k] != indices[l]
    ensures Swept(rooms, indices, now, after)
    ensures forall i :: i in live <==> i in indices && i < |rooms| && Live(rooms[i], now)
    ensures forall k, l :: 0 <= k < l < |live| ==> live[k] != live[l]
  {
    after, live := rooms, [];
    for k := 0 to |indices|
      invariant Swept(rooms, indices[..k], now, after)
      invariant forall i :: i in live <==> i in indices[..k] && i < |rooms| && Live(rooms[i], now)
      invariant forall k, l :: 0 <= k < l < |live| ==> live[k] != live[l]
    {
      var i := indices[k];
      assert indices[..k + 1] == indices[..k] + [i];
      assert i !in indices[..k];
      if rooms[i].filled.Some? {
        continue;
      }
      if now > rooms[i].view.deadline {
        after := after[i := TimeOut(after[i])];
        continue;
      }
      live := live + [i];
    }
    assert indices[..|indices|] == indices;
  }

  lemma SweptKeepsRoom(
      predict: Predictor, outcomes: Outcomes, w: Workload, config: RunConfig, room: SimulatedRoom, i: nat)
    requires RoomOk(predict, outcomes, w, config, room, i) && room.filled.None?
    ensures RoomOk(predict, outcomes, w, config, TimeOut(room), i)
  {
    hide PairwiseWithin, RoomRequest, Fairness, Candidates;
  }

  lemma SweptKeepsRooms(
    predict: Predictor, outcomes: Outcomes, w: Workload, config: RunConfig,
    rooms: seq<SimulatedRoom>, indices: seq<nat>, now: Time, after: seq<SimulatedRoom>)
    requires RoomsOk(predict, outcomes, w, config, rooms) && Swept(rooms, indices, now, after)
    ensures RoomsOk(predict, outcomes, w, config, after)
  {
    hide RoomOk, TimeOut;
    forall i | 0 <= i < |after| ensures RoomOk(predict, outcomes, w, config, after[i], i) {
      assert RoomOk(predict, outcomes, w, config, rooms[i], i);
      if after[i] != rooms[i] {
        SweptKeepsRoom(predict, outcomes, w, config, rooms[i], i);
      }
    }
  }

  lemma {:induction false} SweptKeepsPlaced(rooms: seq<SimulatedRoom>, after: seq<SimulatedRoom>)
    requires |after| == |rooms| && forall i :: 0 <= i < |rooms| ==> after[i].arrivals == rooms[i].arrivals
    ensures Placed(after) == Placed(rooms)
  {
    if rooms != [] {
      SweptKeepsPlaced(rooms[..|rooms| - 1], after[..|after| - 1]);
    }
  }

  lemma SweptKeepsActive(
    rooms: seq<SimulatedRoom>, active: map<Id, seq<nat>>, id: Id, now: Time, after: seq<SimulatedRoom>, live: seq<nat>)
    requires ActiveOk(rooms, active)
    requires var indices := if id in active then active[id] else [];
      && Swept(rooms, indices, now, after)
      && (forall i :: i in live <==> i in indices && i < |rooms| && Live(rooms[i], now))
      && (forall k, l :: 0 <= k < l < |live| ==> live[k] != live[l])
    ensures ActiveOk(after, active[id := live])
    ensures Below(live, |after|)
    ensures forall k :: 0 <= k < |live| ==>
      Forming(after[live[k]]) && now <= after[live[k]].view.deadline && after[live[k]].partitionId == id
  {
    var indices := if id in active then active[id] else [];
    forall i | i in indices ensures i < |rooms| && rooms[i].partitionId == id {
      var k :| 0 <= k < |indices| && indices[k] == i;
    }
    var lists := active[id := live];
    forall other, k | other in lists && 0 <= k < |lists[other]|
      ensures lists[other][k] < |after| && after[lists[other][k]].partitionId == other
        && !after[lists[other][k]].timedOut
    {
      if other == id {
        assert live[k] in live;
      }
    }
    forall k | 0 <= k < |live|
      ensures live[k] < |after|
      ensures Forming(after[live[k]]) && now <= after[live[k]].view.deadline && after[live[k]].partitionId == id
    {
      assert live[k] in live && live[k] in indices;
      var l :| 0 <= l < |indices| && indices[l] == live[k];
      assert !rooms[indices[l]].timedOut;
    }
    forall i | 0 <= i < |after| && Forming(after[i])
      ensures after[i].partitionId in lists && i in lists[after[i].partitionId]
    {
      assert Forming(rooms[i]);
    }
  }

  // ---------------------------------------------------------------------
  // Candidate rooms
  // ---------------------------------------------------------------------

  ghost predicate Below(live: seq<nat>, n: nat) {
    forall k :: 0 <= k < |live| ==> live[k] < n
  }

  ghost predicate IsView(rooms: seq<SimulatedRoom>, live: seq<nat>, view: RoomView)
    requires Below(live, |rooms|)
  {
    exists k :: 0 <= k < |live| && rooms[live[k]].view == view
  }

  ghost function Views(rooms: seq<SimulatedRoom>, live: seq<nat>): seq<RoomView>
    requires Below(live, |rooms|)
  {
    seq(|live|, k requires 0 <= k < |live| => rooms[live[k]].view)
  }

  /** The views of live rooms, by priority, cut at the room limit. */
  method CandidateRooms(
      rooms: seq<SimulatedRoom>, live: seq<nat>, policy: Policy, now: Time) returns (r: Result<seq<RoomView>>)
    requires Below(live, |rooms|) && policy.roomLimit > 0
    ensures r.Ok? <==> now != 0 && forall k :: 0 <= k < |live| ==> Waiting(rooms[live[k]].view, now)
    ensures r.Ok? ==> |r.value| <= policy.roomLimit && forall k :: 0 <= k < |r.value| ==>
      IsView(rooms, live, r.value[k])
    ensures r.Ok? && DistinctViews(rooms, live) ==>
      forall k, l :: 0 <= k < l < |r.value| ==> r.value[k].roomId != r.value[l].roomId
  {
    hide Waiting, PriorityOrdered, Young;
    var views := seq(|live|, k requires 0 <= k < |live| && live[k] < |rooms| => rooms[live[k]].view);
    assert views == Views(rooms, live);
    var ordered := PrioritizeWaitingRooms(views, now);
    assert forall k :: 0 <= k < |live| ==> views[k] == rooms[live[k]].view;
    if ordered.Err? {
      return Err(ordered.error);
    }
    var kept := ordered.value[..Min(|ordered.value|, policy.roomLimit)];
    forall k | 0 <= k < |kept| ensures IsView(rooms, live, kept[k]) {
      assert ordered.value[k] in multiset(views);
      assert ordered.value[k] in views;
      var l :| 0 <= l < |views| && views[l] == ordered.value[k];
    }
    if DistinctViews(rooms, live) {
      DistinctAfterSort(views, ordered.value);
    }
    r := Ok(kept);
  }

  ghost predicate DistinctViews(rooms: seq<SimulatedRoom>, live: seq<nat>)
    requires Below(live, |rooms|)
  {
    DistinctIds(Views(rooms, live))
  }

  ghost predicate DistinctIds(views: seq<RoomView>) {
    forall k, l :: 0 <= k < l < |views| ==> views[k].roomId != views[l].roomId
  }

  lemma WithoutOne(views: seq<RoomView>, i: nat)
    requires DistinctIds(views) && i < |views|
    ensures var rest := views[..i] + views[i + 1..];
      DistinctIds(rest) && forall v :: v in rest ==> v.roomId != views[i].roomId
  {
    var rest := views[..i] + views[i + 1..];
    assert forall j :: 0 <= j < |rest| ==> rest[j] == if j < i then views[j] else views[j + 1];
  }

  lemma WithLast(front: seq<RoomView>, last: RoomView)
    requires DistinctIds(front) && forall v :: v in front ==> v.roomId != last.roomId
    ensures DistinctIds(front + [last])
  {
  }

  lemma {:induction false} DistinctAfterSort(views: seq<RoomView>, ordered: seq<RoomView>)
    requires multiset(views) == multiset(ordered) && DistinctIds(views)
    ensures DistinctIds(ordered)
    decreases |ordered|
  {
    hide DistinctIds;
    if ordered == [] {
      assert |multiset(views)| == 0;
      assert views == ordered;
    } else {
      var front, last := ordered[..|ordered| - 1], ordered[|ordered| - 1];
      assert ordered == front + [last];
      assert last in multiset(views);
      var i :| 0 <= i < |views| && views[i] == last;
      RemoveOne(views, i);
      WithoutOne(views, i);
      var rest := views[..i] + views[i + 1..];
      DistinctAfterSort(rest, front);
      forall v | v in front ensures v.roomId != last.roomId {
        assert v in multiset(rest);
      }
      WithLast(front, last);
    }
  }

  // ---------------------------------------------------------------------
  // Opening, joining and completing a room
  // ---------------------------------------------------------------------

  function Opened(config: RunConfig, p: Partition, a: Arrival, index: nat): SimulatedRoom {
    SimulatedRoom(
      RoomView(index + 1, p.modeId, 0, p.capacity, a.arrivedAt, a.arrivedAt + config.policy.fillTimeout, config.policy,
      [CandidateOf(a)]),
      p.id, [a], None, false)
  }

  function Joined(room: SimulatedRoom, a: Arrival): SimulatedRoom {
    room.(view := room.view.(members := room.view.members + [CandidateOf(a)]), arrivals := room.arrivals + [a])
  }

  lemma OpenedOk(
      predict: Predictor, outcomes: Outcomes, w: Workload, config: RunConfig, p: Partition, a: Arrival, index: nat)
    requires config.Valid() && p in w.config.partitions && p.capacity >= MIN_ROOM_SIZE && a.partitionId == p.id
    ensures RoomOk(predict, outcomes, w, config, Opened(config, p, a, index), index)
  {
    hide RoomRequest, Fairness;
    var room := Opened(config, p, a, index);
    assert room.view.members == Candidates(room.arrivals);
  }

  /** What eligibility says about a room and its new member. */
  lemma EligibleParts(predict: Predictor, view: RoomView, c: Candidate, at: Time)
    requires Decide(predict, view, c, at).Ok? && Decide(predict, view, c, at).value.eligible
    ensures |view.members| < view.capacity
    ensures forall m :: m in view.members ==> m.ticketId != c.ticketId && m.playerId != c.playerId
  {
    hide Fairness, SkillGap;
  }

  /** A joined room keeps its members, times and limits. */
  lemma JoinedMembers(predict: Predictor, config: RunConfig, room: SimulatedRoom, a: Arrival)
    requires MembersOk(config, room) && room.view.policy == config.policy && a.partitionId == room.partitionId
    requires room.view.createdAt <= a.arrivedAt <= room.view.deadline
    requires forall i :: 0 <= i < |room.arrivals| ==> room.arrivals[i].arrivedAt < a.arrivedAt
    requires Decide(predict, room.view, CandidateOf(a), a.arrivedAt).Ok?
    requires Decide(predict, room.view, CandidateOf(a), a.arrivedAt).value.eligible
    ensures MembersOk(config, Joined(room, a))
  {
    hide Decide, PairwiseWithin, Fairness, RoomView.Valid;
    EligibleParts(predict, room.view, CandidateOf(a), a.arrivedAt);
    EligibleIsFair(predict, room.view, CandidateOf(a), a.arrivedAt);
    var joined := Joined(room, a);
    assert joined.view.members == Candidates(joined.arrivals);
    forall i | 0 <= i < |room.arrivals|
      ensures room.arrivals[i].ticketId != a.ticketId && room.arrivals[i].playerId != a.playerId
    {
      assert room.view.members[i] == CandidateOf(room.arrivals[i]);
      assert room.view.members[i] in room.view.members;
    }
  }

  lemma {:induction false} SameEstimates(arrivals: seq<Arrival>, k: nat)
    requires k <= |arrivals|
    ensures EstimatesOf(Candidates(arrivals), k) == EstimatesFrom(arrivals, k)
  {
    if k > 0 {
      SameEstimates(arrivals, k - 1);
    }
  }

  ghost function EstimatesFrom(arrivals: seq<Arrival>, k: nat): map<Id, Estimate>
    requires k <= |arrivals|
  {
    if k == 0 then map[] else EstimatesFrom(arrivals, k - 1)[arrivals[k - 1].playerId := arrivals[k - 1].rating]
  }

  /** Predicts the full room from its arrivals and asks for its outcome. */
  method CompleteRoom(predict: Predictor, outcomes: Outcomes, config: RunConfig, room: SimulatedRoom, at: Time)
    returns (filled: Option<Filled>, error: RunError)
    requires room.view.members == Candidates(room.arrivals)
    ensures filled.Some? <==>
      predict(RoomRequest(room.view, at)).Ok? && outcomes(OutcomeRequestOf(config, room, at)).Ok?
    ensures filled.Some? ==>
      && filled.value.at == at
      && predict(RoomRequest(room.view, at)) == Ok(filled.value.prediction)
      && outcomes(OutcomeRequestOf(config, room, at)) == Ok(filled.value.result)
    ensures filled.None? ==> error == if predict(RoomRequest(room.view, at)).Err? then NotPredicted else NoOutcome
  {
    var estimates: map<Id, Estimate> := map[];
    var participants: seq<(Id, real)> := [];
    for k := 0 to |room.arrivals|
      invariant estimates == EstimatesFrom(room.arrivals, k)
      invariant participants
        == seq(k, i requires 0 <= i < k => (room.arrivals[i].playerId, room.arrivals[i].latentSkill))
    {
      estimates := estimates[room.arrivals[k].playerId := room.arrivals[k].rating];
      participants := participants + [(room.arrivals[k].playerId, room.arrivals[k].latentSkill)];
    }
    SameEstimates(room.arrivals, |room.arrivals|);
    error := NoOutcome;
    var prediction := predict(PredictionRequest(room.view.roomId, room.view.modeId, at, estimates));
    if prediction.Err? {
      return None, NotPredicted;
    }
    var finishedAt := at + config.resultDelay;
    var result := outcomes(OutcomeRequest(
      room.view.roomId, room.view.roomId, room.partitionId, room.view.roomId, config.scoringRulesVersion,
      finishedAt, finishedAt + config.availabilityDelay, participants));
    assert participants == OutcomeRequestOf(config, room, at).participants;
    if result.Err? {
      return None, NoOutcome;
    }
    filled := Some(Filled(at, prediction.value, result.value));
  }

  /** A full room was decided with the very prediction that completing it asks for. */
  lemma FullWasPredicted(predict: Predictor, view: RoomView, c: Candidate, at: Time)
    requires Decide(predict, view, c, at).Ok? && Decide(predict, view, c, at).value.eligible
    requires |view.members| + 1 == view.capacity
    ensures var full := view.(members := view.members + [c]);
      && Fairness(predict, full, at).Ok? && Fairness(predict, full, at).value.withinHardLimits
      && predict(RoomRequest(full, at)).Ok?
  {
    EligibleIsFair(predict, view, c, at);
    hide Decide, PairwiseWithin, EstimatesOf;
  }

  /** One arrival joins the room the matcher chose for it. */
  method JoinRoom(
    predict: Predictor, outcomes: Outcomes, ghost w: Workload, config: RunConfig, room: SimulatedRoom,
    ghost index: nat, a: Arrival)
    returns (joined: SimulatedRoom, failed: bool, error: RunError)
    requires RoomOk(predict, outcomes, w, config, room, index) && Forming(room) && a.partitionId == room.partitionId
    requires room.view.createdAt <= a.arrivedAt <= room.view.deadline
    requires forall i :: 0 <= i < |room.arrivals| ==> room.arrivals[i].arrivedAt < a.arrivedAt
    requires Decide(predict, room.view, CandidateOf(a), a.arrivedAt).Ok?
    requires Decide(predict, room.view, CandidateOf(a), a.arrivedAt).value.eligible
    ensures failed ==>
      && error == NoOutcome && |room.arrivals| + 1 == room.view.capacity && MembersOk(config, Joined(room, a))
      && outcomes(OutcomeRequestOf(config, Joined(room, a), a.arrivedAt)).Err?
    ensures !failed ==> RoomOk(predict, outcomes, w, config, joined, index)
    ensures !failed ==>
      joined.arrivals == room.arrivals + [a] && joined.partitionId == room.partitionId && !joined.timedOut
  {
    hide Decide, Fairness, PairwiseWithin, EstimatesOf, OutcomeRequestOf, RoomRequest;
    EligibleParts(predict, room.view, CandidateOf(a), a.arrivedAt);
    JoinedMembers(predict, config, room, a);
    joined, failed, error := Joined(room, a), false, NoOutcome;
    if |joined.view.members| == joined.view.capacity {
      FullWasPredicted(predict, room.view, CandidateOf(a), a.arrivedAt);
      var filled;
      filled, error := CompleteRoom(predict, outcomes, config, joined, a.arrivedAt);
      if filled.None? {
        failed := true;
        return;
      }
      joined := joined.(filled := filled);
      SameRequests(config, Joined(room, a), filled, a.arrivedAt);
    }
  }

  lemma SameRequests(config: RunConfig, room: SimulatedRoom, filled: Option<Filled>, at: Time)
    ensures OutcomeRequestOf(config, room.(filled := filled), at) == OutcomeRequestOf(config, room, at)
  {
  }
}

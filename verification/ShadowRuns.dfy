/** Whole runs of the shadow timeline: no prediction sees the future, and when
    the timeline gets stuck. */
module ShadowRuns {
  import opened Common
  import opened RatingTypes
  import opened Database
  import opened ShadowTimeline

  datatype Step =
    | FillRoom(roomId: Id, room: FilledRoom)
    | StoreResult(eventId: Id, result: RatedResult)
    | Claim(key: ShadowKey, token: Id, now: Time, until: Time)
    | Run(key: ShadowKey, token: Id, at: Time, clock: Time)
    | Postpone(key: ShadowKey, token: Id, retryAt: Time, clock: Time)

  const START := Timeline(map[], map[], map[], map[], map[])

  function NewWork(position: Time): Work {
    Work(position, position, None, 0, None)
  }

  /** Full rooms and results are recorded in any order, but a result only for a
      filled room that has none, and never available before the fill. Only the head
      is claimed. */
  ghost predicate Enabled(t: Timeline, step: Step) {
    match step
    case FillRoom(roomId, room) => roomId !in t.rooms && MIN_ROOM_SIZE <= |room.players| <= MAX_ROOM_SIZE
    case StoreResult(eventId, result) =>
      && eventId !in t.results && result.roomId in t.rooms
      && t.rooms[result.roomId].filledAt <= result.availableAt
      && forall e :: e in t.results ==> t.results[e].roomId != result.roomId
    case Claim(k, token, now, until) => token != 0 && now < until && IsHead(t.work, k)
    case Run(_, _, _, _) => true
    case Postpone(_, _, _, _) => true
  }

  ghost function Apply(t: Timeline, step: Step): Timeline
    requires Enabled(t, step)
  {
    match step
    case FillRoom(roomId, room) =>
      t.(rooms := t.rooms[roomId := room], work := t.work[ShadowKey(RoomWork, roomId) := NewWork(room.filledAt)])
    case StoreResult(eventId, result) =>
      t.(results := t.results[eventId := result],
        work := t.work[ShadowKey(ResultWork, eventId) := NewWork(result.availableAt)])
    case Claim(k, token, now, until) => ClaimHead(t, k, token, now, until)
    case Run(k, token, at, clock) => Process(t, k, token, at, clock).timeline
    case Postpone(k, token, retryAt, clock) => Retry(t, k, token, retryAt, clock).timeline
  }

  ghost predicate CanRun(t: Timeline, steps: seq<Step>)
    decreases |steps|
  {
    steps == [] || (Enabled(t, steps[0]) && CanRun(Apply(t, steps[0]), steps[1..]))
  }

  ghost function After(t: Timeline, steps: seq<Step>): Timeline
    requires CanRun(t, steps)
    decreases |steps|
  {
    if steps == [] then t else After(Apply(t, steps[0]), steps[1..])
  }

  // ---------------------------------------------------------------------
  // Invariant
  // ---------------------------------------------------------------------

  ghost predicate Attempted(work: map<ShadowKey, Work>, k: ShadowKey) {
    k in work && work[k].attempts > 0
  }

  ghost predicate Done(work: map<ShadowKey, Work>, k: ShadowKey) {
    k in work && work[k].processedAt.Some?
  }

  /** Each item stands where its room was filled or its result became available. */
  ghost predicate ItemsOk(t: Timeline) {
    && (forall r :: r in t.rooms ==>
      ShadowKey(RoomWork, r) in t.work && t.work[ShadowKey(RoomWork, r)].position == t.rooms[r].filledAt)
    && (forall e :: e in t.results ==>
      && ShadowKey(ResultWork, e) in t.work && t.work[ShadowKey(ResultWork, e)].position == t.results[e].availableAt
      && t.results[e].roomId in t.rooms && t.rooms[t.results[e].roomId].filledAt <= t.results[e].availableAt)
    && (forall k :: k in t.work ==>
      && (k.kind.RoomWork? ==> k.sourceId in t.rooms)
      && (k.kind.ResultWork? ==> k.sourceId in t.results)
      && (t.work[k].lease.Some? || t.work[k].processedAt.Some? ==> t.work[k].attempts > 0)
      && (t.work[k].lease.Some? ==> t.work[k].lease.value.token != 0))
  }

  /** A result is handed out only after its room was predicted or skipped. */
  ghost predicate RoomsFirst(t: Timeline) {
    forall e :: e in t.results && Attempted(t.work, ShadowKey(ResultWork, e)) ==>
      Done(t.work, ShadowKey(RoomWork, t.results[e].roomId))
  }

  /** Every prediction is dated at the fill time and read only older states. */
  ghost predicate PredictionsOk(t: Timeline) {
    forall r :: r in t.predictions ==>
      && r in t.rooms && Done(t.work, ShadowKey(RoomWork, r))
      && t.predictions[r].generatedAt == t.rooms[r].filledAt
      && t.rooms[r].candidate == Some(t.predictions[r].candidate)
      && forall p :: p in t.predictions[r].read ==> t.predictions[r].read[p] <= t.rooms[r].filledAt
  }

  /** A room that had a candidate is closed only with a prediction. */
  ghost predicate ClosedPredicted(t: Timeline) {
    forall r :: r in t.rooms && t.rooms[r].candidate.Some? && Done(t.work, ShadowKey(RoomWork, r)) ==>
      r in t.predictions
  }

  ghost predicate Inv(t: Timeline) {
    ItemsOk(t) && RoomsFirst(t) && PredictionsOk(t) && ClosedPredicted(t)
  }

  lemma FillKeepsInv(t: Timeline, roomId: Id, room: FilledRoom)
    requires Inv(t) && Enabled(t, FillRoom(roomId, room))
    ensures Inv(Apply(t, FillRoom(roomId, room)))
  {
    var after := Apply(t, FillRoom(roomId, room));
    assert ShadowKey(RoomWork, roomId) !in t.work;
    forall k | k in t.work ensures after.work[k] == t.work[k] {
    }
  }

  lemma StoreKeepsInv(t: Timeline, eventId: Id, result: RatedResult)
    requires Inv(t) && Enabled(t, StoreResult(eventId, result))
    ensures Inv(Apply(t, StoreResult(eventId, result)))
  {
    var after := Apply(t, StoreResult(eventId, result));
    assert ShadowKey(ResultWork, eventId) !in t.work;
    forall k | k in t.work ensures after.work[k] == t.work[k] {
    }
  }

  /** Rows change, but neither positions nor attempts or markers are lost. */
  ghost predicate RowEvolves(before: Work, after: Work) {
    && after.position == before.position
    && before.attempts <= after.attempts
    && (before.processedAt.Some? ==> after.processedAt.Some?)
    && (after.lease.Some? || after.processedAt.Some? ==> after.attempts > 0)
    && (after.lease.Some? ==> after.lease.value.token != 0)
  }

  lemma RowKeepsItems(t: Timeline, after: Timeline, k: ShadowKey, row: Work)
    requires ItemsOk(t) && k in t.work && RowEvolves(t.work[k], row)
    requires after.work == t.work[k := row] && after.rooms == t.rooms && after.results == t.results
    ensures ItemsOk(after)
  {
  }

  lemma DoneStays(work: map<ShadowKey, Work>, k: ShadowKey, row: Work)
    requires k in work && (work[k].processedAt.Some? ==> row.processedAt.Some?)
    ensures forall o :: Done(work, o) ==> Done(work[k := row], o)
    ensures forall o :: Done(work[k := row], o) && o != k ==> Done(work, o)
    ensures row.processedAt == work[k].processedAt ==> forall o :: Done(work[k := row], o) ==> Done(work, o)
    ensures row.processedAt.Some? ==> Done(work[k := row], k)
    ensures forall o :: Attempted(work[k := row], o) && o != k ==> Attempted(work, o)
    ensures row.attempts == work[k].attempts ==> forall o :: Attempted(work[k := row], o) ==> Attempted(work, o)
  {
  }

  /** The head is a result only when its room's item, which comes earlier, is closed. */
  lemma HeadResultFollowsRoom(t: Timeline, e: Id)
    requires ItemsOk(t) && e in t.results && IsHead(t.work, ShadowKey(ResultWork, e))
    ensures Done(t.work, ShadowKey(RoomWork, t.results[e].roomId))
  {
    var k, roomKey := ShadowKey(ResultWork, e), ShadowKey(RoomWork, t.results[e].roomId);
    assert Earlier(roomKey, t.work[roomKey].position, k, t.work[k].position);
  }

  lemma HeadIsKnown(t: Timeline, k: ShadowKey)
    requires ItemsOk(t) && IsHead(t.work, k)
    ensures k in t.work && (k.kind.ResultWork? ==> k.sourceId in t.results && k == ShadowKey(ResultWork, k.sourceId))
  {
  }

  /** The order is kept when one row moves on, provided that a result that is
      handed out for the first time follows its room. */
  lemma RowKeepsOrder(t: Timeline, after: Timeline, k: ShadowKey, row: Work)
    requires RoomsFirst(t) && k in t.work && RowEvolves(t.work[k], row)
    requires after.work == t.work[k := row] && after.results == t.results
    requires k.kind.ResultWork? && k.sourceId in t.results && row.attempts > t.work[k].attempts ==>
      Done(t.work, ShadowKey(RoomWork, t.results[k.sourceId].roomId))
    ensures RoomsFirst(after)
  {
    hide Done;
    DoneStays(t.work, k, row);
    forall e | e in after.results && Attempted(after.work, ShadowKey(ResultWork, e))
      ensures Done(after.work, ShadowKey(RoomWork, after.results[e].roomId))
    {
      assert Attempted(t.work, ShadowKey(ResultWork, e)) || ShadowKey(ResultWork, e) == k;
    }
  }

  lemma RowKeepsPredictions(t: Timeline, after: Timeline, k: ShadowKey, row: Work)
    requires PredictionsOk(t) && k in t.work && RowEvolves(t.work[k], row)
    requires after.work == t.work[k := row] && after.rooms == t.rooms && after.predictions == t.predictions
    ensures PredictionsOk(after)
  {
    hide Done;
    DoneStays(t.work, k, row);
  }

  /** Closing an item other than a room with a candidate needs no prediction. */
  lemma RowKeepsClosed(t: Timeline, after: Timeline, k: ShadowKey, row: Work)
    requires ClosedPredicted(t) && k in t.work && RowEvolves(t.work[k], row)
    requires after.work == t.work[k := row] && after.rooms == t.rooms && after.predictions == t.predictions
    requires row.processedAt == t.work[k].processedAt || k.kind.ResultWork?
      || k.sourceId !in t.rooms || t.rooms[k.sourceId].candidate.None?
    ensures ClosedPredicted(after)
  {
    hide Done;
    DoneStays(t.work, k, row);
  }

  lemma ClaimKeepsInv(t: Timeline, k: ShadowKey, token: Id, now: Time, until: Time)
    requires Inv(t) && IsHead(t.work, k) && token != 0
    ensures Inv(ClaimHead(t, k, token, now, until))
  {
    hide ItemsOk, RoomsFirst, PredictionsOk, ClosedPredicted, IsHead;
    HeadIsKnown(t, k);
    var after := ClaimHead(t, k, token, now, until);
    var row := after.work[k];
    if after != t {
      if k.kind.ResultWork? {
        HeadResultFollowsRoom(t, k.sourceId);
      }
      RowKeepsItems(t, after, k, row);
      RowKeepsOrder(t, after, k, row);
      RowKeepsPredictions(t, after, k, row);
      RowKeepsClosed(t, after, k, row);
    }
  }

  lemma LeasedWasAttempted(t: Timeline, k: ShadowKey)
    requires ItemsOk(t) && k in t.work && t.work[k].lease.Some?
    ensures t.work[k].attempts > 0
  {
  }

  lemma PostponeKeepsInv(t: Timeline, k: ShadowKey, token: Id, retryAt: Time, clock: Time)
    requires Inv(t)
    ensures Inv(Retry(t, k, token, retryAt, clock).timeline)
  {
    hide ItemsOk, RoomsFirst, PredictionsOk, ClosedPredicted;
    var after := Retry(t, k, token, retryAt, clock).timeline;
    if after != t {
      var row := after.work[k];
      LeasedWasAttempted(t, k);
      RowKeepsItems(t, after, k, row);
      RowKeepsOrder(t, after, k, row);
      RowKeepsPredictions(t, after, k, row);
      RowKeepsClosed(t, after, k, row);
    }
  }

  /** What one processing transaction does to the queue: nothing, or it closes the
      one item it owns. */
  lemma ProcessShape(t: Timeline, k: ShadowKey, token: Id, at: Time, clock: Time)
    ensures var effect := Process(t, k, token, at, clock);
      && (effect.outcome.Processed? || effect.outcome.Skipped? ==>
        && Owns(t.work, k, token, clock)
        && effect.timeline.work == t.work[k := t.work[k].(processedAt := Some(at), lease := None)]
        && effect.timeline.rooms == t.rooms && effect.timeline.results == t.results)
      && (!effect.outcome.Processed? && !effect.outcome.Skipped? ==> effect.timeline == t)
      && (effect.outcome.Skipped? ==>
        && effect.timeline.predictions == t.predictions && effect.timeline.states == t.states
        && (k.kind.RoomWork? ==> k.sourceId !in t.rooms || t.rooms[k.sourceId].candidate.None?))
  {
    hide AnyNewer, DatesRead, Advance;
  }

  /** What it does besides: a room item stores a prediction, a result moves states. */
  lemma ProcessWrites(t: Timeline, k: ShadowKey, token: Id, at: Time, clock: Time)
    requires Process(t, k, token, at, clock).outcome.Processed?
    ensures var after := Process(t, k, token, at, clock).timeline;
      if k.kind.RoomWork? then
        && after.states == t.states
        && k.sourceId in t.rooms && t.rooms[k.sourceId].candidate.Some?
        && var room := t.rooms[k.sourceId];
        && !AnyNewer(t.states, room.players, room.candidate.value, room.filledAt)
        && after.predictions == t.predictions[k.sourceId :=
          Prediction(room.candidate.value, room.filledAt, DatesRead(t.states, room.players, room.candidate.value))]
      else
        && after.predictions == t.predictions
        && k.sourceId in t.results && t.results[k.sourceId].roomId in t.rooms
          && t.results[k.sourceId].roomId in t.predictions
        && var result := t.results[k.sourceId];
        && !AnyNewer(t.states, t.rooms[result.roomId].players, t.predictions[result.roomId].candidate,
          result.availableAt)
        && after.states
          == Advance(t.states, t.rooms[result.roomId].players, t.predictions[result.roomId].candidate,
            result.availableAt)
  {
    hide AnyNewer, DatesRead, Advance;
  }

  lemma DatesReadOlder(states: map<(Id, Id), Time>, players: set<Id>, candidate: Id, at: Time)
    requires !AnyNewer(states, players, candidate, at)
    ensures forall p :: p in DatesRead(states, players, candidate) ==>
      && (p, candidate) in states
      && DatesRead(states, players, candidate)[p] == states[(p, candidate)] <= at
  {
  }

  lemma NewPrediction(t: Timeline, after: Timeline, r: Id, prediction: Prediction)
    requires PredictionsOk(t) && r in t.rooms && Done(after.work, ShadowKey(RoomWork, r))
    requires forall o :: Done(t.work, o) ==> Done(after.work, o)
    requires after.rooms == t.rooms && after.predictions == t.predictions[r := prediction]
    requires prediction.generatedAt == t.rooms[r].filledAt && t.rooms[r].candidate == Some(prediction.candidate)
    requires forall p :: p in prediction.read ==> prediction.read[p] <= t.rooms[r].filledAt
    ensures PredictionsOk(after)
  {
    hide Done;
  }

  lemma NewPredictionCloses(t: Timeline, after: Timeline, r: Id, prediction: Prediction)
    requires ClosedPredicted(t) && after.rooms == t.rooms && after.predictions == t.predictions[r := prediction]
    requires forall o :: Done(after.work, o) && o != ShadowKey(RoomWork, r) ==> Done(t.work, o)
    ensures ClosedPredicted(after)
  {
    hide Done;
  }

  lemma ProcessKeepsInv(t: Timeline, k: ShadowKey, token: Id, at: Time, clock: Time)
    requires Inv(t)
    ensures Inv(Process(t, k, token, at, clock).timeline)
  {
    hide ItemsOk, RoomsFirst, PredictionsOk, ClosedPredicted, Process, Done, AnyNewer, DatesRead, Advance, Attempted;
    var effect := Process(t, k, token, at, clock);
    var after := effect.timeline;
    ProcessShape(t, k, token, at, clock);
    if effect.outcome.Processed? || effect.outcome.Skipped? {
      var row := t.work[k].(processedAt := Some(at), lease := None);
      LeasedWasAttempted(t, k);
      RowKeepsItems(t, after, k, row);
      RowKeepsOrder(t, after, k, row);
      if effect.outcome.Processed? {
        ProcessWrites(t, k, token, at, clock);
      }
      if effect.outcome.Processed? && k.kind.RoomWork? {
        var room := t.rooms[k.sourceId];
        DatesReadOlder(t.states, room.players, room.candidate.value, room.filledAt);
        DoneStays(t.work, k, row);
        NewPrediction(t, after, k.sourceId, after.predictions[k.sourceId]);
        NewPredictionCloses(t, after, k.sourceId, after.predictions[k.sourceId]);
      } else {
        RowKeepsPredictions(t, after, k, row);
        RowKeepsClosed(t, after, k, row);
      }
    }
  }

  lemma StepKeepsInv(t: Timeline, step: Step)
    requires Inv(t) && Enabled(t, step)
    ensures Inv(Apply(t, step))
  {
    hide Inv, Process, Retry, ClaimHead;
    match step
    case FillRoom(roomId, room) => FillKeepsInv(t, roomId, room);
    case StoreResult(eventId, result) => StoreKeepsInv(t, eventId, result);
    case Claim(k, token, now, until) => ClaimKeepsInv(t, k, token, now, until);
    case Run(k, token, at, clock) => ProcessKeepsInv(t, k, token, at, clock);
    case Postpone(k, token, retryAt, clock) => PostponeKeepsInv(t, k, token, retryAt, clock);
  }

  lemma {:induction false} RunKeepsInv(t: Timeline, steps: seq<Step>)
    requires Inv(t) && CanRun(t, steps)
    ensures Inv(After(t, steps))
    decreases |steps|
  {
    hide Inv, Enabled, Apply;
    if steps != [] {
      StepKeepsInv(t, steps[0]);
      RunKeepsInv(Apply(t, steps[0]), steps[1..]);
    }
  }

  lemma StartIsInv()
    ensures Inv(START)
  {
  }

  lemma Reachable(steps: seq<Step>)
    requires CanRun(START, steps)
    ensures Inv(After(START, steps))
  {
    hide Inv, CanRun, After;
    StartIsInv();
    RunKeepsInv(START, steps);
  }

  // ---------------------------------------------------------------------
  // No leaks
  // ---------------------------------------------------------------------

  /** When a room is predicted, none of its results has even been handed out;
      everything the prediction reads is dated at or before the fill, and it is
      exactly what the stored states say. */
  lemma PredictionSeesThePast(steps: seq<Step>, k: ShadowKey, token: Id, at: Time, clock: Time)
    requires CanRun(START, steps) && k.kind.RoomWork?
    requires Process(After(START, steps), k, token, at, clock).outcome.Processed?
    ensures var t := After(START, steps);
      var after := Process(t, k, token, at, clock).timeline;
      && k.sourceId in t.rooms && k.sourceId !in t.predictions && k.sourceId in after.predictions
      && (forall e :: e in t.results && t.results[e].roomId == k.sourceId ==>
        !Attempted(t.work, ShadowKey(ResultWork, e)))
      && after.predictions[k.sourceId].generatedAt == t.rooms[k.sourceId].filledAt
      && (forall p :: p in after.predictions[k.sourceId].read ==>
        && (p, after.predictions[k.sourceId].candidate) in t.states
        && after.predictions[k.sourceId].read[p] == t.states[(p, after.predictions[k.sourceId].candidate)]
        && after.predictions[k.sourceId].read[p] <= t.rooms[k.sourceId].filledAt)
      && after.states == t.states
  {
    hide CanRun, After, Inv, Process, AnyNewer, DatesRead, Done, Attempted;
    Reachable(steps);
    var t := After(START, steps);
    ProcessShape(t, k, token, at, clock);
    ProcessWrites(t, k, token, at, clock);
    var room := t.rooms[k.sourceId];
    DatesReadOlder(t.states, room.players, room.candidate.value, room.filledAt);
    OpenRoomUntouched(t, k.sourceId);
    assert k == ShadowKey(RoomWork, k.sourceId);
  }

  /** While a room's item is open it has no prediction, and its results wait. */
  lemma OpenRoomUntouched(t: Timeline, r: Id)
    requires Inv(t) && Open(t.work, ShadowKey(RoomWork, r))
    ensures r !in t.predictions
    ensures forall e :: e in t.results && t.results[e].roomId == r ==> !Attempted(t.work, ShadowKey(ResultWork, e))
  {
    hide ItemsOk;
    assert !Done(t.work, ShadowKey(RoomWork, r));
  }

  /** When a result moves the candidate's states, its room's prediction has been
      committed, and when it is processed at all, so has the room's item. */
  lemma PredictionBeforeResult(steps: seq<Step>, k: ShadowKey, token: Id, at: Time, clock: Time)
    requires CanRun(START, steps) && k.kind.ResultWork?
    requires var outcome := Process(After(START, steps), k, token, at, clock).outcome;
      outcome.Processed? || outcome.Skipped?
    ensures var t := After(START, steps);
      && k.sourceId in t.results
      && Done(t.work, ShadowKey(RoomWork, t.results[k.sourceId].roomId))
      && (Process(t, k, token, at, clock).timeline.states != t.states ==> t.results[k.sourceId].roomId in t.predictions)
  {
    hide CanRun, After, Inv, Process, AnyNewer, DatesRead, Advance, Done;
    Reachable(steps);
    var t := After(START, steps);
    ProcessShape(t, k, token, at, clock);
    if Process(t, k, token, at, clock).outcome.Processed? {
      ProcessWrites(t, k, token, at, clock);
    }
    OwnedResultFollowsRoom(t, k, token, clock);
  }

  lemma OwnedResultFollowsRoom(t: Timeline, k: ShadowKey, token: Id, clock: Time)
    requires Inv(t) && k.kind.ResultWork? && Owns(t.work, k, token, clock)
    ensures k.sourceId in t.results && Done(t.work, ShadowKey(RoomWork, t.results[k.sourceId].roomId))
  {
    hide PredictionsOk, Done;
    assert Attempted(t.work, k);
    assert k == ShadowKey(ResultWork, k.sourceId);
  }
}

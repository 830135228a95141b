/** Result transactions: finalization, and expiry of overdue rooms. */
module ResultStore {
  import opened Common
  import opened Batches
  import opened Outbox
  import opened Database
  import opened TicketStore

  const MAX_RESULT_DEADLINE_BATCH_SIZE := 256

  // ---------------------------------------------------------------------
  // Sessions
  // ---------------------------------------------------------------------

  function Outcome(p: VerifiedParticipant): SessionStatus {
    if p.features.completed == Some(false) then Forfeited else Submitted
  }

  function FinishSession(sessions: map<Id, Session>, p: VerifiedParticipant): map<Id, Session> {
    if p.sessionId in sessions then sessions[p.sessionId := sessions[p.sessionId].(status := Outcome(p))] else sessions
  }

  function FinishSessions(sessions: map<Id, Session>, participants: seq<VerifiedParticipant>): map<Id, Session>
    decreases |participants|
  {
    if participants == [] then sessions
    else FinishSessions(FinishSession(sessions, participants[0]), participants[1..])
  }

  function ForfeitSessions(sessions: map<Id, Session>, roomId: Id): map<Id, Session> {
    map s | s in sessions ::
      if sessions[s].roomId == roomId && !sessions[s].Finished() then sessions[s].(status := Forfeited) else sessions[s]
  }

  // ---------------------------------------------------------------------
  // Finalization
  // ---------------------------------------------------------------------

  predicate ParticipantMatches(sessions: map<Id, Session>, roomId: Id, p: VerifiedParticipant, finishedAt: Time) {
    && p.sessionId in sessions
    && sessions[p.sessionId].roomId == roomId
    && sessions[p.sessionId].playerId == p.playerId
    && sessions[p.sessionId].allocatedAt <= finishedAt
  }

  /** Every session of the room has its participant and the other way round. */
  predicate ParticipantsMatch(
    sessions: map<Id, Session>, roomId: Id, participants: seq<VerifiedParticipant>, capacity: int, finishedAt: Time)
  {
    && |participants| == capacity
    && |RoomSessions(sessions, roomId)| == capacity
    && forall p :: p in participants ==> ParticipantMatches(sessions, roomId, p, finishedAt)
  }

  function ReplayResult(db: Db, stored: ResultDigest, digest: ResultDigest): Change {
    if stored == digest then Change(db, Replayed) else Fail(db, ResultConflict)
  }

  /** The rows of a completed room. */
  function CompleteRoom(db: Db, c: FinalizeCommand, completionEventId: Id): Db
    requires c.roomId in db.rooms && db.rooms[c.roomId].status.Collecting?
  {
    var room := db.rooms[c.roomId];
    var version := room.version + 1;
    db.(results := db.results[c.eventId := c.Digest()],
        roomResults := db.roomResults[c.roomId := c.eventId],
        sessions := FinishSessions(db.sessions, c.participants),
        rooms := db.rooms[c.roomId := room.(
          status := Completed(room.status.filledAt, room.status.resultDeadline, c.acceptedAt), version := version)],
        outbox := db.outbox
          + [EventOf(completionEventId, AGGREGATE_ROOM, c.roomId, version, ROOM_COMPLETED, c.acceptedAt)],
        shadow := AddShadowWork(db.shadow, ShadowKey(ResultWork, c.eventId), ShadowItem(c.availableAt, 1)))
  }

  /** The completion event's identity is derived from the result and the version. */
  function Finalize(db: Db, c: FinalizeCommand, completionEventId: Id): Change {
    if !c.Valid() then Fail(db, InvalidCommand)
    else if c.eventId in db.results then ReplayResult(db, db.results[c.eventId], c.Digest())
    else if c.roomId !in db.rooms || ConfigOf(db, db.rooms[c.roomId].profile).None? then Fail(db, ResultRoomNotFound)
    else
      var room := db.rooms[c.roomId];
      var config := ConfigOf(db, room.profile).value;
      if !room.status.Collecting? then
        if c.roomId in db.roomResults && db.roomResults[c.roomId] in db.results
        then ReplayResult(db, db.results[db.roomResults[c.roomId]], c.Digest())
        else Fail(db, ResultRoomNotCollecting)
      else if config.modeId != c.modeId || room.profile.deckId != c.deckId
        || config.scoringRulesVersion != c.scoringRulesVersion
      then Fail(db, ResultConflict)
      else if c.acceptedAt > room.status.resultDeadline || c.finishedAt > room.status.resultDeadline
      then Fail(db, ResultDeadlinePassed)
      else if !ParticipantsMatch(db.sessions, c.roomId, c.participants, config.capacity, c.finishedAt)
      then Fail(db, ResultParticipantsMismatch)
      else if c.roomId in db.roomResults then Fail(db, ResultConflict)
      else if c.acceptedAt < room.status.filledAt then Fail(db, ConstraintFailed)
      else if EventRefused(db.outbox, completionEventId) then Fail(db, ResultConflict)
      else Change(CompleteRoom(db, c, completionEventId), Changed)
  }

  // ---------------------------------------------------------------------
  // Overdue rooms
  // ---------------------------------------------------------------------

  predicate Due(db: Db, roomId: Id, at: Time) {
    roomId in db.rooms && db.rooms[roomId].status.Collecting? && db.rooms[roomId].status.resultDeadline <= at
  }

  /** One room of the batch, with the derived identity of its event. */
  function ExpireRoom(db: Db, roomId: Id, at: Time, eventId: Id): Db
    requires Due(db, roomId, at)
  {
    var room := db.rooms[roomId];
    var version := room.version + 1;
    db.(rooms := db.rooms[roomId := room.(
          status := Overdue(room.status.filledAt, room.status.resultDeadline, at), version := version)],
        sessions := ForfeitSessions(db.sessions, roomId),
        outbox := db.outbox + [EventOf(eventId, AGGREGATE_ROOM, roomId, version, ROOM_EXPIRED, at)])
  }

  datatype RoomExpiry = RoomExpiry(roomId: Id, eventId: Id)

  /** The batch, room by room; one colliding event undoes the whole batch. */
  function ExpireEach(db: Db, batch: seq<RoomExpiry>, at: Time): Option<Db>
    decreases |batch|
  {
    if batch == [] then Some(db)
    else if !Due(db, batch[0].roomId, at) || EventRefused(db.outbox, batch[0].eventId) then None
    else ExpireEach(ExpireRoom(db, batch[0].roomId, at, batch[0].eventId), batch[1..], at)
  }

  /** Rooms a statement may pick: due, distinct and within the limit. */
  predicate IsDueBatch(db: Db, batch: seq<RoomExpiry>, limit: int, at: Time) {
    && |batch| <= limit
    && (forall e :: e in batch ==> Due(db, e.roomId, at))
    && (forall i, j :: 0 <= i < j < |batch| ==> batch[i].roomId != batch[j].roomId)
  }

  /** The statement's ordering: deadline, then identity. */
  predicate DeadlineBefore(rooms: map<Id, Room>, a: Id, b: Id)
    requires a in rooms && b in rooms
  {
    && rooms[a].status.Collecting? && rooms[b].status.Collecting?
    && (rooms[a].status.resultDeadline < rooms[b].status.resultDeadline
        || (rooms[a].status.resultDeadline == rooms[b].status.resultDeadline && a < b))
  }

  function DeadlineOrder(rooms: map<Id, Room>): Order {
    (a: Id, b: Id) => a in rooms && b in rooms && DeadlineBefore(rooms, a, b)
  }

  function DueRooms(db: Db, locked: set<Id>, at: Time): set<Id> {
    set r | r in db.rooms && r !in locked && Due(db, r, at)
  }

  lemma DeadlineOrderDecides(db: Db, locked: set<Id>, at: Time)
    ensures DecidesOn(DeadlineOrder(db.rooms), DueRooms(db, locked, at))
    ensures TransitiveOn(DeadlineOrder(db.rooms), DueRooms(db, locked, at))
  {
    var before, due := DeadlineOrder(db.rooms), DueRooms(db, locked, at);
    forall a, b | a in due && b in due && a != b ensures before(a, b) || before(b, a) {
      assert DeadlineBefore(db.rooms, a, b) || DeadlineBefore(db.rooms, b, a);
    }
    forall a, b, c | a in due && b in due && c in due && before(a, b) && before(b, c) ensures before(a, c) {
      assert DeadlineBefore(db.rooms, a, b) && DeadlineBefore(db.rooms, b, c) ==> DeadlineBefore(db.rooms, a, c);
    }
  }

  function RoomIds(batch: seq<RoomExpiry>): set<Id> {
    set e | e in batch :: e.roomId
  }

  /** The batch the statement takes: the unlocked rooms that have been due longest,
      as many as the limit admits, each with the identity derived for its event. */
  ghost predicate IsStatementBatch(
    db: Db, locked: set<Id>, limit: int, at: Time, derive: (Id, int) -> Id, batch: seq<RoomExpiry>)
  {
    && IsDueBatch(db, batch, limit, at)
    && IsEarliest(DueRooms(db, locked, at), limit, DeadlineOrder(db.rooms), RoomIds(batch))
    && forall e :: e in batch ==> e.eventId == derive(e.roomId, NextVersion(db.rooms, e.roomId))
  }

  function ExpireRooms(db: Db, batch: seq<RoomExpiry>, limit: int, at: Time): Change {
    if limit <= 0 || limit > MAX_RESULT_DEADLINE_BATCH_SIZE || at == 0 then Fail(db, InvalidCommand)
    else
      var expired := ExpireEach(db, batch, at);
      if expired.None? then Fail(db, ResultConflict) else Change(expired.value, Changed)
  }

  // ---------------------------------------------------------------------
  // The batch at once
  // ---------------------------------------------------------------------

  function ExpiredRow(room: Room, at: Time): Room
    requires room.status.Collecting?
  {
    room.(status := Overdue(room.status.filledAt, room.status.resultDeadline, at), version := room.version + 1)
  }

  function ExpiredRows(rooms: map<Id, Room>, ids: set<Id>, at: Time): map<Id, Room> {
    map r | r in rooms ::
      if r in ids && rooms[r].status.Collecting? then ExpiredRow(rooms[r], at) else rooms[r]
  }

  function ForfeitIn(sessions: map<Id, Session>, ids: set<Id>): map<Id, Session> {
    map s | s in sessions ::
      if sessions[s].roomId in ids && !sessions[s].Finished() then sessions[s].(status := Forfeited) else sessions[s]
  }

  function NextVersion(rooms: map<Id, Room>, r: Id): nat {
    if r in rooms then rooms[r].version + 1 else 1
  }

  function ExpiryEvent(rooms: map<Id, Room>, e: RoomExpiry, at: Time): Event {
    EventOf(e.eventId, AGGREGATE_ROOM, e.roomId, NextVersion(rooms, e.roomId), ROOM_EXPIRED, at)
  }

  function ExpiryEvents(rooms: map<Id, Room>, batch: seq<RoomExpiry>, at: Time): seq<Event> {
    seq(|batch|, i requires 0 <= i < |batch| => ExpiryEvent(rooms, batch[i], at))
  }

  /** Every room of the batch is expired, every open session in one of them is
      forfeited, and each room has one event, in the order of the batch. */
  function ExpireAtOnce(db: Db, batch: seq<RoomExpiry>, at: Time): Db {
    db.(rooms := ExpiredRows(db.rooms, RoomIds(batch), at),
        sessions := ForfeitIn(db.sessions, RoomIds(batch)),
        outbox := db.outbox + ExpiryEvents(db.rooms, batch, at))
  }

  predicate EventsFresh(outbox: seq<Event>, batch: seq<RoomExpiry>) {
    && (forall e :: e in batch ==> !EventRefused(outbox, e.eventId))
    && (forall i, j :: 0 <= i < j < |batch| ==> batch[i].eventId != batch[j].eventId)
  }

  lemma RestStaysDue(db: Db, batch: seq<RoomExpiry>, limit: int, at: Time)
    requires batch != [] && IsDueBatch(db, batch, limit, at)
    ensures IsDueBatch(ExpireRoom(db, batch[0].roomId, at, batch[0].eventId), batch[1..], limit, at)
    ensures forall e :: e in batch[1..] ==> e.roomId != batch[0].roomId && e in batch
  {
    forall e | e in batch[1..] ensures e.roomId != batch[0].roomId && e in batch {
      var i :| 0 <= i < |batch[1..]| && batch[1..][i] == e;
      assert batch[i + 1] == e;
    }
  }

  lemma RowsFirstThenRest(db: Db, batch: seq<RoomExpiry>, at: Time)
    requires batch != [] && Due(db, batch[0].roomId, at) && batch[0].roomId !in RoomIds(batch[1..])
    ensures ExpiredRows(db.rooms[batch[0].roomId := ExpiredRow(db.rooms[batch[0].roomId], at)], RoomIds(batch[1..]), at)
      == ExpiredRows(db.rooms, RoomIds(batch), at)
  {
    assert batch == [batch[0]] + batch[1..];
    assert RoomIds(batch) == {batch[0].roomId} + RoomIds(batch[1..]);
  }

  lemma SessionsFirstThenRest(sessions: map<Id, Session>, first: Id, rest: set<Id>)
    ensures ForfeitIn(ForfeitSessions(sessions, first), rest) == ForfeitIn(sessions, {first} + rest)
  {
  }

  lemma EventsFirstThenRest(rooms: map<Id, Room>, batch: seq<RoomExpiry>, room: Room, at: Time)
    requires batch != [] && batch[0].roomId !in RoomIds(batch[1..])
    ensures [ExpiryEvent(rooms, batch[0], at)] + ExpiryEvents(rooms[batch[0].roomId := room], batch[1..], at)
      == ExpiryEvents(rooms, batch, at)
  {
    assert forall i :: 0 <= i < |batch[1..]| ==> batch[1..][i].roomId in RoomIds(batch[1..]);
  }

  lemma FirstThenRest(db: Db, batch: seq<RoomExpiry>, at: Time)
    requires batch != [] && Due(db, batch[0].roomId, at)
    requires forall e :: e in batch[1..] ==> e.roomId != batch[0].roomId
    ensures ExpireAtOnce(ExpireRoom(db, batch[0].roomId, at, batch[0].eventId), batch[1..], at)
      == ExpireAtOnce(db, batch, at)
  {
    hide ExpiredRows, ForfeitIn, ForfeitSessions, ExpiryEvents;
    assert batch == [batch[0]] + batch[1..];
    assert RoomIds(batch) == {batch[0].roomId} + RoomIds(batch[1..]);
    RowsFirstThenRest(db, batch, at);
    SessionsFirstThenRest(db.sessions, batch[0].roomId, RoomIds(batch[1..]));
    EventsFirstThenRest(db.rooms, batch, ExpiredRow(db.rooms[batch[0].roomId], at), at);
  }

  lemma RefusedOneMore(outbox: seq<Event>, first: Event)
    ensures forall id :: EventRefused(outbox + [first], id) <==> EventRefused(outbox, id) || id == first.eventId
  {
    forall id ensures EventRefused(outbox + [first], id) <==> EventRefused(outbox, id) || id == first.eventId {
      assert first in outbox + [first];
      assert forall e :: e in outbox + [first] <==> e in outbox || e == first;
    }
  }

  lemma RestIsFresh(outbox: seq<Event>, first: Event, batch: seq<RoomExpiry>)
    requires batch != [] && first.eventId == batch[0].eventId && EventsFresh(outbox, batch)
    ensures EventsFresh(outbox + [first], batch[1..])
  {
    RefusedOneMore(outbox, first);
    hide EventRefused;
    forall i, j | 0 <= i < j < |batch[1..]| ensures batch[1..][i].eventId != batch[1..][j].eventId {
      assert batch[i + 1].eventId != batch[j + 1].eventId;
    }
    forall e | e in batch[1..] ensures e in batch && e.eventId != first.eventId {
      var i :| 0 <= i < |batch[1..]| && batch[1..][i] == e;
      assert batch[i + 1] == e;
    }
  }

  lemma AllAreFresh(outbox: seq<Event>, first: Event, batch: seq<RoomExpiry>)
    requires batch != [] && first.eventId == batch[0].eventId
    requires !EventRefused(outbox, batch[0].eventId) && EventsFresh(outbox + [first], batch[1..])
    ensures EventsFresh(outbox, batch)
  {
    RefusedOneMore(outbox, first);
    hide EventRefused;
    assert batch == [batch[0]] + batch[1..];
    forall i, j | 0 <= i < j < |batch| ensures batch[i].eventId != batch[j].eventId {
      assert batch[j] in batch[1..];
      if i > 0 {
        assert batch[1..][i - 1] == batch[i] && batch[1..][j - 1] == batch[j];
      }
    }
  }

  lemma FreshFirstThenRest(outbox: seq<Event>, first: Event, batch: seq<RoomExpiry>)
    requires batch != [] && first.eventId == batch[0].eventId
    ensures EventsFresh(outbox, batch)
      <==> !EventRefused(outbox, batch[0].eventId) && EventsFresh(outbox + [first], batch[1..])
  {
    hide EventRefused;
    if EventsFresh(outbox, batch) {
      assert batch[0] in batch;
      RestIsFresh(outbox, first, batch);
    }
    if !EventRefused(outbox, batch[0].eventId) && EventsFresh(outbox + [first], batch[1..]) {
      AllAreFresh(outbox, first, batch);
    }
  }

  /** Room by room is the same as all rooms at once: a due batch fails exactly if
      an event identity is used already, and otherwise forfeits every open session
      of its rooms and adds one event for each of them. */
  lemma {:induction false} ExpiryIsExact(db: Db, batch: seq<RoomExpiry>, limit: int, at: Time)
    requires IsDueBatch(db, batch, limit, at)
    ensures ExpireEach(db, batch, at)
      == if EventsFresh(db.outbox, batch) then Some(ExpireAtOnce(db, batch, at)) else None
    decreases |batch|
  {
    if batch == [] {
      assert ExpiredRows(db.rooms, {}, at) == db.rooms && ForfeitIn(db.sessions, {}) == db.sessions;
      assert RoomIds(batch) == {};
      assert ExpireAtOnce(db, batch, at) == db;
    } else {
      RestStaysDue(db, batch, limit, at);
      FirstThenRest(db, batch, at);
      var next := ExpireRoom(db, batch[0].roomId, at, batch[0].eventId);
      FreshFirstThenRest(db.outbox, ExpiryEvent(db.rooms, batch[0], at), batch);
      ExpiryIsExact(next, batch[1..], limit, at);
      hide EventsFresh, ExpireAtOnce, EventRefused;
    }
  }

  // ---------------------------------------------------------------------
  // The store
  // ---------------------------------------------------------------------

  method FinishAll(
      sessions: map<Id, Session>, participants: seq<VerifiedParticipant>) returns (finished: map<Id, Session>)
    ensures finished == FinishSessions(sessions, participants)
  {
    finished := sessions;
    for k := 0 to |participants|
      invariant FinishSessions(finished, participants[k..]) == FinishSessions(sessions, participants)
    {
      assert participants[k..][0] == participants[k] && participants[k..][1..] == participants[k + 1..];
      finished := FinishSession(finished, participants[k]);
    }
  }

  lemma StatementBatchIsDue(
    db: Db, locked: set<Id>, limit: int, at: Time, derive: (Id, int) -> Id, batch: seq<RoomExpiry>)
    requires IsStatementBatch(db, locked, limit, at, derive, batch)
    ensures IsDueBatch(db, batch, limit, at)
  {
  }

  /** The rows that a statement returns, in no particular order. */
  method InSomeOrder(db: Db, ids: set<Id>, derive: (Id, int) -> Id) returns (batch: seq<RoomExpiry>)
    ensures RoomIds(batch) == ids && |batch| == |ids|
    ensures forall e :: e in batch ==> e.eventId == derive(e.roomId, NextVersion(db.rooms, e.roomId))
    ensures forall i, j :: 0 <= i < j < |batch| ==> batch[i].roomId != batch[j].roomId
  {
    hide NextVersion;
    batch := [];
    var rest := ids;
    while rest != {}
      invariant rest <= ids && RoomIds(batch) == ids - rest && |batch| == |ids| - |rest|
      invariant forall e :: e in batch ==> e.eventId == derive(e.roomId, NextVersion(db.rooms, e.roomId))
      invariant forall i, j :: 0 <= i < j < |batch| ==> batch[i].roomId != batch[j].roomId
      decreases rest
    {
      var r :| r in rest;
      var e := RoomExpiry(r, derive(r, NextVersion(db.rooms, r)));
      assert r !in RoomIds(batch);
      assert RoomIds(batch + [e]) == RoomIds(batch) + {r};
      batch, rest := batch + [e], rest - {r};
    }
  }

  /** The batch of the expiry statement. */
  method TakeBatch(db: Db, locked: set<Id>, limit: int, at: Time, derive: (Id, int) -> Id)
    returns (batch: seq<RoomExpiry>)
    requires limit > 0
    ensures IsStatementBatch(db, locked, limit, at, derive, batch)
  {
    hide DecidesOn, TransitiveOn, IsEarliest, Due;
    DeadlineOrderDecides(db, locked, at);
    var ids := SelectEarliest(DueRooms(db, locked, at), limit, DeadlineOrder(db.rooms));
    SelectedAreDue(DueRooms(db, locked, at), limit, DeadlineOrder(db.rooms), ids);
    batch := InSomeOrder(db, ids, derive);
    TakenIsBatch(db, locked, limit, at, derive, batch);
  }

  lemma TakenIsBatch(
    db: Db, locked: set<Id>, limit: int, at: Time, derive: (Id, int) -> Id, batch: seq<RoomExpiry>)
    requires IsEarliest(DueRooms(db, locked, at), limit, DeadlineOrder(db.rooms), RoomIds(batch))
    requires |batch| == |RoomIds(batch)|
    requires forall e :: e in batch ==> e.eventId == derive(e.roomId, NextVersion(db.rooms, e.roomId))
    requires forall i, j :: 0 <= i < j < |batch| ==> batch[i].roomId != batch[j].roomId
    ensures IsStatementBatch(db, locked, limit, at, derive, batch)
  {
    hide Due;
    SelectedAreDue(DueRooms(db, locked, at), limit, DeadlineOrder(db.rooms), RoomIds(batch));
    hide IsEarliest, DeadlineOrder, NextVersion;
    forall e | e in batch ensures Due(db, e.roomId, at) {
      assert e.roomId in RoomIds(batch);
    }
  }

  lemma SelectedAreDue(due: set<Id>, limit: int, before: Order, batch: set<Id>)
    requires IsEarliest(due, limit, before, batch)
    ensures batch <= due && |batch| <= limit
  {
  }

  // The loop over the returned rooms

  lemma NothingExpired(db: Db, batch: seq<RoomExpiry>)
    ensures RoomIds(batch[..0]) == {} && ForfeitIn(db.sessions, {}) == db.sessions
    ensures forall at :: ExpiryEvents(db.rooms, batch[..0], at) == []
    ensures EventsFresh(db.outbox, batch[..0])
  {
  }

  lemma OneMoreExpired(db: Db, batch: seq<RoomExpiry>, k: nat, at: Time)
    requires k < |batch|
    ensures ForfeitSessions(ForfeitIn(db.sessions, RoomIds(batch[..k])), batch[k].roomId)
      == ForfeitIn(db.sessions, RoomIds(batch[..k + 1]))
    ensures ExpiryEvents(db.rooms, batch[..k], at) + [ExpiryEvent(db.rooms, batch[k], at)]
      == ExpiryEvents(db.rooms, batch[..k + 1], at)
    ensures EventsFresh(db.outbox, batch[..k]) ==>
      (EventsFresh(db.outbox, batch[..k + 1])
       <==> !EventRefused(db.outbox + ExpiryEvents(db.rooms, batch[..k], at), batch[k].eventId))
  {
    hide ForfeitIn, ForfeitSessions, ExpiryEvents, EventsFresh, EventRefused;
    assert batch[..k + 1] == batch[..k] + [batch[k]];
    assert RoomIds(batch[..k + 1]) == RoomIds(batch[..k]) + {batch[k].roomId};
    SessionsOneMore(db.sessions, RoomIds(batch[..k]), batch[k].roomId);
    EventsOneMore(db.rooms, batch[..k], batch[k], at);
    if EventsFresh(db.outbox, batch[..k]) {
      FreshOneMore(db.outbox, db.rooms, batch[..k], batch[k], at);
    }
  }

  lemma SessionsOneMore(sessions: map<Id, Session>, ids: set<Id>, last: Id)
    ensures ForfeitSessions(ForfeitIn(sessions, ids), last) == ForfeitIn(sessions, ids + {last})
  {
  }

  lemma EventsOneMore(rooms: map<Id, Room>, batch: seq<RoomExpiry>, last: RoomExpiry, at: Time)
    ensures ExpiryEvents(rooms, batch, at) + [ExpiryEvent(rooms, last, at)] == ExpiryEvents(rooms, batch + [last], at)
  {
  }

  lemma FreshOneMore(outbox: seq<Event>, rooms: map<Id, Room>, batch: seq<RoomExpiry>, last: RoomExpiry, at: Time)
    requires EventsFresh(outbox, batch)
    ensures EventsFresh(outbox, batch + [last])
      <==> !EventRefused(outbox + ExpiryEvents(rooms, batch, at), last.eventId)
  {
    var events := ExpiryEvents(rooms, batch, at);
    assert forall e :: e in outbox + events <==> e in outbox || e in events;
    if i :| 0 <= i < |batch| && batch[i].eventId == last.eventId {
      assert events[i] in events;
      assert (batch + [last])[i].eventId == (batch + [last])[|batch|].eventId;
    } else {
      assert last.eventId != 0 && EventRefused(outbox + events, last.eventId) ==> EventRefused(outbox, last.eventId);
      assert (batch + [last])[|batch|] in batch + [last];
    }
  }

  lemma FreshPrefix(outbox: seq<Event>, batch: seq<RoomExpiry>, k: nat)
    requires k <= |batch|
    ensures EventsFresh(outbox, batch) ==> EventsFresh(outbox, batch[..k])
  {
    hide EventRefused;
  }

  /** The rooms in one statement, then the sessions and the event of each room. */
  method ExpireBatch(db: Db, batch: seq<RoomExpiry>, limit: int, at: Time) returns (after: Option<Db>)
    requires IsDueBatch(db, batch, limit, at)
    ensures after == ExpireEach(db, batch, at)
  {
    ExpiryIsExact(db, batch, limit, at);
    var rooms := ExpiredRows(db.rooms, RoomIds(batch), at);
    var sessions, outbox := db.sessions, db.outbox;
    NothingExpired(db, batch);
    hide *;
    for k := 0 to |batch|
      invariant sessions == ForfeitIn(db.sessions, RoomIds(batch[..k]))
      invariant outbox == db.outbox + ExpiryEvents(db.rooms, batch[..k], at)
      invariant EventsFresh(db.outbox, batch[..k])
    {
      OneMoreExpired(db, batch, k, at);
      FreshPrefix(db.outbox, batch, k + 1);
      sessions := ForfeitSessions(sessions, batch[k].roomId);
      if EventRefused(outbox, batch[k].eventId) {
        return None;
      }
      outbox := outbox + [ExpiryEvent(db.rooms, batch[k], at)];
    }
    assert batch[..|batch|] == batch;
    Together(db, batch, at);
    after := Some(db.(rooms := rooms, sessions := sessions, outbox := outbox));
  }

  lemma Together(db: Db, batch: seq<RoomExpiry>, at: Time)
    ensures ExpireAtOnce(db, batch, at)
      == db.(rooms := ExpiredRows(db.rooms, RoomIds(batch), at),
             sessions := ForfeitIn(db.sessions, RoomIds(batch)),
             outbox := db.outbox + ExpiryEvents(db.rooms, batch, at))
  {
  }

  class ResultStore {
    var db: Db

    constructor (tables: Db)
      ensures db == tables
    {
      db := tables;
    }

    method FinalizeResult(c: FinalizeCommand, completionEventId: Id) returns (reply: Reply)
      modifies this
      ensures Change(db, reply) == Finalize(old(db), c, completionEventId)
    {
      if !c.Valid() {
        return Failed(InvalidCommand);
      }
      var digest := c.Digest();
      if c.eventId in db.results {
        return if db.results[c.eventId] == digest then Replayed else Failed(ResultConflict);
      }
      if c.roomId !in db.rooms || ConfigOf(db, db.rooms[c.roomId].profile).None? {
        return Failed(ResultRoomNotFound);
      }
      var room := db.rooms[c.roomId];
      var config := ConfigOf(db, room.profile).value;
      if !room.status.Collecting? {
        if c.roomId in db.roomResults && db.roomResults[c.roomId] in db.results {
          return if db.results[db.roomResults[c.roomId]] == digest then Replayed else Failed(ResultConflict);
        }
        return Failed(ResultRoomNotCollecting);
      }
      if config.modeId != c.modeId || room.profile.deckId != c.deckId
        || config.scoringRulesVersion != c.scoringRulesVersion {
        return Failed(ResultConflict);
      }
      if c.acceptedAt > room.status.resultDeadline || c.finishedAt > room.status.resultDeadline {
        return Failed(ResultDeadlinePassed);
      }
      if !ParticipantsMatch(db.sessions, c.roomId, c.participants, config.capacity, c.finishedAt) {
        return Failed(ResultParticipantsMismatch);
      }
      if c.roomId in db.roomResults {
        return Failed(ResultConflict);
      }
      var tx := db.(results := db.results[c.eventId := digest], roomResults := db.roomResults[c.roomId := c.eventId]);
      var sessions := FinishAll(tx.sessions, c.participants);
      tx := tx.(sessions := sessions);
      if c.acceptedAt < room.status.filledAt {
        return Failed(ConstraintFailed);
      }
      var version := room.version + 1;
      tx := tx.(rooms := tx.rooms[c.roomId := room.(
        status := Completed(room.status.filledAt, room.status.resultDeadline, c.acceptedAt), version := version)]);
      if EventRefused(tx.outbox, completionEventId) {
        return Failed(ResultConflict);
      }
      tx := tx.(outbox := tx.outbox
        + [EventOf(completionEventId, AGGREGATE_ROOM, c.roomId, version, ROOM_COMPLETED, c.acceptedAt)]);
      tx := tx.(shadow := AddShadowWork(tx.shadow, ShadowKey(ResultWork, c.eventId), ShadowItem(c.availableAt, 1)));
      db := tx;
      reply := Changed;
    }

    /** Picks the batch and expires its rooms in one statement, then forfeits the
        open sessions and inserts the event of each room in turn. */
    method ExpireResultRooms(limit: int, at: Time, locked: set<Id>, derive: (Id, int) -> Id)
      returns (reply: Reply, expired: seq<RoomExpiry>)
      modifies this
      ensures !(0 < limit <= MAX_RESULT_DEADLINE_BATCH_SIZE && at != 0) ==>
        reply == Failed(InvalidCommand) && expired == [] && db == old(db)
      ensures 0 < limit <= MAX_RESULT_DEADLINE_BATCH_SIZE && at != 0 ==> exists batch: seq<RoomExpiry> ::
        && IsStatementBatch(old(db), locked, limit, at, derive, batch)
        && Change(db, reply) == ExpireRooms(old(db), batch, limit, at)
        && expired == if reply.Changed? then batch else []
    {
      if limit <= 0 || limit > MAX_RESULT_DEADLINE_BATCH_SIZE || at == 0 {
        return Failed(InvalidCommand), [];
      }
      var batch := TakeBatch(db, locked, limit, at, derive);
      StatementBatchIsDue(db, locked, limit, at, derive, batch);
      hide IsStatementBatch, IsDueBatch, ExpireEach;
      var tx := ExpireBatch(db, batch, limit, at);
      if tx.None? {
        return Failed(ResultConflict), [];
      }
      db := tx.value;
      reply, expired := Changed, batch;
    }
  }
}

/** What the lifecycle promises its clients: exact states, permanence, replay,
    and an outbox that can be delivered in order. */
module LifecycleLaws {
  import opened Common
  import opened Canonical
  import opened Outbox
  import OutboxRuns
  import opened Database
  import opened TicketStore
  import opened ResultStore
  import opened MatchmakingQueue
  import opened Lifecycle
  import opened LifecycleRuns

  // ---------------------------------------------------------------------
  // Reachable states
  // ---------------------------------------------------------------------

  /** The seats of a room are exactly one to the number of its members, it has
      left forming exactly when it is full, it has a stored result exactly when it
      is completed, everybody in a terminal room has submitted or forfeited, and
      its version counts its members plus its terminal transition. */
  ghost predicate RoomExact(db: Db, r: Id)
    requires r in db.rooms
  {
    var n := |Members(db.memberships, r)|;
    && (forall s :: s in Seats(db.memberships, r) <==> 1 <= s <= n)
    && ConfigOf(db, db.rooms[r].profile).Some?
    && (db.rooms[r].status.Forming? <==> n < ConfigOf(db, db.rooms[r].profile).value.capacity)
    && n <= ConfigOf(db, db.rooms[r].profile).value.capacity
    && (db.rooms[r].status.Completed? <==> exists e :: e in db.results && db.results[e].roomId == r)
    && (db.rooms[r].Terminal() ==> forall s :: s in RoomSessions(db.sessions, r) ==> db.sessions[s].Finished())
    && db.rooms[r].version == 1 + n + (if db.rooms[r].Terminal() then 1 else 0)
  }

  /** A ticket is assigned exactly when it has its one membership and its one
      session, and the three agree on the player, the room and the seat. */
  ghost predicate TicketExact(db: Db, t: Id)
    requires t in db.tickets
  {
    && (db.tickets[t].status.Assigned? <==> t in db.memberships)
    && (db.tickets[t].status.Assigned? <==> exists s :: s in db.sessions && db.sessions[s].ticketId == t)
    && (forall s :: s in db.sessions && db.sessions[s].ticketId == t ==>
      && t in db.memberships
      && SessionMirrors(db.sessions[s], db.memberships[t])
      && db.sessions[s].playerId == db.tickets[t].profile.playerId)
    && (forall s, u ::
      s in db.sessions && u in db.sessions && db.sessions[s].ticketId == t == db.sessions[u].ticketId ==> s == u)
  }

  /** Every reachable state is exact about its rooms and its tickets. */
  lemma ReachableIsExact(configs: Configs, steps: seq<Step>)
    requires ConfigsValid(configs)
    ensures var db := Run(Empty(configs), steps);
      && (forall r :: r in db.rooms ==> RoomExact(db, r))
      && (forall t :: t in db.tickets ==> TicketExact(db, t))
  {
    hide *;
    EmptyIsInv(configs);
    RunKeepsInv(Empty(configs), steps);
    var db := Run(Empty(configs), steps);
    forall r | r in db.rooms ensures RoomExact(db, r) {
      RoomFacts(db, r);
    }
    forall t | t in db.tickets ensures TicketExact(db, t) {
      TicketFacts(db, t);
    }
  }

  lemma RoomFacts(db: Db, r: Id)
    requires Inv(db) && r in db.rooms
    ensures RoomExact(db, r)
  {
    hide TicketsOk, SeatedOk, SessionsOk, AssignmentsOk, ShadowOk, ConfigsValid, OutboxOk, PartitionOk;
    hide SeatsExact, ResultsOk, TerminalOk, Members, Seats, RoomSessions;
    assert RoomOk(ConfigOf(db, db.rooms[r].profile).value, db.rooms[r], db.memberships, r);
    SeatsBounded(db.memberships, r, |Members(db.memberships, r)|);
    ResultFact(db.rooms, db.results, db.roomResults, r);
    if db.rooms[r].Terminal() {
      TerminalFact(db.rooms, db.sessions, r);
    }
  }

  lemma ResultFact(rooms: map<Id, Room>, results: map<Id, ResultDigest>, roomResults: map<Id, Id>, r: Id)
    requires ResultsOk(rooms, results, roomResults) && r in rooms
    ensures rooms[r].status.Completed? <==> exists e :: e in results && results[e].roomId == r
  {
  }

  lemma TerminalFact(rooms: map<Id, Room>, sessions: map<Id, Session>, r: Id)
    requires TerminalOk(rooms, sessions) && r in rooms && rooms[r].Terminal()
    ensures forall s :: s in RoomSessions(sessions, r) ==> sessions[s].Finished()
  {
  }

  lemma SeatsBounded(memberships: map<Id, Membership>, r: Id, n: nat)
    requires SeatsExact(memberships, r, n)
    ensures forall s :: s in Seats(memberships, r) <==> 1 <= s <= n
  {
    forall s | s in Seats(memberships, r) ensures 1 <= s <= n {
      var t :| t in memberships && memberships[t].roomId == r && memberships[t].seat == s;
      assert t in Members(memberships, r);
    }
  }

  lemma TicketFacts(db: Db, t: Id)
    requires Inv(db) && t in db.tickets
    ensures TicketExact(db, t)
  {
    hide TicketsOk, AssignmentsOk, RoomsOk, ResultsOk, TerminalOk, ShadowOk, ConfigsValid, OutboxOk, PartitionOk;
    if t in db.memberships {
      assert db.sessions[db.ticketSessions[t]].ticketId == t;
    }
  }

  // ---------------------------------------------------------------------
  // Permanence
  // ---------------------------------------------------------------------

  /** Nothing stored under a key is removed or rewritten. */
  ghost predicate Kept<K(!new), V>(before: map<K, V>, after: map<K, V>) {
    forall k :: k in before ==> k in after && after[k] == before[k]
  }

  lemma KeptSame<K(!new), V>(m: map<K, V>)
    ensures Kept(m, m)
  {
  }

  lemma KeptNew<K(!new), V>(m: map<K, V>, k: K, v: V)
    requires k !in m
    ensures Kept(m, m[k := v])
  {
  }

  lemma KeptAt<K(!new), V>(before: map<K, V>, after: map<K, V>, k: K)
    requires Kept(before, after) && k in before
    ensures k in after && after[k] == before[k]
  {
  }

  lemma KeptTransitive<K(!new), V>(a: map<K, V>, b: map<K, V>, c: map<K, V>)
    requires Kept(a, b) && Kept(b, c)
    ensures Kept(a, c)
  {
  }

  /** Requests never change, and a ticket that left the queue stays as it is. */
  ghost predicate TicketsPersist(before: map<Id, Ticket>, after: map<Id, Ticket>) {
    forall t :: t in before ==>
      && t in after && after[t].profile == before[t].profile
      && (!before[t].status.Queued? ==> after[t] == before[t])
  }

  /** Rooms keep their identity and their fill time, their versions grow, and a
      terminal room stays as it is. */
  ghost predicate RoomsPersist(before: map<Id, Room>, after: map<Id, Room>) {
    forall r :: r in before ==>
      && r in after && after[r].profile == before[r].profile
      && before[r].version <= after[r].version
      && FillKept(before[r], after[r])
      && (before[r].Terminal() ==> after[r] == before[r])
  }

  ghost predicate FillKept(before: Room, after: Room) {
    !before.status.Forming? ==> !after.status.Forming? && after.status.filledAt == before.status.filledAt
  }

  lemma TicketChanges(tickets: map<Id, Ticket>, t: Id, ticket: Ticket)
    requires t in tickets ==> tickets[t].status.Queued? && ticket.profile == tickets[t].profile
    ensures TicketsPersist(tickets, tickets[t := ticket])
  {
  }

  lemma RoomChanges(rooms: map<Id, Room>, r: Id, room: Room)
    requires r in rooms ==>
      && !rooms[r].Terminal() && room.profile == rooms[r].profile && rooms[r].version <= room.version
      && FillKept(rooms[r], room)
    ensures RoomsPersist(rooms, rooms[r := room])
  {
  }

  lemma RowsStay(tickets: map<Id, Ticket>, rooms: map<Id, Room>)
    ensures TicketsPersist(tickets, tickets) && RoomsPersist(rooms, rooms)
  {
  }

  lemma RowsTransitive(
    t0: map<Id, Ticket>, t1: map<Id, Ticket>, t2: map<Id, Ticket>, r0: map<Id, Room>, r1: map<Id, Room>,
    r2: map<Id, Room>)
    requires TicketsPersist(t0, t1) && TicketsPersist(t1, t2) && RoomsPersist(r0, r1) && RoomsPersist(r1, r2)
    ensures TicketsPersist(t0, t2) && RoomsPersist(r0, r2)
  {
  }

  /** What no later step takes back or rewrites. */
  ghost predicate Persists(before: Db, after: Db) {
    && after.configs == before.configs
    && Kept(before.entries, after.entries)
    && TicketsPersist(before.tickets, after.tickets)
    && Kept(before.commands, after.commands)
    && Kept(before.assignments, after.assignments)
    && Kept(before.memberships, after.memberships)
    && Kept(before.results, after.results)
    && RoomsPersist(before.rooms, after.rooms)
    && before.outbox <= after.outbox
  }

  lemma PersistsTransitive(a: Db, b: Db, c: Db)
    requires Persists(a, b) && Persists(b, c)
    ensures Persists(a, c)
  {
    hide Kept, TicketsPersist, RoomsPersist;
    KeptTransitive(a.entries, b.entries, c.entries);
    KeptTransitive(a.commands, b.commands, c.commands);
    KeptTransitive(a.assignments, b.assignments, c.assignments);
    KeptTransitive(a.memberships, b.memberships, c.memberships);
    KeptTransitive(a.results, b.results, c.results);
    RowsTransitive(a.tickets, b.tickets, c.tickets, a.rooms, b.rooms, c.rooms);
  }

  lemma NothingPersists(db: Db)
    ensures Persists(db, db)
    ensures Kept(db.entries, db.entries) && Kept(db.commands, db.commands) && Kept(db.assignments, db.assignments)
    ensures Kept(db.memberships, db.memberships) && Kept(db.results, db.results)
    ensures TicketsPersist(db.tickets, db.tickets) && RoomsPersist(db.rooms, db.rooms)
  {
    hide Kept, TicketsPersist, RoomsPersist;
    KeptSame(db.entries);
    KeptSame(db.commands);
    KeptSame(db.assignments);
    KeptSame(db.memberships);
    KeptSame(db.results);
    RowsStay(db.tickets, db.rooms);
  }

  // Acceptance, cancellation and expiry

  lemma AcceptPersists(db: Db, c: AcceptCommand)
    ensures Persists(db, Accept(db, c).db)
  {
    hide Kept, TicketsPersist, RoomsPersist, EventRefused, Configured, NewTicket, TicketEvent;
    NothingPersists(db);
    if Accept(db, c).reply.Changed? {
      KeptNew(db.entries, c.profile.entryId, c.ticketId);
      TicketChanges(db.tickets, c.ticketId, NewTicket(c.profile));
    }
  }

  lemma LeavePersists(
    db: Db, ticketId: Id, commandId: Id, digest: CommandDigest, next: TicketStatus, eventId: Id, eventType: Id,
    at: Time)
    requires ticketId in db.tickets && db.tickets[ticketId].status.Queued? && (ticketId, commandId) !in db.commands
    ensures Persists(db, LeaveQueue(db, ticketId, commandId, digest, next, eventId, eventType, at))
  {
    hide Kept, TicketsPersist, RoomsPersist, TicketEvent;
    NothingPersists(db);
    KeptNew(db.commands, (ticketId, commandId), digest);
    TicketChanges(db.tickets, ticketId, db.tickets[ticketId].Left(next));
  }

  lemma CancelPersists(db: Db, c: CancelCommand)
    ensures Persists(db, Cancel(db, c).db)
  {
    hide Kept, TicketsPersist, RoomsPersist, EventRefused, LeaveQueue;
    NothingPersists(db);
    if Cancel(db, c).reply.Changed? {
      LeavePersists(db, c.ticketId, c.commandId, CancelDigest, Cancelled(c.cancelledAt), c.eventId, TICKET_CANCELLED,
        c.cancelledAt);
    } else if Cancel(db, c).reply.Unchanged? {
      KeptNew(db.commands, (c.ticketId, c.commandId), CancelDigest);
    }
  }

  lemma ExpirePersists(db: Db, c: ExpireCommand, clock: Time)
    ensures Persists(db, Expire(db, c, clock).db)
  {
    hide Persists, EventRefused, LeaveQueue;
    NothingPersists(db);
    if Expire(db, c, clock).reply.Changed? {
      LeavePersists(
        db, c.ticketId, c.commandId, ExpireDigest(c.deadline), Expired(c.expiredAt), c.eventId, TICKET_EXPIRED,
        c.expiredAt);
    }
  }

  // Assignment

  /** What the inserts of an assignment rest on. */
  ghost predicate SeatIsNew(db: Db, c: AssignCommand) {
    && Seatable(db, c)
    && db.tickets[c.ticketId].status.Queued? && c.ticketId !in db.memberships
    && db.rooms[c.roomId].status.Forming?
    && c.assignmentId !in db.assignments
  }

  lemma AssignSeats(db: Db, c: AssignCommand, clock: Time) returns (seat: int)
    ensures Assign(db, c, clock).reply.Changed? ==> SeatIsNew(db, c) && Assign(db, c, clock).db == Seat(db, c, seat)
    ensures !Assign(db, c, clock).reply.Changed? ==> Assign(db, c, clock).db == db
  {
    hide PlayerSeated, EventRefused, Members, Seats, Seat, Fills, LeastFree;
    seat := 0;
    if Assign(db, c, clock).reply.Changed? {
      seat := LeastFree(Seats(db.memberships, c.roomId), 1, RoomConfig(db, c).capacity).value;
    }
  }

  lemma SeatPersists(db: Db, c: AssignCommand, seat: int)
    requires SeatIsNew(db, c)
    ensures Persists(db, Seat(db, c, seat))
  {
    hide Kept, TicketsPersist, RoomsPersist, SeatRow, SeatSession, SeatedEvent, FilledEvent, AddShadowWork, Members;
    NothingPersists(db);
    KeptNew(db.assignments, c.assignmentId, c.ticketId);
    KeptNew(db.memberships, c.ticketId, SeatRow(db, c, seat));
    TicketChanges(db.tickets, c.ticketId, SeatedTicket(db, c));
    RoomChanges(db.rooms, c.roomId, SeatedRoom(db, c));
  }

  lemma AssignPersists(db: Db, c: AssignCommand, clock: Time)
    ensures Persists(db, Assign(db, c, clock).db)
  {
    hide *;
    NothingPersists(db);
    var seat := AssignSeats(db, c, clock);
    if Assign(db, c, clock).reply.Changed? {
      SeatPersists(db, c, seat);
    }
  }

  // Terminal rooms

  lemma FinalizePersists(db: Db, c: FinalizeCommand, completionEventId: Id)
    ensures Persists(db, Finalize(db, c, completionEventId).db)
  {
    hide *;
    NothingPersists(db);
    FinalizeFound(db, c, completionEventId);
    if Finalize(db, c, completionEventId).reply.Changed? {
      CompletePersists(db, c, completionEventId);
    }
  }

  lemma CompletePersists(db: Db, c: FinalizeCommand, completionEventId: Id)
    requires FoundRoom(db, c, completionEventId)
    ensures Persists(db, CompleteRoom(db, c, completionEventId))
  {
    hide Kept, TicketsPersist, RoomsPersist, FinishSessions, AddShadowWork, EventRefused, EventOf, SortBy;
    NothingPersists(db);
    KeptNew(db.results, c.eventId, c.Digest());
    RoomChanges(db.rooms, c.roomId, CompleteRoom(db, c, completionEventId).rooms[c.roomId]);
  }

  lemma ExpireRoomPersists(db: Db, roomId: Id, at: Time, eventId: Id)
    requires Due(db, roomId, at)
    ensures Persists(db, ExpireRoom(db, roomId, at, eventId))
  {
    hide Kept, TicketsPersist, RoomsPersist, ForfeitSessions, EventOf;
    NothingPersists(db);
    RoomChanges(db.rooms, roomId, ExpireRoom(db, roomId, at, eventId).rooms[roomId]);
  }

  lemma {:induction false} ExpireEachPersists(db: Db, batch: seq<RoomExpiry>, at: Time)
    requires ExpireEach(db, batch, at).Some?
    ensures Persists(db, ExpireEach(db, batch, at).value)
    decreases |batch|
  {
    hide EventRefused, ForfeitSessions, Persists, ExpireRoom, Due;
    if batch != [] {
      var next := ExpireRoom(db, batch[0].roomId, at, batch[0].eventId);
      ExpireRoomPersists(db, batch[0].roomId, at, batch[0].eventId);
      ExpireEachPersists(next, batch[1..], at);
      PersistsTransitive(db, next, ExpireEach(db, batch, at).value);
    } else {
      NothingPersists(db);
    }
  }

  lemma ExpireRoomsPersists(db: Db, batch: seq<RoomExpiry>, limit: int, at: Time)
    ensures Persists(db, ExpireDue(db, batch, limit, at))
  {
    hide Persists, ExpireEach, IsDueBatch;
    NothingPersists(db);
    if ExpireRooms(db, batch, limit, at).reply.Changed? {
      ExpireEachPersists(db, batch, at);
    }
  }

  // The queue and the outside

  lemma CreatePersists(db: Db, roomId: Id, profile: RoomProfile)
    ensures Persists(db, Create(db, roomId, profile))
  {
    hide Kept, TicketsPersist, RoomsPersist;
    NothingPersists(db);
    if Create(db, roomId, profile) != db {
      RoomChanges(db.rooms, roomId, Room(profile, Forming, 1));
    }
  }

  lemma ClaimPersists(db: Db, batch: set<Id>, limit: int, token: Id, now: Time, until: Time)
    ensures Persists(db, ClaimDue(db, batch, limit, token, now, until))
  {
    hide Kept, TicketsPersist, RoomsPersist, ClaimTickets, IsTicketBatch;
    NothingPersists(db);
    if IsTicketBatch(db.tickets, batch, limit, now) {
      ClaimedPersist(db.tickets, batch, limit, token, now, until);
    }
  }

  lemma ClaimedPersist(tickets: map<Id, Ticket>, batch: set<Id>, limit: int, token: Id, now: Time, until: Time)
    requires IsTicketBatch(tickets, batch, limit, now)
    ensures TicketsPersist(tickets, ClaimTickets(tickets, batch, token, until))
  {
  }

  lemma RetryPersists(db: Db, ticketId: Id, token: Id, retryAt: Time, clock: Time)
    ensures Persists(db, RetryTicket(db, ticketId, token, retryAt, clock).db)
  {
    hide Kept, TicketsPersist, RoomsPersist;
    NothingPersists(db);
    if RetryTicket(db, ticketId, token, retryAt, clock).reply.Changed? {
      TicketChanges(db.tickets, ticketId, db.tickets[ticketId].(nextAttemptAt := Some(retryAt), claim := None));
    }
  }

  lemma StartPersists(db: Db, sessionId: Id)
    ensures Persists(db, Start(db, sessionId))
  {
    hide Kept, TicketsPersist, RoomsPersist;
    NothingPersists(db);
  }

  lemma StepPersists(db: Db, step: Step)
    ensures Persists(db, Apply(db, step))
  {
    hide Persists, Assign, Finalize, Accept, Cancel, Expire, Create, ClaimDue, RetryTicket, Start, ExpireDue;
    match step
    case CreateRoom(roomId, profile) => CreatePersists(db, roomId, profile);
    case AcceptStep(c) => AcceptPersists(db, c);
    case CancelStep(c) => CancelPersists(db, c);
    case ExpireStep(c, clock) => ExpirePersists(db, c, clock);
    case AssignStep(c, clock) => AssignPersists(db, c, clock);
    case FinalizeStep(c, completionEventId) => FinalizePersists(db, c, completionEventId);
    case ExpireRoomsStep(batch, limit, at) => ExpireRoomsPersists(db, batch, limit, at);
    case ClaimStep(tickets, limit, token, now, until) => ClaimPersists(db, tickets, limit, token, now, until);
    case RetryStep(ticketId, token, retryAt, clock) => RetryPersists(db, ticketId, token, retryAt, clock);
    case StartSession(sessionId) => StartPersists(db, sessionId);
  }

  /** Accepted requests, recorded commands, seats, results, terminal rooms and
      tickets, and emitted events are permanent. */
  lemma {:induction false} RunPersists(db: Db, steps: seq<Step>)
    ensures Persists(db, Run(db, steps))
    decreases |steps|
  {
    hide Persists, Apply;
    if steps != [] {
      StepPersists(db, steps[0]);
      RunPersists(Apply(db, steps[0]), steps[1..]);
      PersistsTransitive(db, Apply(db, steps[0]), Run(db, steps));
    } else {
      NothingPersists(db);
    }
  }

  // ---------------------------------------------------------------------
  // Replay
  // ---------------------------------------------------------------------

  ghost predicate Accepted(reply: Reply) {
    reply.Changed? || reply.Unchanged? || reply.Replayed?
  }

  /** The entry was accepted with this request. */
  ghost predicate EntryRecorded(db: Db, profile: TicketProfile) {
    && profile.entryId in db.entries && db.entries[profile.entryId] in db.tickets
    && db.tickets[db.entries[profile.entryId]].profile == profile
  }

  ghost predicate CommandRecorded(db: Db, ticketId: Id, commandId: Id, digest: CommandDigest) {
    ticketId in db.tickets && (ticketId, commandId) in db.commands && db.commands[(ticketId, commandId)] == digest
  }

  lemma RecordsPersist(before: Db, after: Db)
    requires Persists(before, after)
    ensures forall p :: EntryRecorded(before, p) ==> EntryRecorded(after, p)
    ensures forall t, c, d :: CommandRecorded(before, t, c, d) ==> CommandRecorded(after, t, c, d)
  {
    hide RoomsPersist;
  }

  lemma AcceptRecorded(db: Db, c: AcceptCommand)
    requires Accepted(Accept(db, c).reply)
    ensures EntryRecorded(Accept(db, c).db, c.profile)
  {
    hide EventRefused;
  }

  lemma AcceptLooksUp(db: Db, profile: TicketProfile, again: AcceptCommand)
    requires EntryRecorded(db, profile) && again.Valid() && again.profile.entryId == profile.entryId
    ensures Accept(db, again) == Change(db, if again.profile == profile then Replayed else Failed(IdempotencyConflict))
  {
    hide EventRefused, AcceptCommand.Valid;
  }

  /** Once an entry was accepted, its request is a replay at every later point,
      whatever identities it is retried under, and any other request for the same
      entry is refused; neither changes anything. */
  lemma AcceptReplays(db: Db, c: AcceptCommand, steps: seq<Step>, again: AcceptCommand)
    requires Accepted(Accept(db, c).reply)
    requires again.Valid() && again.profile.entryId == c.profile.entryId
    ensures var later := Run(Accept(db, c).db, steps);
      Accept(later, again)
        == Change(later, if again.profile == c.profile then Replayed else Failed(IdempotencyConflict))
  {
    hide *;
    var first := Accept(db, c).db;
    AcceptRecorded(db, c);
    RunPersists(first, steps);
    RecordsPersist(first, Run(first, steps));
    AcceptLooksUp(Run(first, steps), c.profile, again);
  }

  lemma LeaveRecords(
    db: Db, ticketId: Id, commandId: Id, digest: CommandDigest, next: TicketStatus, eventId: Id, eventType: Id,
    at: Time)
    requires ticketId in db.tickets
    ensures CommandRecorded(
      LeaveQueue(db, ticketId, commandId, digest, next, eventId, eventType, at), ticketId, commandId, digest)
  {
    hide TicketEvent;
  }

  lemma CancelRecorded(db: Db, c: CancelCommand)
    requires Accepted(Cancel(db, c).reply)
    ensures CommandRecorded(Cancel(db, c).db, c.ticketId, c.commandId, CancelDigest)
  {
    hide EventRefused, LeaveQueue, CancelCommand.Valid;
    if Cancel(db, c).reply.Changed? {
      LeaveRecords(db, c.ticketId, c.commandId, CancelDigest, Cancelled(c.cancelledAt), c.eventId, TICKET_CANCELLED,
        c.cancelledAt);
    }
  }

  lemma ExpireRecorded(db: Db, c: ExpireCommand, clock: Time)
    requires Accepted(Expire(db, c, clock).reply)
    ensures CommandRecorded(Expire(db, c, clock).db, c.ticketId, c.commandId, ExpireDigest(c.deadline))
  {
    hide EventRefused, LeaveQueue, ExpireCommand.Valid;
    if Expire(db, c, clock).reply.Changed? {
      LeaveRecords(
        db, c.ticketId, c.commandId, ExpireDigest(c.deadline), Expired(c.expiredAt), c.eventId, TICKET_EXPIRED,
        c.expiredAt);
    }
  }

  lemma CommandsLookUp(db: Db, digest: CommandDigest, cancel: CancelCommand, expire: ExpireCommand, clock: Time)
    requires cancel.Valid() && expire.Valid() && cancel.ticketId == expire.ticketId
      && cancel.commandId == expire.commandId
    requires CommandRecorded(db, cancel.ticketId, cancel.commandId, digest)
    ensures Cancel(db, cancel) == Change(db, if digest == CancelDigest then Replayed else Failed(IdempotencyConflict))
    ensures Expire(db, expire, clock)
      == Change(db, if digest == ExpireDigest(expire.deadline) then Replayed else Failed(IdempotencyConflict))
  {
    hide EventRefused, LeaveQueue;
  }

  /** Cancelling twice is a replay; the identity cannot be used for an expiry. */
  lemma CancelReplays(
      db: Db, c: CancelCommand, steps: seq<Step>, again: CancelCommand, expire: ExpireCommand, clock: Time)
    requires Accepted(Cancel(db, c).reply)
    requires again.Valid() && again.ticketId == c.ticketId && again.commandId == c.commandId
    requires expire.Valid() && expire.ticketId == c.ticketId && expire.commandId == c.commandId
    ensures var later := Run(Cancel(db, c).db, steps);
      Cancel(later, again) == Change(later, Replayed)
        && Expire(later, expire, clock) == Change(later, Failed(IdempotencyConflict))
  {
    hide *;
    var first := Cancel(db, c).db;
    CancelRecorded(db, c);
    RunPersists(first, steps);
    RecordsPersist(first, Run(first, steps));
    CommandsLookUp(Run(first, steps), CancelDigest, again, expire, clock);
  }

  /** Expiring twice with the same deadline is a replay, also after the claim was
      lost; another deadline or a cancellation under the identity is refused. */
  lemma ExpireReplays(
      db: Db, c: ExpireCommand, clock: Time, steps: seq<Step>, again: ExpireCommand, laterClock: Time,
      cancel: CancelCommand)
    requires Accepted(Expire(db, c, clock).reply)
    requires again.Valid() && again.ticketId == c.ticketId && again.commandId == c.commandId
    requires cancel.Valid() && cancel.ticketId == c.ticketId && cancel.commandId == c.commandId
    ensures var later := Run(Expire(db, c, clock).db, steps);
      && Expire(later, again, laterClock)
        == Change(later, if again.deadline == c.deadline then Replayed else Failed(IdempotencyConflict))
      && Cancel(later, cancel) == Change(later, Failed(IdempotencyConflict))
  {
    hide *;
    var first := Expire(db, c, clock).db;
    ExpireRecorded(db, c, clock);
    RunPersists(first, steps);
    RecordsPersist(first, Run(first, steps));
    CommandsLookUp(Run(first, steps), ExpireDigest(c.deadline), cancel, again, laterClock);
  }

  /** An assignment replays by its identity, with any claim and at any time; the
      identity with another ticket, room, version or session is refused. */
  lemma AssignReplays(db: Db, c: AssignCommand, clock: Time, steps: seq<Step>, again: AssignCommand, laterClock: Time)
    requires Accepted(Assign(db, c, clock).reply)
    requires again.Valid() && again.assignmentId == c.assignmentId
    ensures var later := Run(Assign(db, c, clock).db, steps);
      Assign(later, again, laterClock)
        == Change(later, if again.Digest() == c.Digest() then Replayed else Failed(AssignmentConflict))
  {
    hide *;
    var first := Assign(db, c, clock).db;
    AssignRecorded(db, c, clock);
    RunPersists(first, steps);
    var later := Run(first, steps);
    SeatRecordPersists(first, later, c.Digest());
    DigestIdentity(c);
    AssignLooksUp(later, c.Digest(), again, laterClock);
  }

  ghost predicate SeatRecorded(db: Db, digest: AssignmentDigest) {
    && digest.assignmentId in db.assignments && db.assignments[digest.assignmentId] in db.memberships
    && db.memberships[db.assignments[digest.assignmentId]].digest == digest
  }

  lemma SeatRecordPersists(before: Db, after: Db, digest: AssignmentDigest)
    requires Persists(before, after) && SeatRecorded(before, digest)
    ensures SeatRecorded(after, digest)
  {
    hide TicketsPersist, RoomsPersist;
  }

  lemma AssignRecorded(db: Db, c: AssignCommand, clock: Time)
    requires Accepted(Assign(db, c, clock).reply)
    ensures SeatRecorded(Assign(db, c, clock).db, c.Digest())
  {
    hide *;
    var seat := AssignSeats(db, c, clock);
    if Assign(db, c, clock).reply.Changed? {
      SeatRecords(db, c, seat);
    } else {
      ReplayRecords(db, c, clock);
    }
  }

  lemma SeatRecords(db: Db, c: AssignCommand, seat: int)
    requires SeatIsNew(db, c)
    ensures SeatRecorded(Seat(db, c, seat), c.Digest())
  {
    hide SeatedTicket, SeatedRoom, SeatSession, SeatedEvent, FilledEvent, AddShadowWork, Fills;
  }

  lemma ReplayRecords(db: Db, c: AssignCommand, clock: Time)
    requires Accepted(Assign(db, c, clock).reply) && !Assign(db, c, clock).reply.Changed?
    ensures SeatRecorded(db, c.Digest())
  {
    hide LeastFree, PlayerSeated, EventRefused, Members, Seats, Seat, AssignCommand.Valid;
  }

  lemma DigestIdentity(c: AssignCommand)
    ensures c.Digest().assignmentId == c.assignmentId
  {
  }

  lemma AssignLooksUp(db: Db, digest: AssignmentDigest, c: AssignCommand, clock: Time)
    requires SeatRecorded(db, digest) && c.Valid() && c.assignmentId == digest.assignmentId
    ensures Assign(db, c, clock) == Change(db, if c.Digest() == digest then Replayed else Failed(AssignmentConflict))
  {
    hide LeastFree, PlayerSeated, EventRefused, Members, Seats, Seat, AssignCommand.Valid, AssignCommand.Digest;
  }

  /** A result replays by its event identity, with its participants in any order
      and accepted at any time; anything else under that identity, and any other
      result for the room, is refused. */
  lemma FinalizeReplays(
    db: Db, c: FinalizeCommand, completionEventId: Id, steps: seq<Step>, again: FinalizeCommand, otherEventId: Id)
    requires Inv(db) && Accepted(Finalize(db, c, completionEventId).reply)
    requires again.Valid() && (again.eventId == c.eventId || again.roomId == c.roomId)
    ensures var later := Run(Finalize(db, c, completionEventId).db, steps);
      Finalize(later, again, otherEventId)
        == Change(later, if again.Digest() == c.Digest() then Replayed else Failed(ResultConflict))
  {
    hide *;
    FinalizeKeepsInv(db, c, completionEventId);
    FinalizeRecorded(db, c, completionEventId);
    var first := Finalize(db, c, completionEventId).db;
    RunKeepsInv(first, steps);
    RunPersists(first, steps);
    var later := Run(first, steps);
    ResultRecordPersists(first, later, c.Digest());
    FinalizeLooksUp(later, c, again, otherEventId);
  }

  ghost predicate ResultRecorded(db: Db, digest: ResultDigest) {
    digest.eventId in db.results && db.results[digest.eventId] == digest
  }

  lemma ResultRecordPersists(before: Db, after: Db, digest: ResultDigest)
    requires Persists(before, after) && ResultRecorded(before, digest)
    ensures ResultRecorded(after, digest)
  {
    hide TicketsPersist, RoomsPersist;
  }

  lemma FinalizeRecorded(db: Db, c: FinalizeCommand, completionEventId: Id)
    requires Inv(db) && Accepted(Finalize(db, c, completionEventId).reply)
    ensures ResultRecorded(Finalize(db, c, completionEventId).db, c.Digest())
  {
    hide *;
    FinalizeFound(db, c, completionEventId);
    if Finalize(db, c, completionEventId).reply.Changed? {
      CompletionRecorded(db, c, completionEventId);
    } else {
      ReplayRecorded(db, c, completionEventId);
    }
  }

  lemma CompletionRecorded(db: Db, c: FinalizeCommand, completionEventId: Id)
    requires FoundRoom(db, c, completionEventId)
    ensures ResultRecorded(CompleteRoom(db, c, completionEventId), c.Digest())
  {
    hide FinishSessions, AddShadowWork, SortBy, EventOf, EventRefused;
  }

  lemma ReplayRecorded(db: Db, c: FinalizeCommand, completionEventId: Id)
    requires Inv(db)
    requires Accepted(Finalize(db, c, completionEventId).reply) && !Finalize(db, c, completionEventId).reply.Changed?
    ensures ResultRecorded(db, c.Digest())
  {
    hide ParticipantsMatch, EventRefused, CompleteRoom, SortBy, FinalizeCommand.Valid;
    hide TicketsOk, SeatedOk, SessionsOk, AssignmentsOk, RoomsOk, TerminalOk, ShadowOk, ConfigsValid, OutboxOk,
      PartitionOk;
  }

  lemma FinalizeLooksUp(db: Db, c: FinalizeCommand, again: FinalizeCommand, otherEventId: Id)
    requires Inv(db) && again.Valid() && (again.eventId == c.eventId || again.roomId == c.roomId)
    requires ResultRecorded(db, c.Digest())
    ensures Finalize(db, again, otherEventId)
      == Change(db, if again.Digest() == c.Digest() then Replayed else Failed(ResultConflict))
  {
    hide ParticipantsMatch, EventRefused, CompleteRoom, FinalizeCommand.Valid, SortBy;
    hide TicketsOk, SeatedOk, SessionsOk, AssignmentsOk, TerminalOk, ShadowOk, ConfigsValid, OutboxOk, PartitionOk,
      RoomOk;
  }

  /** The order of the participants is not part of a result's identity. */
  lemma ParticipantOrderIrrelevant(c: FinalizeCommand, participants: seq<VerifiedParticipant>)
    requires c.Valid() && c.(participants := participants).Valid() && SameElements(c.participants, participants)
    ensures c.(participants := participants).Digest() == c.Digest()
  {
    PlayersDistinct(c);
    PlayersDistinct(c.(participants := participants));
    OrderIrrelevant(ByVerifiedPlayer, c.participants, participants);
  }

  lemma PlayersDistinct(c: FinalizeCommand)
    requires c.Valid()
    ensures DistinctBy(ByVerifiedPlayer, c.participants)
  {
    var ps := c.MatchResult().participants;
    forall i, j | 0 <= i < j < |c.participants|
      ensures ByVerifiedPlayer(c.participants[i]) != ByVerifiedPlayer(c.participants[j])
    {
      assert ps[i].playerId != ps[j].playerId;
    }
  }

  // ---------------------------------------------------------------------
  // Delivery
  // ---------------------------------------------------------------------

  /** The rows of the outbox queue hold exactly the first `k` emitted events. */
  ghost predicate HoldsFirst(rows: Table, outbox: seq<Event>, k: nat)
    requires k <= |outbox|
  {
    && (forall i :: 0 <= i < k ==> outbox[i].eventId in rows && rows[outbox[i].eventId].event == outbox[i])
    && (forall id :: id in rows ==> exists i :: 0 <= i < k && outbox[i] == rows[id].event && outbox[i].eventId == id)
  }

  /** The lifecycle meets the outbox's condition on its producers: in every
      reachable state, whatever the workers did with the events emitted so far,
      the next emitted event is valid, new, and above its aggregate's others. */
  lemma LifecycleFeedsOutbox(configs: Configs, steps: seq<Step>, w: OutboxRuns.World, k: nat)
    requires ConfigsValid(configs)
    requires k < |Run(Empty(configs), steps).outbox|
    requires HoldsFirst(w.rows, Run(Empty(configs), steps).outbox, k)
    ensures var e := Run(Empty(configs), steps).outbox[k];
      OutboxRuns.Enabled(w, OutboxRuns.Append(e, e.occurredAt))
  {
    hide *;
    EmptyIsInv(configs);
    RunKeepsInv(Empty(configs), steps);
    NextAppendEnabled(Run(Empty(configs), steps), w, k);
  }

  lemma NextAppendEnabled(db: Db, w: OutboxRuns.World, k: nat)
    requires Inv(db) && k < |db.outbox| && HoldsFirst(w.rows, db.outbox, k)
    ensures OutboxRuns.Enabled(w, OutboxRuns.Append(db.outbox[k], db.outbox[k].occurredAt))
  {
    hide TicketsOk, SeatedOk, SessionsOk, AssignmentsOk, RoomsOk, ResultsOk, TerminalOk, ShadowOk, ConfigsValid,
      PartitionOk;
    var e := db.outbox[k];
    forall id | id in w.rows && w.rows[id].event.SameAggregate(e) ensures w.rows[id].event.version < e.version {
      var i :| 0 <= i < k && db.outbox[i] == w.rows[id].event;
    }
    forall id | id in w.rows ensures id != e.eventId {
      var i :| 0 <= i < k && db.outbox[i] == w.rows[id].event && db.outbox[i].eventId == id;
    }
  }
}

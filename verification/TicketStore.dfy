/** Ticket transactions: acceptance, cancellation, expiry and assignment. */
module TicketStore {
  import opened Common
  import opened Outbox
  import opened Database

  function EventOf(eventId: Id, aggregateType: Id, aggregateId: Id, version: int, eventType: Id, at: Time): Event {
    Event(eventId, aggregateType, aggregateId, version, eventType, 0, at)
  }

  function TicketEvent(eventId: Id, ticketId: Id, ticket: Ticket, eventType: Id, at: Time): Event {
    EventOf(eventId, AGGREGATE_TICKET, ticketId, ticket.version, eventType, at)
  }

  /** A ticket leaves the queue, with its command and its event. */
  function LeaveQueue(
    db: Db, ticketId: Id, commandId: Id, digest: CommandDigest, next: TicketStatus, eventId: Id, eventType: Id,
    at: Time): Db
    requires ticketId in db.tickets
  {
    var ticket := db.tickets[ticketId].Left(next);
    db.(tickets := db.tickets[ticketId := ticket],
        commands := db.commands[(ticketId, commandId) := digest],
        outbox := db.outbox + [TicketEvent(eventId, ticketId, ticket, eventType, at)])
  }

  // ---------------------------------------------------------------------
  // Acceptance
  // ---------------------------------------------------------------------

  predicate Configured(db: Db, profile: TicketProfile) {
    var key := (profile.tournamentId, profile.tournamentVersion);
    key in db.configs && db.configs[key].policy.ratingModelVersion == profile.rating.modelVersion
  }

  function NewTicket(profile: TicketProfile): Ticket {
    Ticket(profile, Queued, 1, Some(profile.requestedAt), None, 0)
  }

  function Accept(db: Db, c: AcceptCommand): Change {
    if !c.Valid() then Fail(db, InvalidCommand)
    else if c.ticketId in db.tickets || c.profile.entryId in db.entries then
      if c.profile.entryId in db.entries && db.entries[c.profile.entryId] in db.tickets
         && db.tickets[db.entries[c.profile.entryId]].profile == c.profile
      then Change(db, Replayed)
      else Fail(db, IdempotencyConflict)
    else if !Configured(db, c.profile) then Fail(db, TournamentNotFound)
    else if EventRefused(db.outbox, c.eventId) then Fail(db, IdempotencyConflict)
    else
      var ticket := NewTicket(c.profile);
      Change(
        db.(tickets := db.tickets[c.ticketId := ticket],
            entries := db.entries[c.profile.entryId := c.ticketId],
            outbox := db.outbox + [TicketEvent(c.eventId, c.ticketId, ticket, TICKET_ACCEPTED, c.profile.requestedAt)]),
        Changed)
  }

  // ---------------------------------------------------------------------
  // Cancellation and expiry
  // ---------------------------------------------------------------------

  function Cancel(db: Db, c: CancelCommand): Change {
    if !c.Valid() then Fail(db, InvalidCommand)
    else if c.ticketId !in db.tickets then Fail(db, TicketNotFound)
    else if (c.ticketId, c.commandId) in db.commands then
      if db.commands[(c.ticketId, c.commandId)] == CancelDigest then Change(db, Replayed)
      else Fail(db, IdempotencyConflict)
    else
      match db.tickets[c.ticketId].status
      case Queued =>
        if EventRefused(db.outbox, c.eventId) then Fail(db, IdempotencyConflict)
        else
          Change(
            LeaveQueue(db, c.ticketId, c.commandId, CancelDigest, Cancelled(c.cancelledAt), c.eventId,
            TICKET_CANCELLED, c.cancelledAt),
            Changed)
      case Cancelled(_) =>
        Change(db.(commands := db.commands[(c.ticketId, c.commandId) := CancelDigest]), Unchanged)
      case _ => Fail(db, TicketNotQueued)
  }

  function Expire(db: Db, c: ExpireCommand, clock: Time): Change {
    if !c.Valid() then Fail(db, InvalidCommand)
    else if c.ticketId !in db.tickets then Fail(db, TicketNotFound)
    else if (c.ticketId, c.commandId) in db.commands then
      if db.commands[(c.ticketId, c.commandId)] == ExpireDigest(c.deadline) then Change(db, Replayed)
      else Fail(db, IdempotencyConflict)
    else if !db.tickets[c.ticketId].status.Queued? then Fail(db, TicketNotQueued)
    else if !db.tickets[c.ticketId].OwnedBy(c.claimToken, clock) then Fail(db, TicketClaimLost)
    else if EventRefused(db.outbox, c.eventId) then Fail(db, IdempotencyConflict)
    else
      Change(
        LeaveQueue(
          db, c.ticketId, c.commandId, ExpireDigest(c.deadline), Expired(c.expiredAt), c.eventId, TICKET_EXPIRED,
          c.expiredAt),
        Changed)
  }

  // ---------------------------------------------------------------------
  // Assignment
  // ---------------------------------------------------------------------

  /** The first free seat of `from..capacity`. */
  function LeastFree(taken: set<int>, from: int, capacity: int): (seat: Option<int>)
    ensures seat.Some? ==> from <= seat.value <= capacity && seat.value !in taken
    ensures seat.Some? ==> forall s :: from <= s < seat.value ==> s in taken
    ensures seat.None? ==> forall s :: from <= s <= capacity ==> s in taken
    decreases capacity - from + 1
  {
    if from > capacity then None
    else if from !in taken then Some(from)
    else LeastFree(taken, from + 1, capacity)
  }

  /** The room checks that come before the seat: everything but the last two are
      read from the locked room row. */
  predicate RoomAvailable(db: Db, c: AssignCommand, ticket: Ticket) {
    && c.roomId in db.rooms
    && var room := db.rooms[c.roomId];
    && ConfigOf(db, room.profile).Some?
    && var config := ConfigOf(db, room.profile).value;
    && room.status.Forming?
    && room.version == c.expectedRoomVersion
    && c.assignedAt <= room.profile.fillDeadline
    && room.profile.tournamentId == ticket.profile.tournamentId
    && room.profile.tournamentVersion == ticket.profile.tournamentVersion
    && config.policy.ratingModelVersion == ticket.profile.rating.modelVersion
    && |Members(db.memberships, c.roomId)| < config.capacity
    && !PlayerSeated(db.memberships, c.roomId, ticket.profile.playerId)
  }

  predicate Seatable(db: Db, c: AssignCommand) {
    c.ticketId in db.tickets && c.roomId in db.rooms && ConfigOf(db, db.rooms[c.roomId].profile).Some?
  }

  function RoomConfig(db: Db, c: AssignCommand): TournamentConfig
    requires Seatable(db, c)
  {
    ConfigOf(db, db.rooms[c.roomId].profile).value
  }

  /** The room has its last member with this one. */
  predicate Fills(db: Db, c: AssignCommand)
    requires Seatable(db, c)
  {
    |Members(db.memberships, c.roomId)| + 1 == RoomConfig(db, c).capacity
  }

  function SeatedTicket(db: Db, c: AssignCommand): Ticket
    requires Seatable(db, c)
  {
    db.tickets[c.ticketId].Left(Assigned(c.assignedAt))
  }

  function SeatedRoom(db: Db, c: AssignCommand): Room
    requires Seatable(db, c)
  {
    db.rooms[c.roomId].(
      status := if Fills(db, c) then Collecting(c.assignedAt, c.assignedAt + RoomConfig(db, c).resultTimeout)
      else Forming,
      version := db.rooms[c.roomId].version + 1)
  }

  function SeatRow(db: Db, c: AssignCommand, seat: int): Membership
    requires Seatable(db, c)
  {
    Membership(
      c.roomId, db.tickets[c.ticketId].profile.playerId, seat, c.assignedAt, c.Digest(),
      SeatedTicket(db, c).version, SeatedRoom(db, c).version,
      if Fills(db, c) then Some(c.assignedAt + RoomConfig(db, c).resultTimeout) else None)
  }

  function SeatSession(db: Db, c: AssignCommand, seat: int): Session
    requires Seatable(db, c)
  {
    Session(c.ticketId, c.roomId, db.tickets[c.ticketId].profile.playerId, seat, c.assignedAt, Allocated)
  }

  function SeatedEvent(db: Db, c: AssignCommand): Event
    requires Seatable(db, c)
  {
    TicketEvent(c.ticketEventId, c.ticketId, SeatedTicket(db, c), TICKET_ASSIGNED, c.assignedAt)
  }

  function FilledEvent(db: Db, c: AssignCommand): Event
    requires Seatable(db, c)
  {
    EventOf(c.roomFilledEventId, AGGREGATE_ROOM, c.roomId, SeatedRoom(db, c).version, ROOM_FILLED, c.assignedAt)
  }

  /** All rows of one seated ticket. */
  function Seat(db: Db, c: AssignCommand, seat: int): Db
    requires Seatable(db, c)
  {
    db.(tickets := db.tickets[c.ticketId := SeatedTicket(db, c)],
        rooms := db.rooms[c.roomId := SeatedRoom(db, c)],
        memberships := db.memberships[c.ticketId := SeatRow(db, c, seat)],
        assignments := db.assignments[c.assignmentId := c.ticketId],
        sessions := db.sessions[c.sessionId := SeatSession(db, c, seat)],
        ticketSessions := db.ticketSessions[c.ticketId := c.sessionId],
        outbox := db.outbox + if Fills(db, c) then [SeatedEvent(db, c), FilledEvent(db, c)] else [SeatedEvent(db, c)],
        shadow := if Fills(db, c) then
        AddShadowWork(db.shadow, ShadowKey(RoomWork, c.roomId), ShadowItem(c.assignedAt, 0))
                  else db.shadow)
  }

  function AddShadowWork(
      shadow: map<ShadowKey, ShadowItem>, key: ShadowKey, item: ShadowItem): map<ShadowKey, ShadowItem> {
    if key in shadow then shadow else shadow[key := item]
  }

  /** Unique and check constraints that only the inserts notice. */
  predicate AssignmentCollides(db: Db, c: AssignCommand, filled: bool) {
    || c.ticketId in db.memberships
    || c.ticketId in db.ticketSessions
    || c.sessionId in db.sessions
    || EventRefused(db.outbox, c.ticketEventId)
    || (filled && (c.ticketEventId == c.roomFilledEventId || EventRefused(db.outbox, c.roomFilledEventId)))
  }

  function Assign(db: Db, c: AssignCommand, clock: Time): Change {
    if !c.Valid() then Fail(db, InvalidCommand)
    else if c.assignmentId in db.assignments then
      if db.assignments[c.assignmentId] in db.memberships
         && db.memberships[db.assignments[c.assignmentId]].digest == c.Digest()
      then Change(db, Replayed)
      else Fail(db, AssignmentConflict)
    else if c.ticketId !in db.tickets then Fail(db, TicketNotFound)
    else
      var ticket := db.tickets[c.ticketId];
      if ticket.status.Assigned? then Fail(db, AssignmentConflict)
      else if !ticket.status.Queued? then Fail(db, TicketNotQueued)
      else if c.assignedAt < ticket.profile.requestedAt then Fail(db, InvalidCommand)
      else if c.claimToken != 0 && !ticket.OwnedBy(c.claimToken, clock) then Fail(db, TicketClaimLost)
      else if !RoomAvailable(db, c, ticket) then Fail(db, RoomNotAvailable)
      else
        var room := db.rooms[c.roomId];
        var config := ConfigOf(db, room.profile).value;
        var seat := LeastFree(Seats(db.memberships, c.roomId), 1, config.capacity);
        var filled := Fills(db, c);
        if seat.None? then Fail(db, RoomNotAvailable)
        else if filled && c.assignedAt < room.profile.createdAt then Fail(db, ConstraintFailed)
        else if AssignmentCollides(db, c, filled) then Fail(db, AssignmentConflict)
        else Change(Seat(db, c, seat.value), Changed)
  }

  // ---------------------------------------------------------------------
  // The store
  // ---------------------------------------------------------------------

  class TicketStore {
    var db: Db

    constructor (tables: Db)
      ensures db == tables
    {
      db := tables;
    }

    method AcceptTicket(c: AcceptCommand) returns (reply: Reply)
      modifies this
      ensures Change(db, reply) == Accept(old(db), c)
    {
      if !c.Valid() {
        return Failed(InvalidCommand);
      }
      if c.ticketId in db.tickets || c.profile.entryId in db.entries {
        if c.profile.entryId !in db.entries || db.entries[c.profile.entryId] !in db.tickets {
          return Failed(IdempotencyConflict);
        }
        var stored := db.tickets[db.entries[c.profile.entryId]];
        if stored.profile != c.profile {
          return Failed(IdempotencyConflict);
        }
        return Replayed;
      }
      if !Configured(db, c.profile) {
        return Failed(TournamentNotFound);
      }
      var tx := db;
      var ticket := NewTicket(c.profile);
      tx := tx.(tickets := tx.tickets[c.ticketId := ticket], entries := tx.entries[c.profile.entryId := c.ticketId]);
      if EventRefused(tx.outbox, c.eventId) {
        return Failed(IdempotencyConflict);
      }
      tx := tx.(outbox := tx.outbox
        + [TicketEvent(c.eventId, c.ticketId, ticket, TICKET_ACCEPTED, c.profile.requestedAt)]);
      db := tx;
      reply := Changed;
    }

    method CancelTicket(c: CancelCommand) returns (reply: Reply)
      modifies this
      ensures Change(db, reply) == Cancel(old(db), c)
    {
      if !c.Valid() {
        return Failed(InvalidCommand);
      }
      if c.ticketId !in db.tickets {
        return Failed(TicketNotFound);
      }
      if (c.ticketId, c.commandId) in db.commands {
        if db.commands[(c.ticketId, c.commandId)] != CancelDigest {
          return Failed(IdempotencyConflict);
        }
        return Replayed;
      }
      var tx := db;
      var ticket := tx.tickets[c.ticketId];
      var changed := false;
      match ticket.status {
        case Queued =>
          ticket := ticket.Left(Cancelled(c.cancelledAt));
          tx := tx.(tickets := tx.tickets[c.ticketId := ticket]);
          changed := true;
        case Cancelled(_) =>
        case Assigned(_) => return Failed(TicketNotQueued);
        case Expired(_) => return Failed(TicketNotQueued);
      }
      tx := tx.(commands := tx.commands[(c.ticketId, c.commandId) := CancelDigest]);
      if changed {
        if EventRefused(tx.outbox, c.eventId) {
          return Failed(IdempotencyConflict);
        }
        tx := tx.(outbox := tx.outbox + [TicketEvent(c.eventId, c.ticketId, ticket, TICKET_CANCELLED, c.cancelledAt)]);
      }
      db := tx;
      reply := if changed then Changed else Unchanged;
    }

    method ExpireTicket(c: ExpireCommand, clock: Time) returns (reply: Reply)
      modifies this
      ensures Change(db, reply) == Expire(old(db), c, clock)
    {
      if !c.Valid() {
        return Failed(InvalidCommand);
      }
      if c.ticketId !in db.tickets {
        return Failed(TicketNotFound);
      }
      if (c.ticketId, c.commandId) in db.commands {
        if db.commands[(c.ticketId, c.commandId)] != ExpireDigest(c.deadline) {
          return Failed(IdempotencyConflict);
        }
        return Replayed;
      }
      var tx := db;
      var ticket := tx.tickets[c.ticketId];
      if !ticket.status.Queued? {
        return Failed(TicketNotQueued);
      }
      if !ticket.OwnedBy(c.claimToken, clock) {
        return Failed(TicketClaimLost);
      }
      ticket := ticket.Left(Expired(c.expiredAt));
      tx := tx.(tickets := tx.tickets[c.ticketId := ticket]);
      tx := tx.(commands := tx.commands[(c.ticketId, c.commandId) := ExpireDigest(c.deadline)]);
      if EventRefused(tx.outbox, c.eventId) {
        return Failed(IdempotencyConflict);
      }
      tx := tx.(outbox := tx.outbox + [TicketEvent(c.eventId, c.ticketId, ticket, TICKET_EXPIRED, c.expiredAt)]);
      db := tx;
      reply := Changed;
    }

    method AssignTicket(c: AssignCommand, clock: Time) returns (reply: Reply)
      modifies this
      ensures Change(db, reply) == Assign(old(db), c, clock)
    {
      hide LeastFree, PlayerSeated, EventRefused, Members, Seats, TicketEvent, EventOf, AddShadowWork,
           AssignmentCollides;
      if !c.Valid() {
        return Failed(InvalidCommand);
      }
      if c.assignmentId in db.assignments {
        if db.assignments[c.assignmentId] !in db.memberships
           || db.memberships[db.assignments[c.assignmentId]].digest != c.Digest() {
          return Failed(AssignmentConflict);
        }
        return Replayed;
      }
      if c.ticketId !in db.tickets {
        return Failed(TicketNotFound);
      }
      var tx := db;
      var ticket := tx.tickets[c.ticketId];
      if !ticket.status.Queued? {
        return Failed(if ticket.status.Assigned? then AssignmentConflict else TicketNotQueued);
      }
      if c.assignedAt < ticket.profile.requestedAt {
        return Failed(InvalidCommand);
      }
      if c.claimToken != 0 && !ticket.OwnedBy(c.claimToken, clock) {
        return Failed(TicketClaimLost);
      }
      if !RoomAvailable(tx, c, ticket) {
        return Failed(RoomNotAvailable);
      }
      var room := tx.rooms[c.roomId];
      var config := ConfigOf(tx, room.profile).value;
      var members := |Members(tx.memberships, c.roomId)|;
      var seat := LeastFree(Seats(tx.memberships, c.roomId), 1, config.capacity);
      if seat.None? {
        return Failed(RoomNotAvailable);
      }
      var filled := members + 1 == config.capacity;
      if filled && c.assignedAt < room.profile.createdAt {
        return Failed(ConstraintFailed);
      }
      if AssignmentCollides(tx, c, filled) {
        return Failed(AssignmentConflict);
      }
      ticket := ticket.Left(Assigned(c.assignedAt));
      tx := tx.(tickets := tx.tickets[c.ticketId := ticket]);
      room := room.(version := room.version + 1);
      var resultDeadline := None;
      if filled {
        resultDeadline := Some(c.assignedAt + config.resultTimeout);
        room := room.(status := Collecting(c.assignedAt, resultDeadline.value));
      }
      tx := tx.(rooms := tx.rooms[c.roomId := room]);
      var row := Membership(
        c.roomId, ticket.profile.playerId, seat.value, c.assignedAt, c.Digest(), ticket.version, room.version,
        resultDeadline);
      tx := tx.(memberships := tx.memberships[c.ticketId := row],
        assignments := tx.assignments[c.assignmentId := c.ticketId]);
      var session := Session(c.ticketId, c.roomId, ticket.profile.playerId, seat.value, c.assignedAt, Allocated);
      tx := tx.(sessions := tx.sessions[c.sessionId := session],
                ticketSessions := tx.ticketSessions[c.ticketId := c.sessionId]);
      var events := [TicketEvent(c.ticketEventId, c.ticketId, ticket, TICKET_ASSIGNED, c.assignedAt)];
      if filled {
        events := events + [EventOf(c.roomFilledEventId, AGGREGATE_ROOM, c.roomId, room.version, ROOM_FILLED,
          c.assignedAt)];
        tx := tx.(shadow := AddShadowWork(tx.shadow, ShadowKey(RoomWork, c.roomId), ShadowItem(c.assignedAt, 0)));
      }
      tx := tx.(outbox := tx.outbox + events);
      db := tx;
      reply := Changed;
    }
  }
}

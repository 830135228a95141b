/** Every step keeps the lifecycle invariant. */
module LifecycleInvariant {
  import opened Common
  import opened Outbox
  import opened Database
  import opened TicketStore
  import opened MatchmakingQueue
  import opened Lifecycle

  // ---------------------------------------------------------------------
  // Outbox
  // ---------------------------------------------------------------------

  /** Aggregates stay, and their versions never decrease. */
  ghost predicate VersionsGrow(
    tickets: map<Id, Ticket>, rooms: map<Id, Room>, newTickets: map<Id, Ticket>, newRooms: map<Id, Room>)
  {
    && (forall t :: t in tickets ==> t in newTickets && tickets[t].version <= newTickets[t].version)
    && (forall r :: r in rooms ==> r in newRooms && rooms[r].version <= newRooms[r].version)
  }

  lemma OutboxStays(
    tickets: map<Id, Ticket>, rooms: map<Id, Room>, newTickets: map<Id, Ticket>, newRooms: map<Id, Room>,
    outbox: seq<Event>)
    requires OutboxOk(tickets, rooms, outbox) && VersionsGrow(tickets, rooms, newTickets, newRooms)
    ensures OutboxOk(newTickets, newRooms, outbox)
  {
  }

  /** The new event carries the aggregate's new version, which is above the old. */
  lemma OutboxGrows(
    tickets: map<Id, Ticket>, rooms: map<Id, Room>, newTickets: map<Id, Ticket>, newRooms: map<Id, Room>,
    outbox: seq<Event>, e: Event)
    requires OutboxOk(tickets, rooms, outbox) && VersionsGrow(tickets, rooms, newTickets, newRooms)
    requires !EventRefused(outbox, e.eventId) && e.aggregateId != 0 && e.eventType != 0 && e.occurredAt != 0
    requires CurrentVersion(tickets, rooms, e) < e.version == CurrentVersion(newTickets, newRooms, e)
    ensures OutboxOk(newTickets, newRooms, outbox + [e])
  {
    OutboxStays(tickets, rooms, newTickets, newRooms, outbox);
    forall i | 0 <= i < |outbox|
      ensures outbox[i].eventId != e.eventId
      ensures outbox[i].SameAggregate(e) ==> outbox[i].version < e.version
    {
      assert outbox[i] in outbox;
    }
  }

  // ---------------------------------------------------------------------
  // Tickets
  // ---------------------------------------------------------------------

  ghost predicate ProfilesKept(tickets: map<Id, Ticket>, newTickets: map<Id, Ticket>) {
    forall t :: t in tickets ==> t in newTickets && newTickets[t].profile == tickets[t].profile
  }

  lemma PartitionStays(
    configs: Configs, tickets: map<Id, Ticket>, newTickets: map<Id, Ticket>, rooms: map<Id, Room>,
    memberships: map<Id, Membership>)
    requires PartitionOk(configs, tickets, rooms, memberships) && ProfilesKept(tickets, newTickets)
    requires SeatedOk(tickets, memberships)
    ensures PartitionOk(configs, newTickets, rooms, memberships)
  {
  }

  lemma AcceptTables(tickets: map<Id, Ticket>, entries: map<Id, Id>, memberships: map<Id, Membership>, c: AcceptCommand)
    requires TicketsOk(tickets, entries) && SeatedOk(tickets, memberships)
    requires c.Valid() && c.ticketId !in tickets && c.profile.entryId !in entries
    ensures TicketsOk(tickets[c.ticketId := NewTicket(c.profile)], entries[c.profile.entryId := c.ticketId])
    ensures SeatedOk(tickets[c.ticketId := NewTicket(c.profile)], memberships)
  {
  }

  lemma AcceptKeepsInv(db: Db, c: AcceptCommand)
    requires Inv(db)
    ensures Inv(Accept(db, c).db)
  {
    hide RoomsOk, SessionsOk, AssignmentsOk, ResultsOk, TerminalOk, ShadowOk, ConfigsValid, OutboxOk, PartitionOk,
      TicketsOk, SeatedOk;
    if Accept(db, c).reply.Changed? {
      AcceptTables(db.tickets, db.entries, db.memberships, c);
      NewTicketFits(db, c);
    }
  }

  lemma NewTicketFits(db: Db, c: AcceptCommand)
    requires Inv(db) && Accept(db, c).reply.Changed?
    ensures var after := Accept(db, c).db;
      OutboxOk(after.tickets, after.rooms, after.outbox)
        && PartitionOk(after.configs, after.tickets, after.rooms, after.memberships)
  {
    hide RoomsOk, SessionsOk, AssignmentsOk, ResultsOk, TerminalOk, ShadowOk, OutboxOk, PartitionOk, EventRefused;
    var ticket := NewTicket(c.profile);
    var e := TicketEvent(c.eventId, c.ticketId, ticket, TICKET_ACCEPTED, c.profile.requestedAt);
    var tickets := db.tickets[c.ticketId := ticket];
    OutboxGrows(db.tickets, db.rooms, tickets, db.rooms, db.outbox, e);
    PartitionStays(db.configs, db.tickets, tickets, db.rooms, db.memberships);
  }

  lemma LeaveTables(
    tickets: map<Id, Ticket>, entries: map<Id, Id>, memberships: map<Id, Membership>, ticketId: Id, next: TicketStatus)
    requires TicketsOk(tickets, entries) && SeatedOk(tickets, memberships)
    requires ticketId in tickets && tickets[ticketId].status.Queued? && (next.Cancelled? || next.Expired?)
    ensures TicketsOk(tickets[ticketId := tickets[ticketId].Left(next)], entries)
    ensures SeatedOk(tickets[ticketId := tickets[ticketId].Left(next)], memberships)
  {
  }

  lemma LeaveKeepsInv(
    db: Db, ticketId: Id, commandId: Id, digest: CommandDigest, next: TicketStatus, eventId: Id, eventType: Id,
    at: Time)
    requires Inv(db) && ticketId in db.tickets && db.tickets[ticketId].status.Queued?
      && (next.Cancelled? || next.Expired?)
    requires !EventRefused(db.outbox, eventId) && eventType != 0 && at != 0
    ensures Inv(LeaveQueue(db, ticketId, commandId, digest, next, eventId, eventType, at))
  {
    hide RoomsOk, SessionsOk, AssignmentsOk, ResultsOk, TerminalOk, ShadowOk, ConfigsValid, OutboxOk, PartitionOk,
      SeatedOk, EventRefused;
    LeaveTables(db.tickets, db.entries, db.memberships, ticketId, next);
    var ticket := db.tickets[ticketId].Left(next);
    var tickets := db.tickets[ticketId := ticket];
    OutboxGrows(
      db.tickets, db.rooms, tickets, db.rooms, db.outbox, TicketEvent(eventId, ticketId, ticket, eventType, at));
    PartitionStays(db.configs, db.tickets, tickets, db.rooms, db.memberships);
  }

  lemma CancelKeepsInv(db: Db, c: CancelCommand)
    requires Inv(db)
    ensures Inv(Cancel(db, c).db)
  {
    hide RoomsOk, SessionsOk, AssignmentsOk, ResultsOk, TerminalOk, ShadowOk, ConfigsValid, OutboxOk, PartitionOk,
      SeatedOk, TicketsOk;
    if Cancel(db, c).reply.Changed? {
      hide LeaveQueue;
      LeaveKeepsInv(db, c.ticketId, c.commandId, CancelDigest, Cancelled(c.cancelledAt), c.eventId, TICKET_CANCELLED,
        c.cancelledAt);
    }
  }

  lemma ExpireKeepsInv(db: Db, c: ExpireCommand, clock: Time)
    requires Inv(db)
    ensures Inv(Expire(db, c, clock).db)
  {
    hide Inv, LeaveQueue, EventRefused;
    if Expire(db, c, clock).reply.Changed? {
      LeaveKeepsInv(
        db, c.ticketId, c.commandId, ExpireDigest(c.deadline), Expired(c.expiredAt), c.eventId, TICKET_EXPIRED,
        c.expiredAt);
    }
  }

  /** Claims and retries change schedules only. */
  ghost predicate Rescheduled(tickets: map<Id, Ticket>, newTickets: map<Id, Ticket>) {
    && newTickets.Keys == tickets.Keys
    && forall t :: t in tickets ==>
      && newTickets[t].profile == tickets[t].profile && newTickets[t].status == tickets[t].status
      && newTickets[t].version == tickets[t].version
      && (newTickets[t].nextAttemptAt.Some? <==> tickets[t].nextAttemptAt.Some?)
      && (newTickets[t].claim.Some? ==> tickets[t].status.Queued?)
  }

  lemma RescheduledKeepsInv(db: Db, tickets: map<Id, Ticket>)
    requires Inv(db) && Rescheduled(db.tickets, tickets)
    ensures Inv(db.(tickets := tickets))
  {
    hide RoomsOk, SessionsOk, AssignmentsOk, ResultsOk, TerminalOk, ShadowOk, ConfigsValid, OutboxOk, PartitionOk;
    OutboxStays(db.tickets, db.rooms, tickets, db.rooms, db.outbox);
    PartitionStays(db.configs, db.tickets, tickets, db.rooms, db.memberships);
  }

  lemma ClaimKeepsInv(db: Db, batch: set<Id>, limit: int, token: Id, now: Time, until: Time)
    requires Inv(db)
    ensures Inv(ClaimDue(db, batch, limit, token, now, until))
  {
    if IsTicketBatch(db.tickets, batch, limit, now) {
      var tickets := ClaimTickets(db.tickets, batch, token, until);
      assert Rescheduled(db.tickets, tickets) by {
        hide RoomsOk, SessionsOk, AssignmentsOk, ResultsOk, TerminalOk, ShadowOk, ConfigsValid, OutboxOk, PartitionOk,
          SeatedOk;
      }
      RescheduledKeepsInv(db, tickets);
    }
  }

  lemma RetryKeepsInv(db: Db, ticketId: Id, token: Id, retryAt: Time, clock: Time)
    requires Inv(db)
    ensures Inv(RetryTicket(db, ticketId, token, retryAt, clock).db)
  {
    hide RoomsOk, SessionsOk, AssignmentsOk, ResultsOk, TerminalOk, ShadowOk, ConfigsValid, OutboxOk, PartitionOk,
      SeatedOk;
    var after := RetryTicket(db, ticketId, token, retryAt, clock);
    if after.reply.Changed? {
      assert Rescheduled(db.tickets, after.db.tickets);
      RescheduledKeepsInv(db, after.db.tickets);
    }
  }

  // ---------------------------------------------------------------------
  // Assignment
  // ---------------------------------------------------------------------

  lemma MembersAfter(memberships: map<Id, Membership>, ticketId: Id, m: Membership)
    requires ticketId !in memberships
    ensures var after := memberships[ticketId := m];
      && Members(after, m.roomId) == Members(memberships, m.roomId) + {ticketId}
      && |Members(after, m.roomId)| == |Members(memberships, m.roomId)| + 1
      && Seats(after, m.roomId) == Seats(memberships, m.roomId) + {m.seat}
      && (forall r :: r != m.roomId ==> Members(after, r) == Members(memberships, r))
      && (forall r :: r != m.roomId ==> Seats(after, r) == Seats(memberships, r))
  {
    hide Members, Seats;
    var after := memberships[ticketId := m];
    forall r
      ensures Members(after, r) == Members(memberships, r) + (if r == m.roomId then {ticketId} else {})
      ensures Seats(after, r) == Seats(memberships, r) + (if r == m.roomId then {m.seat} else {})
    {
      MembersOf(memberships, ticketId, m, r);
      SeatsAfter(memberships, ticketId, m, r);
    }
    MembersOf(memberships, ticketId, m, m.roomId);
  }

  lemma MembersOf(memberships: map<Id, Membership>, ticketId: Id, m: Membership, r: Id)
    requires ticketId !in memberships
    ensures Members(memberships[ticketId := m], r) == Members(memberships, r)
      + (if r == m.roomId then {ticketId} else {})
    ensures ticketId !in Members(memberships, r)
  {
  }

  lemma SeatsAfter(memberships: map<Id, Membership>, ticketId: Id, m: Membership, r: Id)
    requires ticketId !in memberships
    ensures Seats(memberships[ticketId := m], r) == Seats(memberships, r) + (if r == m.roomId then {m.seat} else {})
  {
    var after := memberships[ticketId := m];
    forall t | t in memberships ensures after[t] == memberships[t] {
    }
    assert after[ticketId] == m;
    forall s | s in Seats(memberships, r) ensures s in Seats(after, r) {
      var t :| t in memberships && memberships[t].roomId == r && memberships[t].seat == s;
      assert after[t].seat == s;
    }
    if r == m.roomId {
      assert after[ticketId].seat in Seats(after, r);
    }
  }

  /** The first free seat is the next one. */
  lemma NextSeat(memberships: map<Id, Membership>, roomId: Id, n: nat, capacity: int)
    requires SeatsExact(memberships, roomId, n) && n < capacity
    ensures LeastFree(Seats(memberships, roomId), 1, capacity) == Some(n + 1)
  {
    forall s | s in Seats(memberships, roomId) ensures s <= n {
      var t :| t in memberships && memberships[t].roomId == roomId && memberships[t].seat == s;
      assert t in Members(memberships, roomId);
    }
    var free := LeastFree(Seats(memberships, roomId), 1, capacity);
    assert n + 1 !in Seats(memberships, roomId);
    assert free.Some? && free.value >= n + 1;
  }

  lemma SeatsGrow(memberships: map<Id, Membership>, ticketId: Id, m: Membership, n: nat)
    requires ticketId !in memberships && SeatsExact(memberships, m.roomId, n) && m.seat == n + 1
    requires !PlayerSeated(memberships, m.roomId, m.playerId)
    ensures SeatsExact(memberships[ticketId := m], m.roomId, n + 1)
  {
    hide Members, Seats, PlayerSeated;
    MembersAfter(memberships, ticketId, m);
    OldRowsKept(memberships, ticketId, m, m.roomId);
    PlayerIsNew(memberships, m.roomId, m.playerId);
  }

  lemma OldRowsKept(memberships: map<Id, Membership>, ticketId: Id, m: Membership, roomId: Id)
    requires ticketId !in memberships
    ensures forall t :: t in Members(memberships, roomId) ==>
      t in memberships && t != ticketId && memberships[ticketId := m][t] == memberships[t]
  {
  }

  lemma PlayerIsNew(memberships: map<Id, Membership>, roomId: Id, playerId: Id)
    requires !PlayerSeated(memberships, roomId, playerId)
    ensures forall t :: t in Members(memberships, roomId) ==> memberships[t].playerId != playerId
  {
  }

  lemma SeatsStay(memberships: map<Id, Membership>, ticketId: Id, m: Membership, roomId: Id, n: nat)
    requires ticketId !in memberships && SeatsExact(memberships, roomId, n) && m.roomId != roomId
    ensures SeatsExact(memberships[ticketId := m], roomId, n)
  {
    hide Members, Seats;
    MembersAfter(memberships, ticketId, m);
    OldRowsKept(memberships, ticketId, m, roomId);
  }

  lemma OtherRoomStays(
    config: TournamentConfig, room: Room, memberships: map<Id, Membership>, ticketId: Id, m: Membership, roomId: Id)
    requires ticketId !in memberships && m.roomId != roomId && RoomOk(config, room, memberships, roomId)
    ensures RoomOk(config, room, memberships[ticketId := m], roomId)
  {
    SeatsStay(memberships, ticketId, m, roomId, |Members(memberships, roomId)|);
    MembersAfter(memberships, ticketId, m);
    hide SeatsExact;
    if !room.status.Forming? {
      var t :| t in Members(memberships, roomId) && memberships[t].assignedAt == room.status.filledAt;
      assert t in Members(memberships[ticketId := m], roomId);
    }
  }

  /** The locked room after one more member. */
  ghost predicate Joined(config: TournamentConfig, before: Room, n: nat, m: Membership, after: Room) {
    && after.profile == before.profile
    && after.version == before.version + 1
    && after.status == if n + 1 == config.capacity then Collecting(m.assignedAt, m.assignedAt + config.resultTimeout)
      else Forming
  }

  lemma JoinedRoomOk(
    config: TournamentConfig, before: Room, memberships: map<Id, Membership>, ticketId: Id, m: Membership, after: Room)
    requires ticketId !in memberships && RoomOk(config, before, memberships, m.roomId) && before.status.Forming?
    requires m.seat == |Members(memberships, m.roomId)| + 1
    requires !PlayerSeated(memberships, m.roomId, m.playerId)
    requires Joined(config, before, |Members(memberships, m.roomId)|, m, after)
    ensures RoomOk(config, after, memberships[ticketId := m], m.roomId)
  {
    SeatsGrow(memberships, ticketId, m, |Members(memberships, m.roomId)|);
    MembersAfter(memberships, ticketId, m);
    hide SeatsExact, PlayerSeated;
    assert ticketId in Members(memberships[ticketId := m], m.roomId);
  }

  lemma RoomsAfterSeat(
    configs: Configs, rooms: map<Id, Room>, memberships: map<Id, Membership>, ticketId: Id, m: Membership, after: Room)
    requires RoomsOk(configs, rooms, memberships) && ticketId !in memberships && m.roomId in rooms
    requires rooms[m.roomId].status.Forming?
    requires m.seat == |Members(memberships, m.roomId)| + 1
    requires !PlayerSeated(memberships, m.roomId, m.playerId)
    requires var profile := rooms[m.roomId].profile;
      Joined(configs[(profile.tournamentId, profile.tournamentVersion)], rooms[m.roomId],
        |Members(memberships, m.roomId)|, m, after)
    ensures RoomsOk(configs, rooms[m.roomId := after], memberships[ticketId := m])
  {
    hide RoomOk, PlayerSeated;
    forall r | r in rooms
      ensures RoomOk(
        configs[(rooms[r].profile.tournamentId, rooms[r].profile.tournamentVersion)],
        rooms[m.roomId := after][r], memberships[ticketId := m], r)
    {
      var config := configs[(rooms[r].profile.tournamentId, rooms[r].profile.tournamentVersion)];
      if r == m.roomId {
        JoinedRoomOk(config, rooms[r], memberships, ticketId, m, after);
      } else {
        OtherRoomStays(config, rooms[r], memberships, ticketId, m, r);
      }
    }
  }

  lemma SeatTables(
    tickets: map<Id, Ticket>, entries: map<Id, Id>, memberships: map<Id, Membership>, ticketId: Id, m: Membership)
    requires TicketsOk(tickets, entries) && SeatedOk(tickets, memberships)
    requires ticketId in tickets && tickets[ticketId].status.Queued? && ticketId !in memberships
    requires m.playerId == tickets[ticketId].profile.playerId && m.digest.ticketId == ticketId
      && m.digest.roomId == m.roomId
    ensures TicketsOk(tickets[ticketId := tickets[ticketId].Left(Assigned(m.assignedAt))], entries)
    ensures SeatedOk(tickets[ticketId := tickets[ticketId].Left(Assigned(m.assignedAt))], memberships[ticketId := m])
  {
  }

  lemma SeatIndexes(
    memberships: map<Id, Membership>, assignments: map<Id, Id>, sessions: map<Id, Session>, ticketSessions: map<Id, Id>,
    ticketId: Id, m: Membership, session: Session)
    requires SessionsOk(memberships, sessions, ticketSessions) && AssignmentsOk(memberships, assignments)
    requires ticketId !in memberships && m.digest.sessionId !in sessions && m.digest.assignmentId !in assignments
    requires session.ticketId == ticketId && SessionMirrors(session, m)
    ensures SessionsOk(
      memberships[ticketId := m], sessions[m.digest.sessionId := session],
      ticketSessions[ticketId := m.digest.sessionId])
    ensures AssignmentsOk(memberships[ticketId := m], assignments[m.digest.assignmentId := ticketId])
  {
  }

  lemma SeatPartition(
    configs: Configs, tickets: map<Id, Ticket>, rooms: map<Id, Room>, memberships: map<Id, Membership>,
    ticketId: Id, ticket: Ticket, m: Membership, room: Room)
    requires PartitionOk(configs, tickets, rooms, memberships) && SeatedOk(tickets, memberships)
    requires forall t :: t in memberships ==> memberships[t].roomId in rooms
    requires ticketId in tickets && ticket.profile == tickets[ticketId].profile
    requires m.roomId in rooms && room.profile == rooms[m.roomId].profile
    requires SamePartition(configs, ticket.profile, room.profile)
    ensures PartitionOk(configs, tickets[ticketId := ticket], rooms[m.roomId := room], memberships[ticketId := m])
  {
  }

  lemma SeatResults(
    rooms: map<Id, Room>, results: map<Id, ResultDigest>, roomResults: map<Id, Id>, sessions: map<Id, Session>,
    roomId: Id, room: Room, sessionId: Id, session: Session)
    requires ResultsOk(rooms, results, roomResults) && TerminalOk(rooms, sessions)
    requires roomId in rooms && !rooms[roomId].Terminal() && !room.Terminal()
    requires session.roomId == roomId
    ensures ResultsOk(rooms[roomId := room], results, roomResults)
    ensures TerminalOk(rooms[roomId := room], sessions[sessionId := session])
  {
  }

  lemma SeatShadow(
    rooms: map<Id, Room>, results: map<Id, ResultDigest>, shadow: map<ShadowKey, ShadowItem>, roomId: Id, room: Room)
    requires ShadowOk(rooms, results, shadow)
    requires roomId in rooms && rooms[roomId].status.Forming? && (room.status.Forming? || room.status.Collecting?)
    ensures ShadowOk(
      rooms[roomId := room], results,
      if room.status.Forming? then shadow
      else AddShadowWork(shadow, ShadowKey(RoomWork, roomId), ShadowItem(room.status.filledAt, 0)))
  {
  }

  lemma SeatOutbox(
    tickets: map<Id, Ticket>, rooms: map<Id, Room>, outbox: seq<Event>, ticketId: Id, ticket: Ticket, roomId: Id,
    room: Room,
    seatedEvent: Event, filledEvent: Event, filled: bool)
    requires OutboxOk(tickets, rooms, outbox)
    requires ticketId in tickets && ticket.version == tickets[ticketId].version + 1
    requires roomId in rooms && room.version == rooms[roomId].version + 1
    requires seatedEvent == TicketEvent(seatedEvent.eventId, ticketId, ticket, TICKET_ASSIGNED, seatedEvent.occurredAt)
    requires filledEvent
      == EventOf(filledEvent.eventId, AGGREGATE_ROOM, roomId, room.version, ROOM_FILLED, filledEvent.occurredAt)
    requires ticketId != 0 && roomId != 0 && seatedEvent.occurredAt != 0 && filledEvent.occurredAt != 0
    requires !EventRefused(outbox, seatedEvent.eventId)
    requires filled ==> !EventRefused(outbox, filledEvent.eventId) && seatedEvent.eventId != filledEvent.eventId
    ensures OutboxOk(
      tickets[ticketId := ticket], rooms[roomId := room],
      outbox + if filled then [seatedEvent, filledEvent] else [seatedEvent])
  {
    hide OutboxOk;
    var newTickets, newRooms := tickets[ticketId := ticket], rooms[roomId := room];
    OutboxGrows(tickets, rooms, newTickets, rooms, outbox, seatedEvent);
    if filled {
      OutboxGrows(newTickets, rooms, newTickets, newRooms, outbox + [seatedEvent], filledEvent);
      assert outbox + [seatedEvent] + [filledEvent] == outbox + [seatedEvent, filledEvent];
    } else {
      OutboxStays(newTickets, rooms, newTickets, newRooms, outbox + [seatedEvent]);
    }
  }

  /** What a successful assignment found, in the tables' own terms. */
  ghost predicate FoundSeat(db: Db, c: AssignCommand) {
    && Seatable(db, c)
    && db.tickets[c.ticketId].status.Queued? && c.ticketId !in db.memberships
    && db.rooms[c.roomId].status.Forming?
    && |Members(db.memberships, c.roomId)| < RoomConfig(db, c).capacity
    && db.rooms[c.roomId].version == c.expectedRoomVersion == 1 + |Members(db.memberships, c.roomId)|
    && SamePartition(db.configs, db.tickets[c.ticketId].profile, db.rooms[c.roomId].profile)
    && !PlayerSeated(db.memberships, c.roomId, db.tickets[c.ticketId].profile.playerId)
    && c.assignmentId !in db.assignments
    && !AssignmentCollides(db, c, Fills(db, c))
    && c.assignedAt <= db.rooms[c.roomId].profile.fillDeadline
    && c.Valid()
  }

  ghost function NextSeatOf(db: Db, c: AssignCommand): int {
    |Members(db.memberships, c.roomId)| + 1
  }

  lemma AssignFound(db: Db, c: AssignCommand, clock: Time)
    requires Inv(db)
    ensures Assign(db, c, clock).reply.Changed? ==>
      FoundSeat(db, c) && Assign(db, c, clock).db == Seat(db, c, NextSeatOf(db, c))
    ensures !Assign(db, c, clock).reply.Changed? ==> Assign(db, c, clock).db == db
  {
    hide TicketsOk, SessionsOk, AssignmentsOk, ResultsOk, TerminalOk, ShadowOk, ConfigsValid, OutboxOk, PartitionOk;
    hide Seat, AssignmentCollides, PlayerSeated, LeastFree, SeatsExact;
    if Assign(db, c, clock).reply.Changed? {
      NextSeat(db.memberships, c.roomId, |Members(db.memberships, c.roomId)|, RoomConfig(db, c).capacity);
    }
  }

  lemma AssignKeepsInv(db: Db, c: AssignCommand, clock: Time)
    requires Inv(db)
    ensures Inv(Assign(db, c, clock).db)
  {
    hide *;
    AssignFound(db, c, clock);
    if Assign(db, c, clock).reply.Changed? {
      SeatKeepsInv(db, c);
    }
  }

  /** The rows of the seat, in the terms of the table lemmas. */
  lemma SeatRows(db: Db, c: AssignCommand)
    requires FoundSeat(db, c)
    ensures var seat := NextSeatOf(db, c);
      var m, room, ticket, session := SeatRow(db, c, seat), SeatedRoom(db, c), SeatedTicket(db, c),
        SeatSession(db, c, seat);
      && m.roomId == c.roomId && m.seat == seat && m.assignedAt == c.assignedAt
      && m.playerId == db.tickets[c.ticketId].profile.playerId
      && m.digest.ticketId == c.ticketId && m.digest.roomId == c.roomId
      && m.digest.sessionId == c.sessionId && m.digest.assignmentId == c.assignmentId
      && c.sessionId !in db.sessions
      && ticket == db.tickets[c.ticketId].Left(Assigned(c.assignedAt))
        && ticket.profile == db.tickets[c.ticketId].profile
      && ticket.version == db.tickets[c.ticketId].version + 1
      && Joined(RoomConfig(db, c), db.rooms[c.roomId], |Members(db.memberships, c.roomId)|, m, room)
      && room.profile == db.rooms[c.roomId].profile && room.version == db.rooms[c.roomId].version + 1
      && (room.status.Forming? <==> !Fills(db, c))
        && (Fills(db, c) ==> room.status.Collecting? && room.status.filledAt == c.assignedAt)
      && session.ticketId == c.ticketId && session.roomId == c.roomId && SessionMirrors(session, m)
      && (db.rooms[c.roomId].profile.tournamentId, db.rooms[c.roomId].profile.tournamentVersion) in db.configs
      && RoomConfig(db, c)
        == db.configs[(db.rooms[c.roomId].profile.tournamentId, db.rooms[c.roomId].profile.tournamentVersion)]
  {
    hide SamePartition, PlayerSeated, EventRefused, Members;
  }

  lemma SeatKeepsInv(db: Db, c: AssignCommand)
    requires Inv(db) && FoundSeat(db, c)
    ensures Inv(Seat(db, c, NextSeatOf(db, c)))
  {
    hide *;
    SeatKeepsTickets(db, c);
    SeatKeepsRooms(db, c);
    SeatKeepsRecords(db, c);
    SidesMakeInv(db);
    InvFold(db, c);
  }

  ghost predicate TicketSide(db: Db) {
    && TicketsOk(db.tickets, db.entries)
    && SeatedOk(db.tickets, db.memberships)
    && SessionsOk(db.memberships, db.sessions, db.ticketSessions)
    && AssignmentsOk(db.memberships, db.assignments)
  }

  ghost predicate RoomSide(db: Db) {
    && RoomsOk(db.configs, db.rooms, db.memberships)
    && PartitionOk(db.configs, db.tickets, db.rooms, db.memberships)
  }

  ghost predicate RecordSide(db: Db) {
    && ResultsOk(db.rooms, db.results, db.roomResults)
    && TerminalOk(db.rooms, db.sessions)
    && OutboxOk(db.tickets, db.rooms, db.outbox)
    && ShadowOk(db.rooms, db.results, db.shadow)
  }

  lemma SidesMakeInv(db: Db)
    ensures Inv(db) <==> ConfigsValid(db.configs) && TicketSide(db) && RoomSide(db) && RecordSide(db)
  {
    hide TicketsOk, SeatedOk, SessionsOk, AssignmentsOk, RoomsOk, ResultsOk, TerminalOk, ShadowOk, ConfigsValid,
      OutboxOk, PartitionOk;
  }

  lemma InvFold(db: Db, c: AssignCommand)
    requires ConfigsValid(db.configs) && FoundSeat(db, c)
    requires var after := Seat(db, c, NextSeatOf(db, c)); TicketSide(after) && RoomSide(after) && RecordSide(after)
    ensures Inv(Seat(db, c, NextSeatOf(db, c)))
  {
    hide TicketSide, RoomSide, RecordSide, Inv, ConfigsValid;
    SidesMakeInv(Seat(db, c, NextSeatOf(db, c)));
  }

  lemma SeatKeepsTickets(db: Db, c: AssignCommand)
    requires Inv(db) && FoundSeat(db, c)
    ensures TicketSide(Seat(db, c, NextSeatOf(db, c)))
  {
    hide TicketsOk, SeatedOk, SessionsOk, AssignmentsOk, RoomsOk, ResultsOk, TerminalOk, ShadowOk, ConfigsValid,
      OutboxOk, PartitionOk;
    hide SeatedTicket, SeatedRoom, SeatRow, SeatSession, SeatedEvent, FilledEvent, AddShadowWork, Fills, NextSeatOf;
    hide SamePartition, PlayerSeated, EventRefused, Members, AssignmentCollides, RoomConfig, Joined, SessionMirrors;
    SeatRows(db, c);
    var seat := NextSeatOf(db, c);
    SeatTables(db.tickets, db.entries, db.memberships, c.ticketId, SeatRow(db, c, seat));
    SeatIndexes(
      db.memberships, db.assignments, db.sessions, db.ticketSessions, c.ticketId, SeatRow(db, c, seat),
      SeatSession(db, c, seat));
  }

  lemma SeatKeepsRooms(db: Db, c: AssignCommand)
    requires Inv(db) && FoundSeat(db, c)
    ensures RoomSide(Seat(db, c, NextSeatOf(db, c)))
  {
    hide TicketsOk, SeatedOk, SessionsOk, AssignmentsOk, RoomsOk, ResultsOk, TerminalOk, ShadowOk, ConfigsValid,
      OutboxOk, PartitionOk;
    hide SeatedTicket, SeatedRoom, SeatRow, SeatSession, SeatedEvent, FilledEvent, AddShadowWork, Fills;
    hide SamePartition, PlayerSeated, EventRefused, AssignmentCollides, RoomConfig, Joined, SessionMirrors, Members;
    SeatRows(db, c);
    var seat := NextSeatOf(db, c);
    RoomsAfterSeat(db.configs, db.rooms, db.memberships, c.ticketId, SeatRow(db, c, seat), SeatedRoom(db, c));
    RoomsKnown(db);
    SeatPartition(
      db.configs, db.tickets, db.rooms, db.memberships, c.ticketId, SeatedTicket(db, c), SeatRow(db, c, seat),
      SeatedRoom(db, c));
  }

  lemma RoomsKnown(db: Db)
    requires RoomsOk(db.configs, db.rooms, db.memberships)
    ensures forall t :: t in db.memberships ==> db.memberships[t].roomId in db.rooms
  {
    hide RoomOk;
  }

  lemma SeatKeepsRecords(db: Db, c: AssignCommand)
    requires Inv(db) && FoundSeat(db, c)
    ensures RecordSide(Seat(db, c, NextSeatOf(db, c)))
  {
    hide TicketsOk, SeatedOk, SessionsOk, AssignmentsOk, RoomsOk, ResultsOk, TerminalOk, ShadowOk, ConfigsValid,
      OutboxOk, PartitionOk;
    hide SeatedTicket, SeatedRoom, SeatRow, SeatSession, AddShadowWork, Fills, NextSeatOf;
    hide SamePartition, PlayerSeated, EventRefused, RoomConfig, Joined, SessionMirrors, Members;
    SeatRows(db, c);
    var seat := NextSeatOf(db, c);
    SeatResults(
      db.rooms, db.results, db.roomResults, db.sessions, c.roomId, SeatedRoom(db, c), c.sessionId,
      SeatSession(db, c, seat));
    SeatShadow(db.rooms, db.results, db.shadow, c.roomId, SeatedRoom(db, c));
    SeatOutbox(
      db.tickets, db.rooms, db.outbox, c.ticketId, SeatedTicket(db, c), c.roomId, SeatedRoom(db, c),
      SeatedEvent(db, c), FilledEvent(db, c), Fills(db, c));
  }
}

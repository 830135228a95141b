/** When exactly each transaction of the lifecycle succeeds, and what it leaves
    behind, in terms of the tables alone. */
module TransactionLaws {
  import opened Common
  import opened RatingTypes
  import opened Outbox
  import opened Database
  import opened TicketStore
  import opened ResultStore
  import opened MatchmakingQueue
  import opened Lifecycle
  import LifecycleRuns
  import Batches

  ghost predicate FreshEvent(db: Db, id: Id) {
    id != 0 && forall e :: e in db.outbox ==> e.eventId != id
  }

  /** The worker's claim on the ticket is alive by the database's clock. */
  ghost predicate HoldsTicket(db: Db, t: Id, token: Id, clock: Time) {
    && t in db.tickets && db.tickets[t].claim.Some?
    && db.tickets[t].claim.value.token == token && clock < db.tickets[t].claim.value.until
  }

  lemma FreshIsNotRefused(db: Db, id: Id)
    ensures FreshEvent(db, id) <==> !EventRefused(db.outbox, id)
  {
  }

  // ---------------------------------------------------------------------
  // Acceptance
  // ---------------------------------------------------------------------

  /** A new request succeeds exactly if ticket and entry are unused, the tournament
      is configured for the rating model, and the event is new. */
  lemma AcceptSucceedsIff(db: Db, c: AcceptCommand)
    ensures var key := (c.profile.tournamentId, c.profile.tournamentVersion);
      Accept(db, c).reply.Changed? <==>
        && c.Valid() && c.ticketId !in db.tickets && c.profile.entryId !in db.entries
        && key in db.configs && db.configs[key].policy.ratingModelVersion == c.profile.rating.modelVersion
        && FreshEvent(db, c.eventId)
    ensures Accept(db, c).reply.Changed? ==>
      Accept(db, c).db == db.(
        tickets := db.tickets[c.ticketId := Ticket(c.profile, Queued, 1, Some(c.profile.requestedAt), None, 0)],
        entries := db.entries[c.profile.entryId := c.ticketId],
        outbox := db.outbox + [Event(
          c.eventId, AGGREGATE_TICKET, c.ticketId, 1, TICKET_ACCEPTED, 0, c.profile.requestedAt)])
    ensures !Accept(db, c).reply.Changed? ==> Accept(db, c).db == db
  {
    hide AcceptCommand.Valid;
    FreshIsNotRefused(db, c.eventId);
    hide EventRefused, FreshEvent;
  }

  // ---------------------------------------------------------------------
  // Leaving the queue
  // ---------------------------------------------------------------------

  /** The ticket has left the queue with that status: one version up, not scheduled
      and not claimed; its command is recorded and its event emitted. */
  ghost predicate HasLeft(
    db: Db, after: Db, t: Id, commandId: Id, digest: CommandDigest, status: TicketStatus, eventId: Id, eventType: Id,
    at: Time)
  {
    && t in db.tickets
    && after == db.(
      tickets := db.tickets[t := Ticket(
        db.tickets[t].profile, status, db.tickets[t].version + 1, None, None, db.tickets[t].attempts)],
      commands := db.commands[(t, commandId) := digest],
      outbox := db.outbox + [Event(
        eventId, AGGREGATE_TICKET, t, db.tickets[t].version + 1, eventType, 0, at)])
  }

  /** A cancellation cancels exactly a queued ticket, under an unused command and a
      new event; a cancelled one is only recorded once more. */
  lemma CancelSucceedsIff(db: Db, c: CancelCommand)
    ensures Cancel(db, c).reply.Changed? <==>
      && c.Valid() && c.ticketId in db.tickets && db.tickets[c.ticketId].status.Queued?
      && (c.ticketId, c.commandId) !in db.commands && FreshEvent(db, c.eventId)
    ensures Cancel(db, c).reply.Unchanged? <==>
      && c.Valid() && c.ticketId in db.tickets && db.tickets[c.ticketId].status.Cancelled?
      && (c.ticketId, c.commandId) !in db.commands
    ensures Cancel(db, c).reply.Changed? ==> HasLeft(
      db, Cancel(db, c).db, c.ticketId, c.commandId, CancelDigest, Cancelled(c.cancelledAt), c.eventId,
      TICKET_CANCELLED, c.cancelledAt)
    ensures Cancel(db, c).reply.Unchanged? ==>
      Cancel(db, c).db == db.(commands := db.commands[(c.ticketId, c.commandId) := CancelDigest])
    ensures !Cancel(db, c).reply.Changed? && !Cancel(db, c).reply.Unchanged? ==> Cancel(db, c).db == db
  {
    hide CancelCommand.Valid;
    FreshIsNotRefused(db, c.eventId);
    hide EventRefused, FreshEvent;
  }

  /** An expiry expires exactly a queued ticket that its worker still holds. */
  lemma ExpireSucceedsIff(db: Db, c: ExpireCommand, clock: Time)
    ensures Expire(db, c, clock).reply.Changed? <==>
      && c.Valid() && c.ticketId in db.tickets && db.tickets[c.ticketId].status.Queued?
      && (c.ticketId, c.commandId) !in db.commands
      && HoldsTicket(db, c.ticketId, c.claimToken, clock) && FreshEvent(db, c.eventId)
    ensures Expire(db, c, clock).reply.Changed? ==> HasLeft(
      db, Expire(db, c, clock).db, c.ticketId, c.commandId, ExpireDigest(c.deadline), Expired(c.expiredAt), c.eventId,
      TICKET_EXPIRED, c.expiredAt)
    ensures !Expire(db, c, clock).reply.Changed? ==> Expire(db, c, clock).db == db
  {
    hide ExpireCommand.Valid;
    FreshIsNotRefused(db, c.eventId);
    hide EventRefused, FreshEvent;
  }

  // ---------------------------------------------------------------------
  // Waiting in the queue
  // ---------------------------------------------------------------------

  /** A retry succeeds exactly for the worker that holds the queued ticket; the
      ticket is due again from the new time on and not earlier. */
  lemma RetrySucceedsIff(db: Db, t: Id, token: Id, retryAt: Time, clock: Time)
    requires t != 0 && token != 0 && retryAt != 0
    ensures RetryTicket(db, t, token, retryAt, clock).reply.Changed? <==>
      HoldsTicket(db, t, token, clock) && db.tickets[t].status.Queued?
    ensures var change := RetryTicket(db, t, token, retryAt, clock);
      && (change.reply.Changed? ==>
        && t in db.tickets
        && change.db == db.(tickets := db.tickets[t := change.db.tickets[t]])
        && change.db.tickets[t].profile == db.tickets[t].profile
        && change.db.tickets[t].version == db.tickets[t].version
        && change.db.tickets[t].status.Queued?
        && forall now :: TicketDue(change.db.tickets[t], now) <==> retryAt <= now)
      && (!change.reply.Changed? ==> change.db == db)
  {
  }

  /** A claimed ticket belongs to its worker while the lease lasts, and is due again
      exactly when the lease is over. */
  lemma ClaimHands(
    tickets: map<Id, Ticket>, batch: set<Id>, limit: int, token: Id, now: Time, until: Time, t: Id, later: Time)
    requires IsTicketBatch(tickets, batch, limit, now) && t in batch && now < until
    ensures var after := ClaimTickets(tickets, batch, token, until);
      && t in after && after[t].OwnedBy(token, later) == (later < until)
      && (TicketDue(after[t], later) <==> until <= later)
      && after[t].attempts == tickets[t].attempts + 1
      && after[t].profile == tickets[t].profile && after[t].status == tickets[t].status
      && after[t].version == tickets[t].version
      && forall o :: o in tickets && o !in batch ==> o in after && after[o] == tickets[o]
  {
  }

  // ---------------------------------------------------------------------
  // Assignment
  // ---------------------------------------------------------------------

  /** The room takes this ticket's player: it is forming in the version that was
      read, before its deadline, of the ticket's tournament and rating model, and the
      player is not in it. */
  ghost predicate RoomTakes(db: Db, c: AssignCommand) {
    && c.ticketId in db.tickets && c.roomId in db.rooms
    && var ticket, room := db.tickets[c.ticketId].profile, db.rooms[c.roomId];
    && var key := (room.profile.tournamentId, room.profile.tournamentVersion);
    && room.status.Forming? && room.version == c.expectedRoomVersion && c.assignedAt <= room.profile.fillDeadline
    && (ticket.tournamentId, ticket.tournamentVersion) == key && key in db.configs
    && db.configs[key].policy.ratingModelVersion == ticket.rating.modelVersion
    && forall t :: t in db.memberships && db.memberships[t].roomId == c.roomId ==>
      db.memberships[t].playerId != ticket.playerId
  }

  /** With this ticket the room has its last member. */
  ghost predicate Completes(db: Db, c: AssignCommand) {
    && c.roomId in db.rooms
    && var key := (db.rooms[c.roomId].profile.tournamentId, db.rooms[c.roomId].profile.tournamentVersion);
    && key in db.configs
    && |set t | t in db.memberships && db.memberships[t].roomId == c.roomId| + 1 == db.configs[key].capacity
  }

  ghost predicate AssignCondition(db: Db, c: AssignCommand, clock: Time) {
    && c.Valid() && c.assignmentId !in db.assignments
    && c.ticketId in db.tickets && db.tickets[c.ticketId].status.Queued?
    && db.tickets[c.ticketId].profile.requestedAt <= c.assignedAt
    && (c.claimToken != 0 ==> HoldsTicket(db, c.ticketId, c.claimToken, clock))
    && RoomTakes(db, c)
    && c.sessionId !in db.sessions && FreshEvent(db, c.ticketEventId)
    && (Completes(db, c) ==>
      && db.rooms[c.roomId].profile.createdAt <= c.assignedAt
      && FreshEvent(db, c.roomFilledEventId) && c.roomFilledEventId != c.ticketEventId)
  }

  lemma CompletesIsFills(db: Db, c: AssignCommand)
    requires Seatable(db, c)
    ensures Completes(db, c) <==> Fills(db, c)
  {
    assert Members(db.memberships, c.roomId) == set t | t in db.memberships && db.memberships[t].roomId == c.roomId;
  }

  lemma NextSeat(config: TournamentConfig, room: Room, memberships: map<Id, Membership>, r: Id)
    requires RoomOk(config, room, memberships, r) && room.status.Forming?
    ensures var n := |Members(memberships, r)|;
      n < config.capacity && LeastFree(Seats(memberships, r), 1, config.capacity) == Some(n + 1)
  {
    var n := |Members(memberships, r)|;
    forall t | t in memberships && memberships[t].roomId == r ensures memberships[t].seat != n + 1 {
      assert t in Members(memberships, r);
    }
    assert n + 1 !in Seats(memberships, r) && n + 1 <= config.capacity;
    var seat := LeastFree(Seats(memberships, r), 1, config.capacity);
    assert seat.Some? && seat.value <= n + 1;
    assert forall s :: 1 <= s <= n ==> s in Seats(memberships, r);
  }

  lemma KnownRoomOk(db: Db, r: Id)
    requires Inv(db) && r in db.rooms
    ensures var key := (db.rooms[r].profile.tournamentId, db.rooms[r].profile.tournamentVersion);
      key in db.configs && RoomOk(db.configs[key], db.rooms[r], db.memberships, r)
  {
    hide RoomOk, TicketsOk, SeatedOk, SessionsOk, AssignmentsOk, ResultsOk, TerminalOk, ShadowOk, OutboxOk, PartitionOk;
    hide ConfigsValid;
  }

  /** In a state that keeps the invariant, a forming room of a known tournament has
      room for one more, and its seats so far are 1 to the number of its members. */
  lemma FormingHasRoom(db: Db, r: Id)
    requires Inv(db) && r in db.rooms && db.rooms[r].status.Forming?
    ensures ConfigOf(db, db.rooms[r].profile).Some?
    ensures var n, capacity := |Members(db.memberships, r)|, ConfigOf(db, db.rooms[r].profile).value.capacity;
      n < capacity && LeastFree(Seats(db.memberships, r), 1, capacity) == Some(n + 1)
  {
    hide Inv, RoomOk, Members, Seats, LeastFree;
    KnownRoomOk(db, r);
    var key := (db.rooms[r].profile.tournamentId, db.rooms[r].profile.tournamentVersion);
    NextSeat(db.configs[key], db.rooms[r], db.memberships, r);
  }

  /** A queued ticket has no membership and no session. */
  lemma QueuedIsUnseated(db: Db, t: Id)
    requires Inv(db) && t in db.tickets && db.tickets[t].status.Queued?
    ensures t !in db.memberships && t !in db.ticketSessions
  {
    hide TicketsOk, AssignmentsOk, RoomsOk, ResultsOk, TerminalOk, ShadowOk, OutboxOk, PartitionOk, ConfigsValid;
  }

  lemma SeatedPlayers(memberships: map<Id, Membership>, r: Id, player: Id)
    ensures PlayerSeated(memberships, r, player)
      <==> exists t :: t in memberships && memberships[t].roomId == r && memberships[t].playerId == player
  {
  }

  lemma AvailableIsTakes(db: Db, c: AssignCommand)
    requires Inv(db) && c.ticketId in db.tickets
    ensures RoomAvailable(db, c, db.tickets[c.ticketId]) <==> RoomTakes(db, c)
  {
    hide Inv, Members, Seats, PlayerSeated;
    SeatedPlayers(db.memberships, c.roomId, db.tickets[c.ticketId].profile.playerId);
    if c.roomId in db.rooms && db.rooms[c.roomId].status.Forming? {
      FormingHasRoom(db, c.roomId);
    }
  }

  /** The checks in the order of the transaction. */
  lemma AssignChecks(db: Db, c: AssignCommand, clock: Time)
    ensures Assign(db, c, clock).reply.Changed? <==>
      && c.Valid() && c.assignmentId !in db.assignments
      && c.ticketId in db.tickets && db.tickets[c.ticketId].status.Queued?
      && db.tickets[c.ticketId].profile.requestedAt <= c.assignedAt
      && (c.claimToken != 0 ==> db.tickets[c.ticketId].OwnedBy(c.claimToken, clock))
      && RoomAvailable(db, c, db.tickets[c.ticketId]) && Seatable(db, c)
      && LeastFree(Seats(db.memberships, c.roomId), 1, RoomConfig(db, c).capacity).Some?
      && (Fills(db, c) ==> db.rooms[c.roomId].profile.createdAt <= c.assignedAt)
      && !AssignmentCollides(db, c, Fills(db, c))
    ensures Assign(db, c, clock).reply.Changed? ==>
      Assign(db, c, clock).db
        == Seat(db, c, LeastFree(Seats(db.memberships, c.roomId), 1, RoomConfig(db, c).capacity).value)
    ensures !Assign(db, c, clock).reply.Changed? ==> Assign(db, c, clock).db == db
  {
    hide AssignCommand.Valid, Ticket.OwnedBy, PlayerSeated, Members, Seats, LeastFree, AssignmentCollides, Seat, Fills;
    hide AssignCommand.Digest;
  }

  lemma CollidesIs(db: Db, c: AssignCommand, filled: bool)
    requires Inv(db) && c.ticketId in db.tickets && db.tickets[c.ticketId].status.Queued?
    ensures !AssignmentCollides(db, c, filled) <==>
      && c.sessionId !in db.sessions && FreshEvent(db, c.ticketEventId)
      && (filled ==> FreshEvent(db, c.roomFilledEventId) && c.roomFilledEventId != c.ticketEventId)
  {
    hide Inv, EventRefused, FreshEvent;
    FreshIsNotRefused(db, c.ticketEventId);
    FreshIsNotRefused(db, c.roomFilledEventId);
    QueuedIsUnseated(db, c.ticketId);
  }

  /** An assignment succeeds exactly if the command is new and well formed, the ticket
      waits and, for a worker, is still held by it, the room takes it, and the new
      identities are unused. */
  lemma AssignSucceedsIff(db: Db, c: AssignCommand, clock: Time)
    requires Inv(db)
    ensures Assign(db, c, clock).reply.Changed? <==> AssignCondition(db, c, clock)
    ensures !Assign(db, c, clock).reply.Changed? ==> Assign(db, c, clock).db == db
  {
    hide Inv, AssignCommand.Valid, RoomAvailable, RoomTakes, Completes, Fills, FreshEvent, Assign, LeastFree;
    hide Members, Seats, AssignmentCollides;
    AssignChecks(db, c, clock);
    if c.ticketId in db.tickets && db.tickets[c.ticketId].status.Queued? {
      AvailableIsTakes(db, c);
      if RoomTakes(db, c) {
        TakesIsForming(db, c);
        FormingHasRoom(db, c.roomId);
        CompletesIsFills(db, c);
        CollidesIs(db, c, Fills(db, c));
      }
    }
  }

  lemma TakesIsForming(db: Db, c: AssignCommand)
    requires RoomTakes(db, c)
    ensures c.roomId in db.rooms && db.rooms[c.roomId].status.Forming? && Seatable(db, c)
  {
  }

  /** What one seated ticket leaves in the tables. */
  ghost predicate IsSeated(db: Db, after: Db, c: AssignCommand) {
    && c.ticketId in db.tickets && c.roomId in db.rooms
    && var ticket, room := db.tickets[c.ticketId], db.rooms[c.roomId];
    && var n := |set t | t in db.memberships && db.memberships[t].roomId == c.roomId|;
    && var key := (room.profile.tournamentId, room.profile.tournamentVersion);
    && key in db.configs
    && var deadline := c.assignedAt + db.configs[key].resultTimeout;
    && var fills := Completes(db, c);
    && after.tickets == db.tickets[c.ticketId := Ticket(
      ticket.profile, Assigned(c.assignedAt), ticket.version + 1, None, None, ticket.attempts)]
    && after.rooms == db.rooms[c.roomId := Room(
      room.profile, if fills then Collecting(c.assignedAt, deadline) else Forming, room.version + 1)]
    && after.memberships == db.memberships[c.ticketId := Membership(
      c.roomId, ticket.profile.playerId, n + 1, c.assignedAt, c.Digest(), ticket.version + 1, room.version + 1,
      if fills then Some(deadline) else None)]
    && after.sessions == db.sessions[c.sessionId := Session(
      c.ticketId, c.roomId, ticket.profile.playerId, n + 1, c.assignedAt, Allocated)]
    && after.outbox == db.outbox
      + [Event(c.ticketEventId, AGGREGATE_TICKET, c.ticketId, ticket.version + 1, TICKET_ASSIGNED, 0, c.assignedAt)]
      + (if fills then
           [Event(c.roomFilledEventId, AGGREGATE_ROOM, c.roomId, room.version + 1, ROOM_FILLED, 0, c.assignedAt)]
         else [])
    && after.assignments == db.assignments[c.assignmentId := c.ticketId]
    && after.ticketSessions == db.ticketSessions[c.ticketId := c.sessionId]
    && after.shadow == WithItem(db.shadow, fills, ShadowKey(RoomWork, c.roomId), c.assignedAt, 0)
    && after == after.(configs := db.configs, entries := db.entries, commands := db.commands,
                       results := db.results, roomResults := db.roomResults)
  }

  /** The shadow queue with one more item if it is `due` and not there already. */
  ghost function WithItem(
    shadow: map<ShadowKey, ShadowItem>, due: bool, key: ShadowKey, position: Time, priority: int
  ): map<ShadowKey, ShadowItem> {
    if due && key !in shadow then shadow[key := ShadowItem(position, priority)] else shadow
  }

  /** It takes the next seat, counts both versions up, closes the room's waiting when
      it is full, and emits one event, or two when it fills the room. */
  lemma AssignSeats(db: Db, c: AssignCommand, clock: Time)
    requires Inv(db) && Assign(db, c, clock).reply.Changed?
    ensures IsSeated(db, Assign(db, c, clock).db, c)
  {
    hide Inv, AssignCommand.Valid, RoomAvailable, RoomTakes, LeastFree, Assign, IsSeated, Seats, Seat;
    AssignSucceedsIff(db, c, clock);
    AssignChecks(db, c, clock);
    TakesIsForming(db, c);
    FormingHasRoom(db, c.roomId);
    SeatIsSeated(db, c, |Members(db.memberships, c.roomId)| + 1);
  }

  lemma SeatIsSeated(db: Db, c: AssignCommand, seat: int)
    requires Seatable(db, c) && seat == |Members(db.memberships, c.roomId)| + 1 && db.rooms[c.roomId].status.Forming?
    ensures IsSeated(db, Seat(db, c, seat), c)
  {
    hide AssignCommand.Digest;
    CompletesIsFills(db, c);
    hide Completes, Fills;
    assert Members(db.memberships, c.roomId) == set t | t in db.memberships && db.memberships[t].roomId == c.roomId;
  }

  // ---------------------------------------------------------------------
  // Results
  // ---------------------------------------------------------------------

  /** Only in the first participant's session something changes. */
  lemma {:induction false} FinishedSessions(sessions: map<Id, Session>, participants: seq<VerifiedParticipant>, s: Id)
    requires forall i, j :: 0 <= i < j < |participants| ==> participants[i].sessionId != participants[j].sessionId
    ensures FinishSessions(sessions, participants).Keys == sessions.Keys
    ensures s in sessions && (forall p :: p in participants ==> p.sessionId != s) ==>
      FinishSessions(sessions, participants)[s] == sessions[s]
    ensures forall p :: p in participants && p.sessionId == s && s in sessions ==>
      FinishSessions(sessions, participants)[s] == sessions[s].(
        status := if p.features.completed == Some(false) then Forfeited else Submitted)
    decreases |participants|
  {
    if participants != [] {
      var first, rest := participants[0], participants[1..];
      assert participants == [first] + rest;
      FinishedSessions(FinishSession(sessions, first), rest, s);
      forall p | p in rest ensures p.sessionId != first.sessionId {
        var i :| 0 <= i < |rest| && rest[i] == p;
        assert participants[i + 1] == p;
      }
    }
  }

  /** A completed room's result submits the session of every participant, or forfeits
      it exactly when the participant did not complete the game; the room goes up
      one version and emits one event. */
  lemma FinalizeFinishes(db: Db, c: FinalizeCommand, completionEventId: Id)
    requires Finalize(db, c, completionEventId).reply.Changed?
    ensures var after := Finalize(db, c, completionEventId).db;
      && c.roomId in db.rooms && db.rooms[c.roomId].status.Collecting?
      && after.rooms == db.rooms[c.roomId := Room(
        db.rooms[c.roomId].profile,
        Completed(db.rooms[c.roomId].status.filledAt, db.rooms[c.roomId].status.resultDeadline, c.acceptedAt),
        db.rooms[c.roomId].version + 1)]
      && after.outbox == db.outbox + [Event(
        completionEventId, AGGREGATE_ROOM, c.roomId, db.rooms[c.roomId].version + 1, ROOM_COMPLETED, 0, c.acceptedAt)]
      && after.results == db.results[c.eventId := c.Digest()]
      && after.roomResults == db.roomResults[c.roomId := c.eventId]
      && after.shadow == WithItem(db.shadow, true, ShadowKey(ResultWork, c.eventId), c.availableAt, 1)
      && after == after.(configs := db.configs, tickets := db.tickets, entries := db.entries,
                         commands := db.commands, memberships := db.memberships, assignments := db.assignments,
                         ticketSessions := db.ticketSessions)
      && after.sessions.Keys == db.sessions.Keys
      && (forall p :: p in c.participants ==>
        && p.sessionId in db.sessions
        && after.sessions[p.sessionId] == db.sessions[p.sessionId].(
          status := if p.features.completed == Some(false) then Forfeited else Submitted))
      && (forall s :: s in db.sessions && (forall p :: p in c.participants ==> p.sessionId != s) ==>
        after.sessions[s] == db.sessions[s])
  {
    ValidSessions(c);
    hide FinalizeCommand.Valid, FinalizeCommand.Digest, EventRefused;
    var after := Finalize(db, c, completionEventId).db;
    assert after.sessions == FinishSessions(db.sessions, c.participants);
    forall s ensures (
      && after.sessions.Keys == db.sessions.Keys
      && (s in db.sessions && (forall p :: p in c.participants ==> p.sessionId != s) ==>
        after.sessions[s] == db.sessions[s])
      && forall p :: p in c.participants && p.sessionId == s && s in db.sessions ==>
        after.sessions[s] == db.sessions[s].(
          status := if p.features.completed == Some(false) then Forfeited else Submitted))
    {
      FinishedSessions(db.sessions, c.participants, s);
    }
    hide FinishSessions;
  }

  lemma ValidSessions(c: FinalizeCommand)
    ensures c.Valid() ==>
      forall i, j :: 0 <= i < j < |c.participants| ==> c.participants[i].sessionId != c.participants[j].sessionId
  {
    hide FinalizeCommand.MatchResult;
  }

  /** The participants are exactly the room's sessions, each by its own player and
      not over before it was allocated. */
  ghost predicate PlayedBy(db: Db, c: FinalizeCommand) {
    && (forall p :: p in c.participants ==>
      && p.sessionId in db.sessions && db.sessions[p.sessionId].roomId == c.roomId
      && db.sessions[p.sessionId].playerId == p.playerId && db.sessions[p.sessionId].allocatedAt <= c.finishedAt)
    && (forall s :: s in db.sessions && db.sessions[s].roomId == c.roomId ==>
      exists p :: p in c.participants && p.sessionId == s)
  }

  ghost predicate FinalizeCondition(db: Db, c: FinalizeCommand, completionEventId: Id) {
    && c.Valid() && c.eventId !in db.results
    && c.roomId in db.rooms && db.rooms[c.roomId].status.Collecting?
    && var room := db.rooms[c.roomId];
    && var key := (room.profile.tournamentId, room.profile.tournamentVersion);
    && key in db.configs && db.configs[key].modeId == c.modeId && room.profile.deckId == c.deckId
    && db.configs[key].scoringRulesVersion == c.scoringRulesVersion
    && c.acceptedAt <= room.status.resultDeadline && c.finishedAt <= room.status.resultDeadline
    && PlayedBy(db, c) && FreshEvent(db, completionEventId)
  }

  lemma {:induction false} SameSize(from: set<Id>, f: map<Id, Id>)
    requires from <= f.Keys && forall a, b :: a in from && b in from && a != b ==> f[a] != f[b]
    ensures |set a | a in from :: f[a]| == |from|
  {
    if from != {} {
      var a :| a in from;
      SameSize(from - {a}, f);
      assert (set b | b in from :: f[b]) == (set b | b in from - {a} :: f[b]) + {f[a]};
    }
  }

  /** A room has as many sessions as members. */
  lemma SessionPerMember(
    memberships: map<Id, Membership>, sessions: map<Id, Session>, ticketSessions: map<Id, Id>, r: Id)
    requires SessionsOk(memberships, sessions, ticketSessions)
    ensures |RoomSessions(sessions, r)| == |Members(memberships, r)|
  {
    SameSize(Members(memberships, r), ticketSessions);
    var images := set t | t in Members(memberships, r) :: ticketSessions[t];
    forall s ensures s in images <==> s in RoomSessions(sessions, r) {
      if s in RoomSessions(sessions, r) {
        assert sessions[s].ticketId in Members(memberships, r);
      }
    }
    assert images == RoomSessions(sessions, r);
  }

  lemma FullRoom(config: TournamentConfig, room: Room, memberships: map<Id, Membership>, r: Id)
    requires RoomOk(config, room, memberships, r) && !room.status.Forming?
    ensures |Members(memberships, r)| == config.capacity
  {
    hide SeatsExact;
  }

  lemma RoomSessionsExact(db: Db, r: Id)
    requires Inv(db) && r in db.rooms && db.rooms[r].status.Collecting?
    ensures ConfigOf(db, db.rooms[r].profile).Some?
    ensures |RoomSessions(db.sessions, r)| == ConfigOf(db, db.rooms[r].profile).value.capacity
    ensures r !in db.roomResults
  {
    hide TicketsOk, SeatedOk, SessionsOk, AssignmentsOk, RoomsOk, TerminalOk, ShadowOk, OutboxOk, PartitionOk;
    hide ConfigsValid, RoomOk, RoomSessions, Members;
    KnownRoomOk(db, r);
    var key := (db.rooms[r].profile.tournamentId, db.rooms[r].profile.tournamentVersion);
    FullRoom(db.configs[key], db.rooms[r], db.memberships, r);
    SessionPerMember(db.memberships, db.sessions, db.ticketSessions, r);
  }

  /** Matching by number is the same as naming every session. */
  lemma MatchIsPlayedBy(db: Db, c: FinalizeCommand, capacity: int)
    requires |RoomSessions(db.sessions, c.roomId)| == capacity
    requires forall i, j :: 0 <= i < j < |c.participants| ==> c.participants[i].sessionId != c.participants[j].sessionId
    ensures ParticipantsMatch(db.sessions, c.roomId, c.participants, capacity, c.finishedAt) <==> PlayedBy(db, c)
  {
    if ParticipantsMatch(db.sessions, c.roomId, c.participants, capacity, c.finishedAt) {
      LifecycleRuns.EverySessionNamed(db.sessions, c.roomId, c.participants, capacity, c.finishedAt);
    }
    if PlayedBy(db, c) {
      LifecycleRuns.SessionIdsCount(c.participants);
      forall s ensures s in RoomSessions(db.sessions, c.roomId) <==> s in LifecycleRuns.SessionIds(c.participants) {
      }
      assert RoomSessions(db.sessions, c.roomId) == LifecycleRuns.SessionIds(c.participants);
    }
  }

  lemma FinalizeChecks(db: Db, c: FinalizeCommand, completionEventId: Id)
    ensures Finalize(db, c, completionEventId).reply.Changed? <==>
      && c.Valid() && c.eventId !in db.results
      && c.roomId in db.rooms && ConfigOf(db, db.rooms[c.roomId].profile).Some?
      && db.rooms[c.roomId].status.Collecting?
      && var room, config := db.rooms[c.roomId], ConfigOf(db, db.rooms[c.roomId].profile).value;
      && config.modeId == c.modeId && room.profile.deckId == c.deckId
      && config.scoringRulesVersion == c.scoringRulesVersion
      && c.acceptedAt <= room.status.resultDeadline && c.finishedAt <= room.status.resultDeadline
      && ParticipantsMatch(db.sessions, c.roomId, c.participants, config.capacity, c.finishedAt)
      && c.roomId !in db.roomResults && room.status.filledAt <= c.acceptedAt
      && !EventRefused(db.outbox, completionEventId)
  {
    hide FinalizeCommand.Valid, ParticipantsMatch, EventRefused, CompleteRoom, FinalizeCommand.Digest;
  }

  /** A result succeeds exactly if it is well formed and new, its room collects
      results for this mode, deck and rules, it is in time, its participants are
      exactly the room's sessions, and its event is new. */
  lemma FinalizeSucceedsIff(db: Db, c: FinalizeCommand, completionEventId: Id)
    requires Inv(db)
    ensures Finalize(db, c, completionEventId).reply.Changed? <==> FinalizeCondition(db, c, completionEventId)
    ensures !Finalize(db, c, completionEventId).reply.Changed? ==> Finalize(db, c, completionEventId).db == db
  {
    hide Inv, FinalizeCommand.Valid, ParticipantsMatch, PlayedBy, EventRefused, FreshEvent, Finalize, RoomSessions;
    LifecycleRuns.FinalizeFound(db, c, completionEventId);
    FinalizeChecks(db, c, completionEventId);
    FreshIsNotRefused(db, completionEventId);
    ValidSessions(c);
    if c.roomId in db.rooms && db.rooms[c.roomId].status.Collecting? {
      RoomSessionsExact(db, c.roomId);
      if c.Valid() {
        MatchIsPlayedBy(db, c, ConfigOf(db, db.rooms[c.roomId].profile).value.capacity);
        if PlayedBy(db, c) {
          PlayedAfterFill(db, c);
        }
      }
    }
  }

  lemma PlayedAfterFill(db: Db, c: FinalizeCommand)
    requires Inv(db) && c.Valid() && c.roomId in db.rooms && db.rooms[c.roomId].status.Collecting? && PlayedBy(db, c)
    ensures db.rooms[c.roomId].status.filledAt <= c.acceptedAt
  {
    hide Inv;
    var s := LifecycleRuns.FilledBySession(db, c.roomId);
    var p :| p in c.participants && p.sessionId == s;
    assert c.finishedAt <= c.acceptedAt;
  }

  // ---------------------------------------------------------------------
  // Overdue rooms, and who comes first
  // ---------------------------------------------------------------------

  /** A room of this statement's snapshot that is past its deadline and yet not expired by it. */
  ghost predicate LeftOverdue(db: Db, locked: set<Id>, at: Time, batch: seq<RoomExpiry>, left: Id) {
    && left in db.rooms && left !in locked
    && db.rooms[left].status.Collecting? && db.rooms[left].status.resultDeadline <= at
    && forall e :: e in batch ==> e.roomId != left
  }

  /** Only rooms that collect results past their deadline are expired, and the ones
      that are left out because of the limit have not been overdue for longer. */
  lemma LongestOverdueFirst(
    db: Db, locked: set<Id>, limit: int, at: Time, derive: (Id, int) -> Id, batch: seq<RoomExpiry>, left: Id)
    requires IsStatementBatch(db, locked, limit, at, derive, batch)
    ensures |batch| <= limit
    ensures forall e :: e in batch ==>
      && e.roomId in db.rooms && e.roomId !in locked && db.rooms[e.roomId].status.Collecting?
      && db.rooms[e.roomId].status.resultDeadline <= at
    ensures LeftOverdue(db, locked, at, batch, left) ==> |RoomIds(batch)| == limit
    ensures LeftOverdue(db, locked, at, batch, left) ==>
      forall e :: e in batch ==>
        db.rooms[e.roomId].status.resultDeadline <= db.rooms[left].status.resultDeadline
  {
    forall e | e in batch
      ensures e.roomId in db.rooms && e.roomId !in locked && db.rooms[e.roomId].status.Collecting?
      ensures db.rooms[e.roomId].status.resultDeadline <= at
    {
      assert e.roomId in RoomIds(batch);
    }
    if LeftOverdue(db, locked, at, batch, left) {
      assert left in DueRooms(db, locked, at) && left !in RoomIds(batch);
      forall e | e in batch ensures db.rooms[e.roomId].status.resultDeadline <= db.rooms[left].status.resultDeadline {
        assert e.roomId in RoomIds(batch);
        assert DeadlineOrder(db.rooms)(e.roomId, left);
        assert DeadlineBefore(db.rooms, e.roomId, left);
      }
    }
  }

  /** A queued ticket of this statement's snapshot that is due, not leased, and yet not claimed by it. */
  ghost predicate LeftDue(tickets: map<Id, Ticket>, locked: set<Id>, now: Time, batch: set<Id>, left: Id) {
    && left in tickets && left !in locked && left !in batch && tickets[left].status.Queued?
    && tickets[left].nextAttemptAt.Some? && tickets[left].nextAttemptAt.value <= now
    && (tickets[left].claim.Some? ==> tickets[left].claim.value.until <= now)
  }

  /** Only queued tickets that are due and not leased are claimed, and those left out
      because of the limit have not been due for longer. */
  lemma LongestDueFirst(
    tickets: map<Id, Ticket>, locked: set<Id>, limit: int, now: Time, batch: set<Id>, taken: Id, left: Id)
    requires Batches.IsEarliest(DueTickets(tickets, locked, now), limit, TicketOrder(tickets), batch)
    requires taken in batch
    ensures taken in tickets && taken !in locked && tickets[taken].status.Queued?
    ensures tickets[taken].nextAttemptAt.Some? && tickets[taken].nextAttemptAt.value <= now
    ensures tickets[taken].claim.Some? ==> tickets[taken].claim.value.until <= now
    ensures LeftDue(tickets, locked, now, batch, left) ==>
      && |batch| == limit
      && tickets[taken].nextAttemptAt.value <= tickets[left].nextAttemptAt.value
      && (tickets[taken].nextAttemptAt.value == tickets[left].nextAttemptAt.value ==>
        tickets[taken].profile.requestedAt <= tickets[left].profile.requestedAt)
  {
    if LeftDue(tickets, locked, now, batch, left) {
      assert TicketOrder(tickets)(taken, left);
      assert TicketBefore(tickets, taken, left);
    }
  }
}

/** Terminal rooms, and the lifecycle invariant over whole runs. */
module LifecycleRuns {
  import opened Common
  import opened Outbox
  import opened Database
  import opened TicketStore
  import opened ResultStore
  import opened MatchmakingQueue
  import opened Lifecycle
  import opened LifecycleInvariant

  // ---------------------------------------------------------------------
  // Sessions
  // ---------------------------------------------------------------------

  /** Only statuses change, and an unfinished session may only start or finish. */
  ghost predicate SessionsEvolve(before: map<Id, Session>, after: map<Id, Session>) {
    && after.Keys == before.Keys
    && forall s :: s in before ==>
      && after[s] == before[s].(status := after[s].status)
      && (before[s].Finished() ==> after[s].Finished())
  }

  lemma SessionsStay(
    memberships: map<Id, Membership>, sessions: map<Id, Session>, ticketSessions: map<Id, Id>, after: map<Id, Session>)
    requires SessionsOk(memberships, sessions, ticketSessions) && SessionsEvolve(sessions, after)
    ensures SessionsOk(memberships, after, ticketSessions)
  {
  }

  lemma {:induction false} FinishSessionsLaws(sessions: map<Id, Session>, participants: seq<VerifiedParticipant>)
    ensures SessionsEvolve(sessions, FinishSessions(sessions, participants))
    ensures forall p :: p in participants && p.sessionId in sessions ==>
      FinishSessions(sessions, participants)[p.sessionId].Finished()
    decreases |participants|
  {
    if participants != [] {
      var next := FinishSession(sessions, participants[0]);
      FinishSessionsLaws(next, participants[1..]);
      assert SessionsEvolve(sessions, next);
      assert participants == [participants[0]] + participants[1..];
    }
  }

  lemma ForfeitSessionsLaws(sessions: map<Id, Session>, roomId: Id)
    ensures SessionsEvolve(sessions, ForfeitSessions(sessions, roomId))
    ensures forall s :: s in sessions && sessions[s].roomId == roomId ==>
      ForfeitSessions(sessions, roomId)[s].Finished()
  {
  }

  ghost function SessionIds(participants: seq<VerifiedParticipant>): set<Id> {
    set p | p in participants :: p.sessionId
  }

  lemma {:induction false} SessionIdsCount(participants: seq<VerifiedParticipant>)
    requires forall i, j :: 0 <= i < j < |participants| ==> participants[i].sessionId != participants[j].sessionId
    ensures |SessionIds(participants)| == |participants|
  {
    if participants != [] {
      var rest := participants[1..];
      SessionIdsCount(rest);
      assert participants == [participants[0]] + rest;
      assert SessionIds(participants) == SessionIds(rest) + {participants[0].sessionId};
      assert participants[0].sessionId !in SessionIds(rest);
    }
  }

  lemma EqualBySize(a: set<Id>, b: set<Id>)
    requires a <= b && |a| == |b|
    ensures a == b
  {
    var rest := b - a;
    assert b == a + rest;
  }

  /** A verified result names every session of its room. */
  lemma EverySessionNamed(
    sessions: map<Id, Session>, roomId: Id, participants: seq<VerifiedParticipant>, capacity: int, finishedAt: Time)
    requires ParticipantsMatch(sessions, roomId, participants, capacity, finishedAt)
    requires forall i, j :: 0 <= i < j < |participants| ==> participants[i].sessionId != participants[j].sessionId
    ensures forall s :: s in sessions && sessions[s].roomId == roomId ==>
      sessions[s].allocatedAt <= finishedAt && exists p :: p in participants && p.sessionId == s
  {
    SessionIdsCount(participants);
    forall s | s in SessionIds(participants) ensures s in RoomSessions(sessions, roomId) {
      var p :| p in participants && p.sessionId == s;
      assert ParticipantMatches(sessions, roomId, p, finishedAt);
    }
    EqualBySize(SessionIds(participants), RoomSessions(sessions, roomId));
    forall s | s in sessions && sessions[s].roomId == roomId
      ensures sessions[s].allocatedAt <= finishedAt && exists p :: p in participants && p.sessionId == s
    {
      assert s in RoomSessions(sessions, roomId);
      var p :| p in participants && p.sessionId == s;
      assert ParticipantMatches(sessions, roomId, p, finishedAt);
    }
  }

  // ---------------------------------------------------------------------
  // Rooms
  // ---------------------------------------------------------------------

  /** A collecting room's terminal transition. */
  ghost predicate Ends(before: Room, after: Room) {
    && before.status.Collecting? && after.Terminal()
    && after.profile == before.profile
    && after.version == before.version + 1
    && after.status.filledAt == before.status.filledAt
  }

  lemma RoomsAfterEnd(configs: Configs, rooms: map<Id, Room>, memberships: map<Id, Membership>, roomId: Id, after: Room)
    requires RoomsOk(configs, rooms, memberships) && roomId in rooms && Ends(rooms[roomId], after)
    ensures RoomsOk(configs, rooms[roomId := after], memberships)
  {
    hide SeatsExact, Members;
  }

  lemma PartitionAfterEnd(
    configs: Configs, tickets: map<Id, Ticket>, rooms: map<Id, Room>, memberships: map<Id, Membership>, roomId: Id,
    after: Room)
    requires PartitionOk(configs, tickets, rooms, memberships) && roomId in rooms
      && after.profile == rooms[roomId].profile
    ensures PartitionOk(configs, tickets, rooms[roomId := after], memberships)
  {
    hide SamePartition;
  }

  lemma TerminalAfterEnd(
    rooms: map<Id, Room>, sessions: map<Id, Session>, after: map<Id, Session>, roomId: Id, room: Room)
    requires TerminalOk(rooms, sessions) && SessionsEvolve(sessions, after)
    requires forall s :: s in sessions && sessions[s].roomId == roomId ==> after[s].Finished()
    ensures TerminalOk(rooms[roomId := room], after)
  {
  }

  /** The allocation that filled a room is one of its sessions'. */
  lemma FilledBySession(db: Db, roomId: Id) returns (s: Id)
    requires Inv(db) && roomId in db.rooms && !db.rooms[roomId].status.Forming?
    ensures s in db.sessions && db.sessions[s].roomId == roomId
    ensures db.sessions[s].allocatedAt == db.rooms[roomId].status.filledAt
  {
    hide TicketsOk, SeatedOk, AssignmentsOk, ResultsOk, TerminalOk, ShadowOk, ConfigsValid, OutboxOk, PartitionOk,
      SeatsExact;
    var t :| t in Members(db.memberships, roomId) && db.memberships[t].assignedAt == db.rooms[roomId].status.filledAt;
    s := db.ticketSessions[t];
    assert SessionMirrors(db.sessions[s], db.memberships[t]);
  }

  // ---------------------------------------------------------------------
  // Completion
  // ---------------------------------------------------------------------

  lemma ResultsAfterCompletion(
    rooms: map<Id, Room>, results: map<Id, ResultDigest>, roomResults: map<Id, Id>, roomId: Id, room: Room,
    digest: ResultDigest)
    requires ResultsOk(rooms, results, roomResults)
    requires roomId in rooms && rooms[roomId].status.Collecting? && room.status.Completed?
    requires digest.roomId == roomId && digest.eventId !in results
    ensures ResultsOk(rooms[roomId := room], results[digest.eventId := digest], roomResults[roomId := digest.eventId])
  {
  }

  lemma ShadowAfterCompletion(
    rooms: map<Id, Room>, results: map<Id, ResultDigest>, shadow: map<ShadowKey, ShadowItem>, roomId: Id, room: Room,
    digest: ResultDigest)
    requires ShadowOk(rooms, results, shadow)
    requires roomId in rooms && rooms[roomId].status.Collecting? && room.status.Completed?
    requires room.status.filledAt == rooms[roomId].status.filledAt <= digest.finishedAt <= digest.availableAt
    requires digest.roomId == roomId && digest.eventId !in results
    ensures ShadowOk(
      rooms[roomId := room], results[digest.eventId := digest],
      AddShadowWork(shadow, ShadowKey(ResultWork, digest.eventId), ShadowItem(digest.availableAt, 1)))
  {
  }

  /** What a successful finalization found. */
  ghost predicate FoundRoom(db: Db, c: FinalizeCommand, completionEventId: Id) {
    && c.roomId in db.rooms && db.rooms[c.roomId].status.Collecting?
    && c.eventId !in db.results
    && !EventRefused(db.outbox, completionEventId)
    && c.roomId != 0 && c.acceptedAt != 0
    && c.finishedAt <= c.availableAt
    && (forall s :: s in db.sessions && db.sessions[s].roomId == c.roomId ==>
      db.sessions[s].allocatedAt <= c.finishedAt && exists p :: p in c.participants && p.sessionId == s)
  }

  lemma FinalizeFound(db: Db, c: FinalizeCommand, completionEventId: Id)
    ensures Finalize(db, c, completionEventId).reply.Changed? ==>
      FoundRoom(db, c, completionEventId)
        && Finalize(db, c, completionEventId).db == CompleteRoom(db, c, completionEventId)
    ensures !Finalize(db, c, completionEventId).reply.Changed? ==> Finalize(db, c, completionEventId).db == db
  {
    hide CompleteRoom, EventRefused, ParticipantsMatch;
    if Finalize(db, c, completionEventId).reply.Changed? {
      var config := ConfigOf(db, db.rooms[c.roomId].profile).value;
      EverySessionNamed(db.sessions, c.roomId, c.participants, config.capacity, c.finishedAt);
    }
  }

  /** A finalization that reaches the room update never breaks the order of its
      timestamps: acceptance is never before the fill. */
  lemma AcceptanceAfterFill(db: Db, c: FinalizeCommand, completionEventId: Id)
    requires Inv(db)
    ensures Finalize(db, c, completionEventId).reply != Failed(ConstraintFailed)
  {
    hide Inv, CompleteRoom, EventRefused, ParticipantsMatch;
    if Finalize(db, c, completionEventId).reply == Failed(ConstraintFailed) {
      var config := ConfigOf(db, db.rooms[c.roomId].profile).value;
      EverySessionNamed(db.sessions, c.roomId, c.participants, config.capacity, c.finishedAt);
      var s := FilledBySession(db, c.roomId);
      assert false;
    }
  }

  lemma CompletedRoom(db: Db, c: FinalizeCommand, completionEventId: Id)
    requires FoundRoom(db, c, completionEventId)
    ensures var after := CompleteRoom(db, c, completionEventId);
      && c.roomId in after.rooms && Ends(db.rooms[c.roomId], after.rooms[c.roomId])
        && after.rooms[c.roomId].status.Completed?
      && after.rooms == db.rooms[c.roomId := after.rooms[c.roomId]]
      && after.outbox == db.outbox + [EventOf(
        completionEventId, AGGREGATE_ROOM, c.roomId, after.rooms[c.roomId].version, ROOM_COMPLETED, c.acceptedAt)]
  {
    hide FinishSessions, AddShadowWork, EventRefused;
  }

  lemma CompleteKeepsInv(db: Db, c: FinalizeCommand, completionEventId: Id)
    requires Inv(db) && FoundRoom(db, c, completionEventId)
    ensures Inv(CompleteRoom(db, c, completionEventId))
  {
    hide TicketsOk, SeatedOk, SessionsOk, AssignmentsOk, RoomsOk, ResultsOk, TerminalOk, ShadowOk, ConfigsValid,
      OutboxOk, PartitionOk;
    hide FinishSessions, AddShadowWork, EventRefused, SessionsEvolve, Ends;
    var after := CompleteRoom(db, c, completionEventId);
    CompletedRoom(db, c, completionEventId);
    var room := after.rooms[c.roomId];
    FinishSessionsLaws(db.sessions, c.participants);
    SessionsStay(db.memberships, db.sessions, db.ticketSessions, after.sessions);
    EndKeepsRooms(db, c.roomId, room, after.sessions);
    CompletionRecords(db, c, room);
    OutboxGrows(
      db.tickets, db.rooms, db.tickets, after.rooms, db.outbox,
      EventOf(completionEventId, AGGREGATE_ROOM, c.roomId, room.version, ROOM_COMPLETED, c.acceptedAt));
  }

  lemma CompletionRecords(db: Db, c: FinalizeCommand, room: Room)
    requires Inv(db) && c.roomId in db.rooms && Ends(db.rooms[c.roomId], room) && room.status.Completed?
    requires c.eventId !in db.results && c.finishedAt <= c.availableAt
    requires forall s :: s in db.sessions && db.sessions[s].roomId == c.roomId ==>
      db.sessions[s].allocatedAt <= c.finishedAt
    ensures ResultsOk(db.rooms[c.roomId := room], db.results[c.eventId := c.Digest()],
      db.roomResults[c.roomId := c.eventId])
    ensures ShadowOk(
      db.rooms[c.roomId := room], db.results[c.eventId := c.Digest()],
      AddShadowWork(db.shadow, ShadowKey(ResultWork, c.eventId), ShadowItem(c.availableAt, 1)))
  {
    hide TicketsOk, SeatedOk, SessionsOk, AssignmentsOk, RoomsOk, ResultsOk, TerminalOk, ShadowOk, ConfigsValid,
      OutboxOk, PartitionOk;
    hide AddShadowWork;
    var s := FilledBySession(db, c.roomId);
    ResultsAfterCompletion(db.rooms, db.results, db.roomResults, c.roomId, room, c.Digest());
    ShadowAfterCompletion(db.rooms, db.results, db.shadow, c.roomId, room, c.Digest());
  }

  /** The room side of any terminal transition. */
  lemma EndKeepsRooms(db: Db, roomId: Id, room: Room, sessions: map<Id, Session>)
    requires Inv(db) && roomId in db.rooms && Ends(db.rooms[roomId], room) && SessionsEvolve(db.sessions, sessions)
    requires forall s :: s in db.sessions && db.sessions[s].roomId == roomId ==> sessions[s].Finished()
    ensures RoomsOk(db.configs, db.rooms[roomId := room], db.memberships)
    ensures PartitionOk(db.configs, db.tickets, db.rooms[roomId := room], db.memberships)
    ensures TerminalOk(db.rooms[roomId := room], sessions)
    ensures VersionsGrow(db.tickets, db.rooms, db.tickets, db.rooms[roomId := room])
    ensures forall e: Event :: e.aggregateType == AGGREGATE_ROOM && e.aggregateId == roomId ==>
      CurrentVersion(db.tickets, db.rooms, e) < CurrentVersion(db.tickets, db.rooms[roomId := room], e) == room.version
  {
    hide TicketsOk, SeatedOk, SessionsOk, AssignmentsOk, RoomsOk, ResultsOk, TerminalOk, ShadowOk, ConfigsValid,
      OutboxOk, PartitionOk;
    hide SessionsEvolve;
    RoomsAfterEnd(db.configs, db.rooms, db.memberships, roomId, room);
    PartitionAfterEnd(db.configs, db.tickets, db.rooms, db.memberships, roomId, room);
    TerminalAfterEnd(db.rooms, db.sessions, sessions, roomId, room);
  }

  lemma FinalizeKeepsInv(db: Db, c: FinalizeCommand, completionEventId: Id)
    requires Inv(db)
    ensures Inv(Finalize(db, c, completionEventId).db)
  {
    hide *;
    FinalizeFound(db, c, completionEventId);
    if Finalize(db, c, completionEventId).reply.Changed? {
      CompleteKeepsInv(db, c, completionEventId);
    }
  }

  // ---------------------------------------------------------------------
  // Overdue rooms
  // ---------------------------------------------------------------------

  lemma OverdueRoom(db: Db, roomId: Id, at: Time, eventId: Id)
    requires Due(db, roomId, at)
    ensures var after := ExpireRoom(db, roomId, at, eventId);
      && roomId in after.rooms && Ends(db.rooms[roomId], after.rooms[roomId]) && after.rooms[roomId].status.Overdue?
      && after.rooms == db.rooms[roomId := after.rooms[roomId]]
      && after.outbox == db.outbox + [EventOf(
        eventId, AGGREGATE_ROOM, roomId, after.rooms[roomId].version, ROOM_EXPIRED, at)]
  {
    hide ForfeitSessions;
  }

  lemma ExpiryRecords(
    rooms: map<Id, Room>, results: map<Id, ResultDigest>, roomResults: map<Id, Id>, shadow: map<ShadowKey, ShadowItem>,
    roomId: Id, room: Room)
    requires ResultsOk(rooms, results, roomResults) && ShadowOk(rooms, results, shadow)
    requires roomId in rooms && Ends(rooms[roomId], room) && room.status.Overdue?
    ensures ResultsOk(rooms[roomId := room], results, roomResults) && ShadowOk(rooms[roomId := room], results, shadow)
  {
  }

  lemma RoomIdKnown(configs: Configs, rooms: map<Id, Room>, memberships: map<Id, Membership>, roomId: Id)
    requires RoomsOk(configs, rooms, memberships) && roomId in rooms
    ensures roomId != 0
  {
    hide RoomOk;
  }

  lemma ExpireRoomKeepsInv(db: Db, roomId: Id, at: Time, eventId: Id)
    requires Inv(db) && Due(db, roomId, at) && at != 0 && !EventRefused(db.outbox, eventId)
    ensures Inv(ExpireRoom(db, roomId, at, eventId))
  {
    hide TicketsOk, SeatedOk, SessionsOk, AssignmentsOk, RoomsOk, ResultsOk, TerminalOk, ShadowOk, ConfigsValid,
      OutboxOk, PartitionOk;
    hide ForfeitSessions, EventRefused, SessionsEvolve, Ends;
    var after := ExpireRoom(db, roomId, at, eventId);
    OverdueRoom(db, roomId, at, eventId);
    RoomIdKnown(db.configs, db.rooms, db.memberships, roomId);
    var room := after.rooms[roomId];
    ForfeitSessionsLaws(db.sessions, roomId);
    SessionsStay(db.memberships, db.sessions, db.ticketSessions, after.sessions);
    EndKeepsRooms(db, roomId, room, after.sessions);
    ExpiryRecords(db.rooms, db.results, db.roomResults, db.shadow, roomId, room);
    OutboxGrows(
      db.tickets, db.rooms, db.tickets, after.rooms, db.outbox,
      EventOf(eventId, AGGREGATE_ROOM, roomId, room.version, ROOM_EXPIRED, at));
  }

  lemma {:induction false} ExpireEachKeepsInv(db: Db, batch: seq<RoomExpiry>, at: Time)
    requires Inv(db) && at != 0 && ExpireEach(db, batch, at).Some?
    ensures Inv(ExpireEach(db, batch, at).value)
    decreases |batch|
  {
    hide Inv, ExpireRoom, Due, EventRefused;
    if batch != [] {
      ExpireRoomKeepsInv(db, batch[0].roomId, at, batch[0].eventId);
      ExpireEachKeepsInv(ExpireRoom(db, batch[0].roomId, at, batch[0].eventId), batch[1..], at);
    }
  }

  lemma ExpireDueKeepsInv(db: Db, batch: seq<RoomExpiry>, limit: int, at: Time)
    requires Inv(db)
    ensures Inv(ExpireDue(db, batch, limit, at))
  {
    hide Inv, ExpireEach, IsDueBatch;
    if ExpireRooms(db, batch, limit, at).reply.Changed? {
      ExpireEachKeepsInv(db, batch, at);
    }
  }

  // ---------------------------------------------------------------------
  // Outside steps
  // ---------------------------------------------------------------------

  lemma CreateKeepsInv(db: Db, roomId: Id, profile: RoomProfile)
    requires Inv(db)
    ensures Inv(Create(db, roomId, profile))
  {
    hide Inv;
    if Create(db, roomId, profile) != db {
      NewRoomFits(db, roomId, profile);
    }
  }

  lemma EmptyRoomOk(config: TournamentConfig, room: Room, memberships: map<Id, Membership>, roomId: Id)
    requires config.capacity > 0 && room.status.Forming? && room.version == 1
    requires forall t :: t in memberships ==> memberships[t].roomId != roomId
    ensures RoomOk(config, room, memberships, roomId)
  {
    assert Members(memberships, roomId) == {};
  }

  lemma NewRoomOk(configs: Configs, rooms: map<Id, Room>, memberships: map<Id, Membership>, roomId: Id, room: Room)
    requires ConfigsValid(configs) && RoomsOk(configs, rooms, memberships) && roomId !in rooms && roomId != 0
    requires (room.profile.tournamentId, room.profile.tournamentVersion) in configs
    requires room.status.Forming? && room.version == 1
    ensures RoomsOk(configs, rooms[roomId := room], memberships)
  {
    hide RoomOk;
    EmptyRoomOk(configs[(room.profile.tournamentId, room.profile.tournamentVersion)], room, memberships, roomId);
  }

  lemma NewRoomPartition(
    configs: Configs, tickets: map<Id, Ticket>, rooms: map<Id, Room>, memberships: map<Id, Membership>, roomId: Id,
    room: Room)
    requires PartitionOk(configs, tickets, rooms, memberships) && roomId !in rooms
    requires forall t :: t in memberships ==> memberships[t].roomId in rooms
    ensures PartitionOk(configs, tickets, rooms[roomId := room], memberships)
  {
    hide SamePartition;
  }

  lemma NewRoomRecords(
    rooms: map<Id, Room>, results: map<Id, ResultDigest>, roomResults: map<Id, Id>, sessions: map<Id, Session>,
    shadow: map<ShadowKey, ShadowItem>, roomId: Id, room: Room)
    requires ResultsOk(rooms, results, roomResults) && TerminalOk(rooms, sessions) && ShadowOk(rooms, results, shadow)
    requires roomId !in rooms && room.status.Forming?
    ensures ResultsOk(rooms[roomId := room], results, roomResults)
    ensures TerminalOk(rooms[roomId := room], sessions)
    ensures ShadowOk(rooms[roomId := room], results, shadow)
  {
  }

  lemma NewRoomFits(db: Db, roomId: Id, profile: RoomProfile)
    requires Inv(db) && roomId !in db.rooms && roomId != 0 && ConfigOf(db, profile).Some?
    ensures Inv(db.(rooms := db.rooms[roomId := Room(profile, Forming, 1)]))
  {
    hide TicketsOk, SeatedOk, SessionsOk, AssignmentsOk, RoomsOk, ResultsOk, TerminalOk, ShadowOk, ConfigsValid,
      OutboxOk, PartitionOk;
    var room := Room(profile, Forming, 1);
    var rooms := db.rooms[roomId := room];
    RoomsKnown(db);
    NewRoomOk(db.configs, db.rooms, db.memberships, roomId, room);
    NewRoomPartition(db.configs, db.tickets, db.rooms, db.memberships, roomId, room);
    NewRoomRecords(db.rooms, db.results, db.roomResults, db.sessions, db.shadow, roomId, room);
    OutboxStays(db.tickets, db.rooms, db.tickets, rooms, db.outbox);
  }

  lemma StartKeepsInv(db: Db, sessionId: Id)
    requires Inv(db)
    ensures Inv(Start(db, sessionId))
  {
    hide TicketsOk, SeatedOk, SessionsOk, AssignmentsOk, RoomsOk, ResultsOk, ShadowOk, ConfigsValid, OutboxOk,
      PartitionOk;
    var after := Start(db, sessionId);
    if after != db {
      assert SessionsEvolve(db.sessions, after.sessions);
      SessionsStay(db.memberships, db.sessions, db.ticketSessions, after.sessions);
    }
  }

  // ---------------------------------------------------------------------
  // Runs
  // ---------------------------------------------------------------------

  lemma StepKeepsInv(db: Db, step: Step)
    requires Inv(db)
    ensures Inv(Apply(db, step))
  {
    hide Inv, Create, Accept, Cancel, Expire, Assign, Finalize, ClaimDue, RetryTicket, Start, ExpireDue;
    match step
    case CreateRoom(roomId, profile) => CreateKeepsInv(db, roomId, profile);
    case AcceptStep(c) => AcceptKeepsInv(db, c);
    case CancelStep(c) => CancelKeepsInv(db, c);
    case ExpireStep(c, clock) => ExpireKeepsInv(db, c, clock);
    case AssignStep(c, clock) => AssignKeepsInv(db, c, clock);
    case FinalizeStep(c, completionEventId) => FinalizeKeepsInv(db, c, completionEventId);
    case ExpireRoomsStep(batch, limit, at) =>
      ExpireDueKeepsInv(db, batch, limit, at);
    case ClaimStep(tickets, limit, token, now, until) => ClaimKeepsInv(db, tickets, limit, token, now, until);
    case RetryStep(ticketId, token, retryAt, clock) => RetryKeepsInv(db, ticketId, token, retryAt, clock);
    case StartSession(sessionId) => StartKeepsInv(db, sessionId);
  }

  lemma {:induction false} RunKeepsInv(db: Db, steps: seq<Step>)
    requires Inv(db)
    ensures Inv(Run(db, steps))
    decreases |steps|
  {
    hide Inv, Apply;
    if steps != [] {
      StepKeepsInv(db, steps[0]);
      RunKeepsInv(Apply(db, steps[0]), steps[1..]);
    }
  }

  lemma EmptyIsInv(configs: Configs)
    requires ConfigsValid(configs)
    ensures Inv(Empty(configs))
  {
  }
}

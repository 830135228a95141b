/** What every reachable state of the lifecycle tables keeps. */
module Lifecycle {
  import opened Common
  import opened RatingTypes
  import opened Outbox
  import opened Database
  import opened TicketStore
  import opened ResultStore
  import opened MatchmakingQueue

  type Configs = map<(Id, Id), TournamentConfig>

  ghost predicate ConfigsValid(configs: Configs) {
    forall k :: k in configs ==>
      && MIN_ROOM_SIZE <= configs[k].capacity <= MAX_ROOM_SIZE
      && configs[k].resultTimeout > 0
      && configs[k].policy.Valid()
  }

  // ---------------------------------------------------------------------
  // The invariant, table by table
  // ---------------------------------------------------------------------

  /** Version one while queued, two afterwards; only queued tickets are scheduled
      or claimed. */
  ghost predicate TicketOk(t: Ticket) {
    && t.version == (if t.status.Queued? then 1 else 2)
    && (t.status.Queued? <==> t.nextAttemptAt.Some?)
    && (t.claim.Some? ==> t.status.Queued?)
  }

  ghost predicate TicketsOk(tickets: map<Id, Ticket>, entries: map<Id, Id>) {
    && (forall t :: t in tickets ==>
      && t != 0 && TicketOk(tickets[t])
      && tickets[t].profile.entryId in entries && entries[tickets[t].profile.entryId] == t)
    && (forall e :: e in entries ==> entries[e] in tickets && tickets[entries[e]].profile.entryId == e)
  }

  /** A ticket is assigned exactly when it has its one membership. */
  ghost predicate SeatedOk(tickets: map<Id, Ticket>, memberships: map<Id, Membership>) {
    && (forall t :: t in memberships ==>
      && t in tickets
      && tickets[t].status == Assigned(memberships[t].assignedAt)
      && tickets[t].profile.playerId == memberships[t].playerId
      && memberships[t].digest.ticketId == t
      && memberships[t].digest.roomId == memberships[t].roomId)
    && (forall t :: t in tickets && tickets[t].status.Assigned? ==> t in memberships)
  }

  /** Every membership has its one session, and the other way round. */
  ghost predicate SessionsOk(
      memberships: map<Id, Membership>, sessions: map<Id, Session>, ticketSessions: map<Id, Id>) {
    && ticketSessions.Keys == memberships.Keys
    && (forall t :: t in memberships ==>
      && ticketSessions[t] == memberships[t].digest.sessionId
      && ticketSessions[t] in sessions && sessions[ticketSessions[t]].ticketId == t)
    && (forall s :: s in sessions ==>
      && sessions[s].ticketId in memberships && ticketSessions[sessions[s].ticketId] == s
      && SessionMirrors(sessions[s], memberships[sessions[s].ticketId]))
  }

  ghost predicate SessionMirrors(session: Session, membership: Membership) {
    && session.roomId == membership.roomId && session.playerId == membership.playerId
    && session.seat == membership.seat && session.allocatedAt == membership.assignedAt
  }

  ghost predicate AssignmentsOk(memberships: map<Id, Membership>, assignments: map<Id, Id>) {
    && (forall a :: a in assignments ==>
      assignments[a] in memberships && memberships[assignments[a]].digest.assignmentId == a)
    && (forall t :: t in memberships ==>
      memberships[t].digest.assignmentId in assignments && assignments[memberships[t].digest.assignmentId] == t)
  }

  /** The seats of a room are exactly 1..n, one per member, for different players. */
  ghost predicate SeatsExact(memberships: map<Id, Membership>, roomId: Id, n: nat) {
    && |Members(memberships, roomId)| == n
    && (forall t :: t in Members(memberships, roomId) ==> 1 <= memberships[t].seat <= n)
    && (forall s :: 1 <= s <= n ==> s in Seats(memberships, roomId))
    && (forall t, u :: t in Members(memberships, roomId) && u in Members(memberships, roomId) && t != u ==>
      memberships[t].seat != memberships[u].seat && memberships[t].playerId != memberships[u].playerId)
  }

  /** A room has left forming exactly when it is full, and its version counts its
      members and its terminal transition. */
  ghost predicate RoomOk(config: TournamentConfig, room: Room, memberships: map<Id, Membership>, roomId: Id) {
    var n := |Members(memberships, roomId)|;
    && SeatsExact(memberships, roomId, n)
    && n <= config.capacity
    && (room.status.Forming? <==> n < config.capacity)
    && room.version == 1 + n + (if room.Terminal() then 1 else 0)
    && (!room.status.Forming? ==>
      exists t :: t in Members(memberships, roomId) && memberships[t].assignedAt == room.status.filledAt)
  }

  ghost predicate RoomsOk(configs: Configs, rooms: map<Id, Room>, memberships: map<Id, Membership>) {
    && (forall r :: r in rooms ==>
      && r != 0
      && (rooms[r].profile.tournamentId, rooms[r].profile.tournamentVersion) in configs
      && RoomOk(configs[(rooms[r].profile.tournamentId, rooms[r].profile.tournamentVersion)], rooms[r], memberships, r))
    && (forall t :: t in memberships ==> memberships[t].roomId in rooms)
  }

  /** Members hold tickets of their room's tournament and rating model. */
  ghost predicate PartitionOk(
      configs: Configs, tickets: map<Id, Ticket>, rooms: map<Id, Room>, memberships: map<Id, Membership>) {
    forall t :: t in memberships && t in tickets && memberships[t].roomId in rooms ==>
      SamePartition(configs, tickets[t].profile, rooms[memberships[t].roomId].profile)
  }

  ghost predicate SamePartition(configs: Configs, ticket: TicketProfile, room: RoomProfile) {
    && ticket.tournamentId == room.tournamentId && ticket.tournamentVersion == room.tournamentVersion
    && (room.tournamentId, room.tournamentVersion) in configs
    && configs[(room.tournamentId, room.tournamentVersion)].policy.ratingModelVersion == ticket.rating.modelVersion
  }

  /** A room has a stored result exactly when it is completed. */
  ghost predicate ResultsOk(rooms: map<Id, Room>, results: map<Id, ResultDigest>, roomResults: map<Id, Id>) {
    && (forall e :: e in results ==>
      && results[e].eventId == e && results[e].roomId in rooms && rooms[results[e].roomId].status.Completed?
      && results[e].roomId in roomResults && roomResults[results[e].roomId] == e)
    && (forall r :: r in roomResults ==> roomResults[r] in results && results[roomResults[r]].roomId == r)
    && (forall r :: r in rooms && rooms[r].status.Completed? ==> r in roomResults)
  }

  /** Nobody is still playing in a terminal room. */
  ghost predicate TerminalOk(rooms: map<Id, Room>, sessions: map<Id, Session>) {
    forall s :: s in sessions && sessions[s].roomId in rooms && rooms[sessions[s].roomId].Terminal() ==>
      sessions[s].Finished()
  }

  /** The current version of the aggregate an event belongs to; zero if unknown. */
  ghost function CurrentVersion(tickets: map<Id, Ticket>, rooms: map<Id, Room>, e: Event): nat {
    if e.aggregateType == AGGREGATE_TICKET && e.aggregateId in tickets then tickets[e.aggregateId].version
    else if e.aggregateType == AGGREGATE_ROOM && e.aggregateId in rooms then rooms[e.aggregateId].version
    else 0
  }

  /** Events have distinct identities, never run ahead of their aggregate, and are
      emitted in strictly increasing version per aggregate. */
  ghost predicate OutboxOk(tickets: map<Id, Ticket>, rooms: map<Id, Room>, outbox: seq<Event>) {
    && (forall i :: 0 <= i < |outbox| ==>
      outbox[i].Valid() && outbox[i].version <= CurrentVersion(tickets, rooms, outbox[i]))
    && (forall i, j :: 0 <= i < j < |outbox| ==> outbox[i].eventId != outbox[j].eventId)
    && (forall i, j :: 0 <= i < j < |outbox| && outbox[i].SameAggregate(outbox[j]) ==>
      outbox[i].version < outbox[j].version)
  }

  /** Rating shadow work: a filled room's item sits at its fill time, a result's
      item at its availability, which is never earlier. */
  ghost predicate ShadowOk(rooms: map<Id, Room>, results: map<Id, ResultDigest>, shadow: map<ShadowKey, ShadowItem>) {
    && (forall r :: r in rooms ==> (ShadowKey(RoomWork, r) in shadow <==> !rooms[r].status.Forming?))
    && (forall r :: r in rooms && !rooms[r].status.Forming? ==>
      shadow[ShadowKey(RoomWork, r)] == ShadowItem(rooms[r].status.filledAt, 0))
    && (forall k :: k in shadow && k.kind.RoomWork? ==> k.sourceId in rooms)
    && (forall e :: (ShadowKey(ResultWork, e) in shadow <==> e in results))
    && (forall e :: e in results ==>
      && shadow[ShadowKey(ResultWork, e)] == ShadowItem(results[e].availableAt, 1)
      && results[e].roomId in rooms && !rooms[results[e].roomId].status.Forming?
      && rooms[results[e].roomId].status.filledAt <= results[e].finishedAt <= results[e].availableAt)
  }

  ghost predicate Inv(db: Db) {
    && ConfigsValid(db.configs)
    && TicketsOk(db.tickets, db.entries)
    && SeatedOk(db.tickets, db.memberships)
    && SessionsOk(db.memberships, db.sessions, db.ticketSessions)
    && AssignmentsOk(db.memberships, db.assignments)
    && RoomsOk(db.configs, db.rooms, db.memberships)
    && PartitionOk(db.configs, db.tickets, db.rooms, db.memberships)
    && ResultsOk(db.rooms, db.results, db.roomResults)
    && TerminalOk(db.rooms, db.sessions)
    && OutboxOk(db.tickets, db.rooms, db.outbox)
    && ShadowOk(db.rooms, db.results, db.shadow)
  }

  // ---------------------------------------------------------------------
  // Steps
  // ---------------------------------------------------------------------

  /** What clients, workers and the game backend may do next, at any time and
      with any clock. Rooms are created empty; sessions start outside. */
  datatype Step =
    | CreateRoom(roomId: Id, profile: RoomProfile)
    | AcceptStep(accept: AcceptCommand)
    | CancelStep(cancel: CancelCommand)
    | ExpireStep(expire: ExpireCommand, clock: Time)
    | AssignStep(assign: AssignCommand, clock: Time)
    | FinalizeStep(finalize: FinalizeCommand, completionEventId: Id)
    | ExpireRoomsStep(batch: seq<RoomExpiry>, limit: int, at: Time)
    | ClaimStep(tickets: set<Id>, claimLimit: int, token: Id, now: Time, until: Time)
    | RetryStep(ticketId: Id, retryToken: Id, retryAt: Time, clock: Time)
    | StartSession(sessionId: Id)

  function Create(db: Db, roomId: Id, profile: RoomProfile): Db {
    if roomId == 0 || roomId in db.rooms || ConfigOf(db, profile).None? || profile.fillDeadline <= profile.createdAt
    then db
    else db.(rooms := db.rooms[roomId := Room(profile, Forming, 1)])
  }

  function Start(db: Db, sessionId: Id): Db {
    if sessionId in db.sessions && db.sessions[sessionId].status.Allocated?
    then db.(sessions := db.sessions[sessionId := db.sessions[sessionId].(status := Playing)])
    else db
  }

  function ClaimDue(db: Db, batch: set<Id>, limit: int, token: Id, now: Time, until: Time): Db {
    if token == 0 || limit <= 0 || until <= now || !IsTicketBatch(db.tickets, batch, limit, now) then db
    else db.(tickets := ClaimTickets(db.tickets, batch, token, until))
  }

  function ExpireDue(db: Db, batch: seq<RoomExpiry>, limit: int, at: Time): Db {
    if IsDueBatch(db, batch, limit, at) then ExpireRooms(db, batch, limit, at).db else db
  }

  function Apply(db: Db, step: Step): Db {
    match step
    case CreateRoom(roomId, profile) => Create(db, roomId, profile)
    case AcceptStep(c) => Accept(db, c).db
    case CancelStep(c) => Cancel(db, c).db
    case ExpireStep(c, clock) => Expire(db, c, clock).db
    case AssignStep(c, clock) => Assign(db, c, clock).db
    case FinalizeStep(c, completionEventId) => Finalize(db, c, completionEventId).db
    case ExpireRoomsStep(batch, limit, at) => ExpireDue(db, batch, limit, at)
    case ClaimStep(tickets, limit, token, now, until) => ClaimDue(db, tickets, limit, token, now, until)
    case RetryStep(ticketId, token, retryAt, clock) => RetryTicket(db, ticketId, token, retryAt, clock).db
    case StartSession(sessionId) => Start(db, sessionId)
  }

  function Run(db: Db, steps: seq<Step>): Db
    decreases |steps|
  {
    if steps == [] then db else Run(Apply(db, steps[0]), steps[1..])
  }

  /** Empty tables over given tournament configurations. */
  function Empty(configs: Configs): Db {
    Db(configs, map[], map[], map[], map[], map[], map[], map[], map[], map[], map[], [], map[])
  }
}

/** The lifecycle tables: tickets, rooms, memberships, sessions, results and
    their outbox events. */
module Database {
  import opened Common
  import opened RatingTypes
  import opened MatchTypes
  import opened Canonical
  import opened Outbox

  const AGGREGATE_TICKET: Id := 1
  const AGGREGATE_ROOM: Id := 2

  const TICKET_ACCEPTED: Id := 1
  const TICKET_CANCELLED: Id := 2
  const TICKET_EXPIRED: Id := 3
  const TICKET_ASSIGNED: Id := 4
  const ROOM_FILLED: Id := 5
  const ROOM_COMPLETED: Id := 6
  const ROOM_EXPIRED: Id := 7

  // ---------------------------------------------------------------------
  // Rows. What never changes after insertion is grouped in a profile.
  // ---------------------------------------------------------------------

  /** The accepted request; its encoding is also its digest. */
  datatype TicketProfile = TicketProfile(
    entryId: Id,
    playerId: Id,
    tournamentId: Id,
    tournamentVersion: Id,
    requestedAt: Time,
    snapshotAt: Time,
    rating: Estimate)

  datatype TicketStatus = Queued | Assigned(assignedAt: Time) | Cancelled(cancelledAt: Time) | Expired(expiredAt: Time)

  datatype TicketClaim = TicketClaim(token: Id, until: Time)

  datatype Ticket = Ticket(
    profile: TicketProfile,
    status: TicketStatus,
    version: nat,
    nextAttemptAt: Option<Time>,
    claim: Option<TicketClaim>,
    attempts: nat)
  {
    predicate OwnedBy(token: Id, clock: Time) {
      claim.Some? && claim.value.token == token && claim.value.until > clock
    }

    /** A terminal ticket: it leaves the queue, its schedule and its claim. */
    function Left(next: TicketStatus): Ticket {
      this.(status := next, version := version + 1, nextAttemptAt := None, claim := None)
    }
  }

  datatype TournamentConfig = TournamentConfig(
    modeId: Id,
    capacity: int,
    scoringRulesVersion: Id,
    resultTimeout: Duration,
    policy: Policy)

  datatype RoomProfile = RoomProfile(
    tournamentId: Id,
    tournamentVersion: Id,
    deckId: Id,
    createdAt: Time,
    fillDeadline: Time)

  datatype RoomStatus =
    | Forming
    | Collecting(filledAt: Time, resultDeadline: Time)
    | Completed(filledAt: Time, resultDeadline: Time, completedAt: Time)
    | Overdue(filledAt: Time, resultDeadline: Time, expiredAt: Time)

  datatype Room = Room(profile: RoomProfile, status: RoomStatus, version: nat) {
    predicate Terminal() {
      status.Completed? || status.Overdue?
    }
  }

  datatype AssignmentDigest = AssignmentDigest(
      assignmentId: Id, ticketId: Id, roomId: Id, roomVersion: int, sessionId: Id)

  datatype Membership = Membership(
    roomId: Id,
    playerId: Id,
    seat: int,
    assignedAt: Time,
    digest: AssignmentDigest,
    ticketVersion: nat,
    roomVersion: nat,
    resultDeadline: Option<Time>)

  datatype SessionStatus = Allocated | Playing | Submitted | Forfeited

  datatype Session = Session(
      ticketId: Id, roomId: Id, playerId: Id, seat: int, allocatedAt: Time, status: SessionStatus) {
    predicate Finished() {
      status.Submitted? || status.Forfeited?
    }
  }

  datatype CommandDigest = CancelDigest | ExpireDigest(deadline: Time)

  datatype VerifiedParticipant = VerifiedParticipant(sessionId: Id, playerId: Id, place: int, features: Features)

  function ByVerifiedPlayer(p: VerifiedParticipant): Id {
    p.playerId
  }

  /** The canonical request of a result, with its participants sorted. */
  datatype ResultDigest = ResultDigest(
    eventId: Id,
    roomId: Id,
    modeId: Id,
    deckId: Id,
    scoringRulesVersion: Id,
    finishedAt: Time,
    availableAt: Time,
    participants: seq<VerifiedParticipant>)

  datatype WorkKind = RoomWork | ResultWork

  datatype ShadowKey = ShadowKey(kind: WorkKind, sourceId: Id)

  datatype ShadowItem = ShadowItem(position: Time, priority: int)

  /** The tables, with the unique indexes that the statements look rows up by:
      entries and assignments by their identities, a ticket's session, and a
      room's result. */
  datatype Db = Db(
    configs: map<(Id, Id), TournamentConfig>,
    tickets: map<Id, Ticket>,
    entries: map<Id, Id>,
    commands: map<(Id, Id), CommandDigest>,
    rooms: map<Id, Room>,
    memberships: map<Id, Membership>,
    assignments: map<Id, Id>,
    sessions: map<Id, Session>,
    ticketSessions: map<Id, Id>,
    results: map<Id, ResultDigest>,
    roomResults: map<Id, Id>,
    outbox: seq<Event>,
    shadow: map<ShadowKey, ShadowItem>)

  // ---------------------------------------------------------------------
  // Lookups
  // ---------------------------------------------------------------------

  /** The tickets seated in a room. */
  function Members(memberships: map<Id, Membership>, roomId: Id): set<Id> {
    set t | t in memberships && memberships[t].roomId == roomId
  }

  function Seats(memberships: map<Id, Membership>, roomId: Id): set<int> {
    set t | t in memberships && memberships[t].roomId == roomId :: memberships[t].seat
  }

  predicate PlayerSeated(memberships: map<Id, Membership>, roomId: Id, playerId: Id) {
    exists t | t in memberships :: memberships[t].roomId == roomId && memberships[t].playerId == playerId
  }

  /** The outbox insert fails: no identity, or one that was used before. */
  predicate EventRefused(outbox: seq<Event>, eventId: Id) {
    eventId == 0 || exists e | e in outbox :: e.eventId == eventId
  }

  function ConfigOf(db: Db, profile: RoomProfile): Option<TournamentConfig> {
    var key := (profile.tournamentId, profile.tournamentVersion);
    if key in db.configs then Some(db.configs[key]) else None
  }

  function RoomSessions(sessions: map<Id, Session>, roomId: Id): set<Id> {
    set s | s in sessions && sessions[s].roomId == roomId
  }

  // ---------------------------------------------------------------------
  // Commands and replies
  // ---------------------------------------------------------------------

  datatype CommandError =
    | InvalidCommand
    | IdempotencyConflict
    | TournamentNotFound
    | TicketNotFound
    | TicketNotQueued
    | RoomNotAvailable
    | AssignmentConflict
    | TicketClaimLost
    | ResultConflict
    | ResultRoomNotFound
    | ResultRoomNotCollecting
    | ResultDeadlinePassed
    | ResultParticipantsMismatch
    | ConstraintFailed

  datatype Reply = Changed | Unchanged | Replayed | Failed(error: CommandError)

  /** A transaction's effect; anything but a commit leaves the tables as found. */
  datatype Change = Change(db: Db, reply: Reply)

  function Fail(db: Db, error: CommandError): Change {
    Change(db, Failed(error))
  }

  datatype AcceptCommand = AcceptCommand(ticketId: Id, profile: TicketProfile, eventId: Id) {
    predicate Valid() {
      && ticketId != 0 && profile.entryId != 0 && profile.playerId != 0
      && profile.tournamentId != 0 && profile.tournamentVersion != 0 && eventId != 0
      && profile.requestedAt != 0 && profile.snapshotAt != 0 && profile.snapshotAt <= profile.requestedAt
      && profile.rating.Valid() && profile.rating.updatedAt <= profile.snapshotAt
    }
  }

  datatype CancelCommand = CancelCommand(ticketId: Id, commandId: Id, eventId: Id, cancelledAt: Time) {
    predicate Valid() {
      ticketId != 0 && commandId != 0 && eventId != 0 && cancelledAt != 0
    }
  }

  datatype ExpireCommand = ExpireCommand(
    ticketId: Id, commandId: Id, eventId: Id, claimToken: Id, deadline: Time, expiredAt: Time)
  {
    predicate Valid() {
      && ticketId != 0 && commandId != 0 && eventId != 0 && claimToken != 0
      && deadline != 0 && expiredAt != 0 && deadline <= expiredAt
    }
  }

  datatype AssignCommand = AssignCommand(
    assignmentId: Id,
    ticketId: Id,
    roomId: Id,
    expectedRoomVersion: int,
    sessionId: Id,
    ticketEventId: Id,
    roomFilledEventId: Id,
    assignedAt: Time,
    claimToken: Id)
  {
    predicate Valid() {
      && assignmentId != 0 && ticketId != 0 && roomId != 0 && sessionId != 0
      && ticketEventId != 0 && roomFilledEventId != 0
      && expectedRoomVersion > 0 && assignedAt != 0
    }

    function Digest(): AssignmentDigest {
      AssignmentDigest(assignmentId, ticketId, roomId, expectedRoomVersion, sessionId)
    }
  }

  datatype FinalizeCommand = FinalizeCommand(
    eventId: Id,
    roomId: Id,
    modeId: Id,
    deckId: Id,
    scoringRulesVersion: Id,
    finishedAt: Time,
    availableAt: Time,
    acceptedAt: Time,
    participants: seq<VerifiedParticipant>)
  {
    function MatchResult(): MatchResult {
      RatingTypes.MatchResult(
        eventId, roomId, modeId, deckId, scoringRulesVersion, finishedAt, availableAt,
        seq(|participants|, i requires 0 <= i < |participants| =>
          ParticipantResult(participants[i].playerId, participants[i].place, participants[i].features)))
    }

    predicate Valid() {
      && acceptedAt != 0 && availableAt <= acceptedAt
      && MatchResult().Valid()
      && (forall p :: p in participants ==> p.sessionId != 0)
      && (forall i, j :: 0 <= i < j < |participants| ==> participants[i].sessionId != participants[j].sessionId)
    }

    function Digest(): ResultDigest {
      ResultDigest(
        eventId, roomId, modeId, deckId, scoringRulesVersion, finishedAt, availableAt,
        SortBy(ByVerifiedPlayer, participants))
    }
  }
}

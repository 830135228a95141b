/** Rooms filled by the matching workers are fair, although a worker reads the
    rooms and their members in two separate statements. */
module FairAssignment {
  import opened Common
  import opened RatingTypes
  import opened MatchTypes
  import opened Eligibility
  import opened Selector
  import opened Orchestration
  import opened Database
  import opened TicketStore
  import ResultStore
  import MatchmakingQueue
  import opened Lifecycle
  import opened LifecycleInvariant
  import opened LifecycleRuns
  import opened LifecycleLaws

  /** The matching model of a rating model version. */
  type Predictors = Id -> Predictor

  // ---------------------------------------------------------------------
  // The two reads
  // ---------------------------------------------------------------------

  /** What the first statement returns of one room. */
  datatype RoomHeader = RoomHeader(roomId: Id, version: int, createdAt: Time, deadline: Time)

  /** The first read: rooms without their members. `at` is the state it saw. */
  ghost predicate Compatible(db: Db, ticket: TicketProfile, evaluatedAt: Time, roomId: Id) {
    && roomId in db.rooms
    && db.rooms[roomId].profile.tournamentId == ticket.tournamentId
    && db.rooms[roomId].profile.tournamentVersion == ticket.tournamentVersion
    && db.rooms[roomId].status.Forming?
    && evaluatedAt <= db.rooms[roomId].profile.fillDeadline
  }

  ghost function HeaderOf(db: Db, roomId: Id): RoomHeader
    requires roomId in db.rooms
  {
    RoomHeader(
      roomId, db.rooms[roomId].version, db.rooms[roomId].profile.createdAt, db.rooms[roomId].profile.fillDeadline)
  }

  ghost predicate Older(a: RoomHeader, b: RoomHeader) {
    a.createdAt < b.createdAt || (a.createdAt == b.createdAt && a.roomId < b.roomId)
  }

  /** The oldest compatible rooms, as many as the policy allows, oldest first. */
  ghost predicate IsHeaderList(db: Db, ticket: TicketProfile, evaluatedAt: Time, limit: int, headers: seq<RoomHeader>) {
    && |headers| <= limit
    && (forall i :: 0 <= i < |headers| ==>
      Compatible(db, ticket, evaluatedAt, headers[i].roomId) && headers[i] == HeaderOf(db, headers[i].roomId))
    && (forall i, j :: 0 <= i < j < |headers| ==> Older(headers[i], headers[j]))
    && (forall r :: Compatible(db, ticket, evaluatedAt, r) && HeaderOf(db, r) !in headers ==>
      |headers| == limit && forall i :: 0 <= i < |headers| ==> Older(headers[i], HeaderOf(db, r)))
  }

  function CandidateOf(ticketId: Id, profile: TicketProfile): Candidate {
    Candidate(ticketId, profile.playerId, profile.requestedAt, profile.snapshotAt, profile.rating)
  }

  ghost predicate SitsAt(db: Db, roomId: Id, ticketId: Id, seat: int, c: Candidate) {
    && ticketId in Members(db.memberships, roomId) && ticketId in db.tickets
    && db.memberships[ticketId].seat == seat
    && c == CandidateOf(ticketId, db.tickets[ticketId].profile)
  }

  /** The second read, for one room: its members in seat order. */
  ghost predicate IsMemberList(db: Db, roomId: Id, members: seq<Candidate>) {
    && |members| == |Members(db.memberships, roomId)|
    && forall i :: 0 <= i < |members| ==> SitsAt(db, roomId, members[i].ticketId, i + 1, members[i])
  }

  datatype RoomsRead = RoomsRead(
      ticketId: Id, evaluatedAt: Time, config: TournamentConfig, headers: seq<RoomHeader>, at: Db)

  datatype MembersRead = MembersRead(first: RoomsRead, members: seq<seq<Candidate>>, at: Db)

  ghost predicate ReadsRooms(db: Db, v: RoomsRead) {
    && v.at == db
    && v.ticketId in db.tickets
    && var profile := db.tickets[v.ticketId].profile;
    && (profile.tournamentId, profile.tournamentVersion) in db.configs
    && v.config == db.configs[(profile.tournamentId, profile.tournamentVersion)]
    && v.config.policy.ratingModelVersion == profile.rating.modelVersion
    && IsHeaderList(db, profile, v.evaluatedAt, v.config.policy.roomLimit, v.headers)
  }

  ghost predicate ReadsMembers(db: Db, m: MembersRead) {
    && m.at == db
    && |m.members| == |m.first.headers|
    && forall i :: 0 <= i < |m.members| ==> IsMemberList(db, m.first.headers[i].roomId, m.members[i])
  }

  function ViewOf(v: RoomsRead, header: RoomHeader, members: seq<Candidate>): RoomView {
    RoomView(
      header.roomId, v.config.modeId, header.version, v.config.capacity, header.createdAt, header.deadline,
      v.config.policy, members)
  }

  /** The attempt the worker evaluates, pieced together from both reads. */
  ghost function AttemptOf(m: MembersRead): MatchAttempt
    requires |m.members| == |m.first.headers| && m.first.ticketId in m.first.at.tickets
  {
    MatchAttempt(
      PeriodicRetry, m.first.evaluatedAt,
      CandidateOf(m.first.ticketId, m.first.at.tickets[m.first.ticketId].profile),
      m.first.config.policy,
      seq(|m.members|, i requires 0 <= i < |m.members| => ViewOf(m.first, m.first.headers[i], m.members[i])))
  }

  // ---------------------------------------------------------------------
  // Workers
  // ---------------------------------------------------------------------

  /** The tables, and every read a worker may still act on. */
  datatype World = World(db: Db, firstReads: set<RoomsRead>, secondReads: set<MembersRead>)

  datatype WorkerStep =
    | Other(step: Step)
    | ReadRooms(first: RoomsRead)
    | ReadMembers(second: MembersRead)
    | AssignScored(scored: MembersRead, command: AssignCommand, clock: Time)

  /** The command a worker sends for its selection; identities and claim tokens
      are arbitrary. */
  ghost predicate IsCommandFor(predictors: Predictors, m: MembersRead, c: AssignCommand)
    requires |m.members| == |m.first.headers| && m.first.ticketId in m.first.at.tickets
  {
    var result := Attempt(predictors(m.first.config.policy.ratingModelVersion), AttemptOf(m));
    && result.Ok? && result.value.Matched?
    && c.ticketId == m.first.ticketId
    && c.roomId == result.value.selection.roomId
    && c.expectedRoomVersion == result.value.selection.roomVersion
    && c.assignedAt == m.first.evaluatedAt
  }

  ghost predicate Enabled(predictors: Predictors, w: World, step: WorkerStep) {
    match step
    case Other(s) => !s.AssignStep?
    case ReadRooms(v) => ReadsRooms(w.db, v)
    case ReadMembers(m) => m.first in w.firstReads && ReadsMembers(w.db, m)
    case AssignScored(m, c, _) =>
      && m in w.secondReads
      && |m.members| == |m.first.headers| && m.first.ticketId in m.first.at.tickets
      && IsCommandFor(predictors, m, c)
  }

  ghost function Next(w: World, step: WorkerStep): World {
    match step
    case Other(s) => w.(db := Apply(w.db, s))
    case ReadRooms(v) => w.(firstReads := w.firstReads + {v})
    case ReadMembers(m) => w.(secondReads := w.secondReads + {m})
    case AssignScored(_, c, clock) => w.(db := Assign(w.db, c, clock).db)
  }

  ghost predicate CanRun(predictors: Predictors, w: World, steps: seq<WorkerStep>)
    decreases |steps|
  {
    steps == [] || (Enabled(predictors, w, steps[0]) && CanRun(predictors, Next(w, steps[0]), steps[1..]))
  }

  ghost function RunWorkers(w: World, steps: seq<WorkerStep>): World
    decreases |steps|
  {
    if steps == [] then w else RunWorkers(Next(w, steps[0]), steps[1..])
  }

  // ---------------------------------------------------------------------
  // Versions pin the members
  // ---------------------------------------------------------------------

  lemma SubsetBySize(a: set<Id>, b: set<Id>)
    requires a <= b && |b| <= |a|
    ensures a == b
  {
    var rest := b - a;
    assert b == a + rest;
  }

  lemma MembersGrow(before: Db, after: Db, r: Id)
    requires Persists(before, after)
    ensures Members(before.memberships, r) <= Members(after.memberships, r)
  {
    hide TicketsPersist, RoomsPersist;
  }

  /** A room's own part of the invariant. */
  lemma RoomPart(db: Db, r: Id)
    requires Inv(db) && r in db.rooms
    ensures ConfigOf(db, db.rooms[r].profile).Some?
    ensures RoomOk(ConfigOf(db, db.rooms[r].profile).value, db.rooms[r], db.memberships, r)
    ensures ConfigOf(db, db.rooms[r].profile).value.capacity > 0
  {
    hide TicketsOk, SeatedOk, SessionsOk, AssignmentsOk, ResultsOk, TerminalOk, ShadowOk, OutboxOk, PartitionOk, RoomOk;
  }

  lemma RoomKept(before: Db, after: Db, r: Id)
    requires Persists(before, after) && r in before.rooms
    ensures r in after.rooms && after.rooms[r].profile == before.rooms[r].profile
    ensures before.rooms[r].version <= after.rooms[r].version && FillKept(before.rooms[r], after.rooms[r])
    ensures before.rooms[r].Terminal() ==> after.rooms[r] == before.rooms[r]
    ensures ConfigOf(after, after.rooms[r].profile) == ConfigOf(before, before.rooms[r].profile)
  {
    hide Kept, TicketsPersist;
  }

  /** Equal versions of a room mean equal members. */
  lemma SameVersionSameMembers(before: Db, after: Db, r: Id)
    requires Inv(before) && Inv(after) && Persists(before, after)
    requires r in before.rooms && r in after.rooms && after.rooms[r].version == before.rooms[r].version
    ensures Members(after.memberships, r) == Members(before.memberships, r)
  {
    hide Inv, Persists, SeatsExact, Members;
    RoomPart(before, r);
    RoomPart(after, r);
    RoomKept(before, after, r);
    MembersGrow(before, after, r);
    SubsetBySize(Members(before.memberships, r), Members(after.memberships, r));
  }

  /** A full room keeps its members for good. */
  lemma FullStaysFull(before: Db, after: Db, r: Id)
    requires Inv(before) && Inv(after) && Persists(before, after)
    requires r in before.rooms && !before.rooms[r].status.Forming?
    ensures r in after.rooms && Members(after.memberships, r) == Members(before.memberships, r)
  {
    hide Inv, Persists, SeatsExact, Members;
    RoomKept(before, after, r);
    RoomPart(before, r);
    RoomPart(after, r);
    MembersGrow(before, after, r);
    SubsetBySize(Members(before.memberships, r), Members(after.memberships, r));
  }

  lemma MemberListKept(before: Db, after: Db, r: Id, members: seq<Candidate>)
    requires Persists(before, after) && IsMemberList(before, r, members)
    requires Members(after.memberships, r) == Members(before.memberships, r)
    ensures IsMemberList(after, r, members)
  {
    hide RoomsPersist;
    forall i | 0 <= i < |members| ensures SitsAt(after, r, members[i].ticketId, i + 1, members[i]) {
      var t := members[i].ticketId;
      assert SitsAt(before, r, t, i + 1, members[i]);
      assert t in before.memberships;
      KeptAt(before.memberships, after.memberships, t);
    }
  }

  /** The seat taken is the next one, so the candidate joins the list at its end. */
  lemma MemberListGrows(db: Db, c: AssignCommand, members: seq<Candidate>)
    requires FoundSeat(db, c) && IsMemberList(db, c.roomId, members)
    ensures IsMemberList(
      Seat(db, c, NextSeatOf(db, c)), c.roomId, members + [CandidateOf(c.ticketId, db.tickets[c.ticketId].profile)])
  {
    var after := Seat(db, c, NextSeatOf(db, c));
    var row := SeatRow(db, c, NextSeatOf(db, c));
    var list := members + [CandidateOf(c.ticketId, db.tickets[c.ticketId].profile)];
    hide SeatedRoom, SeatSession, SeatedEvent, FilledEvent, AddShadowWork, PlayerSeated, EventRefused, SamePartition,
      Fills;
    MembersAfter(db.memberships, c.ticketId, row);
    forall i | 0 <= i < |list| ensures SitsAt(after, c.roomId, list[i].ticketId, i + 1, list[i]) {
      if i < |members| {
        assert SitsAt(db, c.roomId, members[i].ticketId, i + 1, members[i]);
      }
    }
  }

  // ---------------------------------------------------------------------
  // Fair rooms
  // ---------------------------------------------------------------------

  /** The view shows the room as stored: its configuration and its members. */
  ghost predicate Shows(db: Db, r: Id, room: RoomView) {
    && r in db.rooms && ConfigOf(db, db.rooms[r].profile).Some?
    && var config := ConfigOf(db, db.rooms[r].profile).value;
    && room.roomId == r && room.modeId == config.modeId && room.capacity == config.capacity
      && room.policy == config.policy
    && room.createdAt == db.rooms[r].profile.createdAt && room.deadline == db.rooms[r].profile.fillDeadline
    && IsMemberList(db, r, room.members)
  }

  /** Both hard limits of the policy hold over all members. */
  ghost predicate WithinLimits(predictors: Predictors, room: RoomView, filledAt: Time) {
    && |room.members| == room.capacity
    && PairwiseWithin(room.members, room.policy.maxSkillGap)
    && var report := Fairness(predictors(room.policy.ratingModelVersion), room, filledAt);
    && report.Ok? && report.value.withinHardLimits
    && report.value.skillGap <= room.policy.maxSkillGap
    && report.value.winProbabilitySpread <= room.policy.maxWinProbabilitySpread
  }

  ghost predicate FairRoom(predictors: Predictors, db: Db, r: Id) {
    && r in db.rooms && !db.rooms[r].status.Forming?
    && exists room: RoomView :: Shows(db, r, room) && WithinLimits(predictors, room, db.rooms[r].status.filledAt)
  }

  ghost predicate FairRooms(predictors: Predictors, db: Db) {
    forall r :: r in db.rooms && !db.rooms[r].status.Forming? ==> FairRoom(predictors, db, r)
  }

  ghost predicate WorldOk(predictors: Predictors, w: World) {
    && Inv(w.db)
    && (forall v :: v in w.firstReads ==> Inv(v.at) && ReadsRooms(v.at, v) && Persists(v.at, w.db))
    && (forall m :: m in w.secondReads ==>
      && m.first in w.firstReads && Inv(m.at) && ReadsMembers(m.at, m)
      && Persists(m.first.at, m.at) && Persists(m.at, w.db))
    && FairRooms(predictors, w.db)
  }

  lemma FairRoomPersists(predictors: Predictors, before: Db, after: Db, r: Id)
    requires Inv(before) && Inv(after) && Persists(before, after)
    requires FairRoom(predictors, before, r)
    ensures FairRoom(predictors, after, r)
  {
    hide Inv, Persists, WithinLimits, IsMemberList;
    var room: RoomView :| Shows(before, r, room) && WithinLimits(predictors, room, before.rooms[r].status.filledAt);
    FullStaysFull(before, after, r);
    MemberListKept(before, after, r, room.members);
    RoomKept(before, after, r);
    assert Shows(after, r, room);
  }

  // ---------------------------------------------------------------------
  // The scored list is the stored list
  // ---------------------------------------------------------------------

  /** What the worker's decision says about the room it selected. */
  lemma SelectionScored(predictors: Predictors, m: MembersRead, c: AssignCommand) returns (i: nat)
    requires |m.members| == |m.first.headers| && m.first.ticketId in m.first.at.tickets
    requires IsCommandFor(predictors, m, c)
    ensures i < |m.members|
    ensures m.first.headers[i].roomId == c.roomId && m.first.headers[i].version == c.expectedRoomVersion
    ensures var a := AttemptOf(m);
      var decision := Decide(predictors(m.first.config.policy.ratingModelVersion), a.rooms[i], a.candidate,
        m.first.evaluatedAt);
      decision.Ok? && decision.value.eligible
  {
    hide Decide;
    var a := AttemptOf(m);
    i := SelectedIsEligible(predictors(m.first.config.policy.ratingModelVersion), a.rooms, a.candidate, a.evaluatedAt);
  }

  /** The version check at assignment forces the list that was scored to be the
      list of members that is stored. */
  lemma ScoredIsStored(predictors: Predictors, w: World, m: MembersRead, i: nat, r: Id)
    requires WorldOk(predictors, w) && m in w.secondReads
    requires i < |m.members| && |m.members| == |m.first.headers| && m.first.headers[i].roomId == r
    requires r in w.db.rooms && w.db.rooms[r].version == m.first.headers[i].version
    ensures IsMemberList(w.db, r, m.members[i])
    ensures m.first.headers[i].createdAt == w.db.rooms[r].profile.createdAt
    ensures m.first.headers[i].deadline == w.db.rooms[r].profile.fillDeadline
  {
    hide *;
    ReadsKept(predictors, w, m);
    HeaderSeen(m.first, i);
    ListSeen(m, i);
    RoomKept(m.first.at, m.at, r);
    RoomKept(m.at, w.db, r);
    SameVersionSameMembers(m.at, w.db, r);
    MemberListKept(m.at, w.db, r, m.members[i]);
  }

  lemma ReadsKept(predictors: Predictors, w: World, m: MembersRead)
    requires WorldOk(predictors, w) && m in w.secondReads
    ensures Inv(w.db) && Inv(m.first.at) && Inv(m.at)
    ensures ReadsRooms(m.first.at, m.first) && ReadsMembers(m.at, m)
    ensures Persists(m.first.at, m.at) && Persists(m.at, w.db) && Persists(m.first.at, w.db)
  {
    hide Inv, ReadsRooms, ReadsMembers, Persists, FairRooms;
  }

  lemma HeaderSeen(v: RoomsRead, i: nat)
    requires ReadsRooms(v.at, v) && i < |v.headers|
    ensures v.headers[i].roomId in v.at.rooms && v.headers[i] == HeaderOf(v.at, v.headers[i].roomId)
    ensures v.headers[i].version == v.at.rooms[v.headers[i].roomId].version
    ensures v.headers[i].createdAt == v.at.rooms[v.headers[i].roomId].profile.createdAt
    ensures v.headers[i].deadline == v.at.rooms[v.headers[i].roomId].profile.fillDeadline
  {
  }

  lemma ListSeen(m: MembersRead, i: nat)
    requires ReadsMembers(m.at, m) && i < |m.members|
    ensures IsMemberList(m.at, m.first.headers[i].roomId, m.members[i])
  {
    hide IsMemberList;
  }

  /** The worker's configuration is the room's, and its candidate the ticket's. */
  lemma SameScope(predictors: Predictors, w: World, m: MembersRead, c: AssignCommand)
    requires WorldOk(predictors, w) && m in w.secondReads && c.ticketId == m.first.ticketId && FoundSeat(w.db, c)
    ensures m.first.ticketId in m.first.at.tickets
    ensures w.db.tickets[c.ticketId].profile == m.first.at.tickets[c.ticketId].profile
    ensures RoomConfig(w.db, c) == m.first.config
  {
    ReadsKept(predictors, w, m);
    hide WorldOk, Inv, ReadsMembers, IsHeaderList, Members, PlayerSeated, AssignmentCollides;
  }

  // ---------------------------------------------------------------------
  // A filling assignment
  // ---------------------------------------------------------------------

  /** The assignment that fills a room leaves it within both hard limits. */
  lemma FilledIsFair(predictors: Predictors, w: World, m: MembersRead, c: AssignCommand)
    requires WorldOk(predictors, w) && m in w.secondReads
    requires |m.members| == |m.first.headers| && m.first.ticketId in m.first.at.tickets
    requires IsCommandFor(predictors, m, c) && FoundSeat(w.db, c) && Fills(w.db, c)
    ensures FairRoom(predictors, Seat(w.db, c, NextSeatOf(w.db, c)), c.roomId)
  {
    hide *;
    FoundVersion(w.db, c);
    var after := Seat(w.db, c, NextSeatOf(w.db, c));
    var i := SelectionScored(predictors, m, c);
    CommandMatches(predictors, m, c);
    ScoredIsStored(predictors, w, m, i, c.roomId);
    SameScope(predictors, w, m, c);
    MemberListGrows(w.db, c, m.members[i]);
    var filled := FilledView(m, i);
    SeatShows(w.db, c, m, i);
    FilledWithinLimits(predictors, m, i, w.db, c);
    SeatFillsRoom(w.db, c);
    FairRoomFold(predictors, after, c.roomId, filled, c.assignedAt);
  }

  ghost function FilledView(m: MembersRead, i: nat): RoomView
    requires |m.members| == |m.first.headers| && m.first.ticketId in m.first.at.tickets && i < |m.members|
  {
    ViewOf(
      m.first, m.first.headers[i],
      m.members[i] + [CandidateOf(m.first.ticketId, m.first.at.tickets[m.first.ticketId].profile)])
  }

  lemma CommandMatches(predictors: Predictors, m: MembersRead, c: AssignCommand)
    requires |m.members| == |m.first.headers| && m.first.ticketId in m.first.at.tickets
    requires IsCommandFor(predictors, m, c)
    ensures c.ticketId == m.first.ticketId && c.assignedAt == m.first.evaluatedAt
  {
    hide Attempt, AttemptOf;
  }

  lemma FoundVersion(db: Db, c: AssignCommand)
    requires FoundSeat(db, c)
    ensures c.roomId in db.rooms && db.rooms[c.roomId].version == c.expectedRoomVersion
    ensures c.ticketId in db.tickets && Seatable(db, c)
  {
    hide Members, PlayerSeated, AssignmentCollides, SamePartition;
  }

  lemma SeatShows(db: Db, c: AssignCommand, m: MembersRead, i: nat)
    requires FoundSeat(db, c) && |m.members| == |m.first.headers| && i < |m.members|
    requires m.first.ticketId in m.first.at.tickets && c.ticketId == m.first.ticketId
    requires m.first.headers[i].roomId == c.roomId
    requires m.first.headers[i].createdAt == db.rooms[c.roomId].profile.createdAt
    requires m.first.headers[i].deadline == db.rooms[c.roomId].profile.fillDeadline
    requires db.tickets[c.ticketId].profile == m.first.at.tickets[c.ticketId].profile
    requires RoomConfig(db, c) == m.first.config
    requires IsMemberList(
      Seat(db, c, NextSeatOf(db, c)), c.roomId, m.members[i]
      + [CandidateOf(c.ticketId, db.tickets[c.ticketId].profile)])
    ensures Shows(Seat(db, c, NextSeatOf(db, c)), c.roomId, FilledView(m, i))
  {
    hide IsMemberList, SeatRow, SeatSession, SeatedEvent, FilledEvent, AddShadowWork, PlayerSeated, EventRefused,
      SamePartition, Fills, Members;
  }

  lemma SeatFillsRoom(db: Db, c: AssignCommand)
    requires FoundSeat(db, c) && Fills(db, c)
    ensures var after := Seat(db, c, NextSeatOf(db, c));
      && c.roomId in after.rooms && !after.rooms[c.roomId].status.Forming?
      && after.rooms[c.roomId].status.filledAt == c.assignedAt
  {
    hide SeatRow, SeatSession, SeatedEvent, FilledEvent, AddShadowWork, PlayerSeated, EventRefused, SamePartition;
  }

  /** The decision that filled the room was a fairness decision. */
  lemma FilledWithinLimits(predictors: Predictors, m: MembersRead, i: nat, db: Db, c: AssignCommand)
    requires |m.members| == |m.first.headers| && m.first.ticketId in m.first.at.tickets && i < |m.members|
    requires FoundSeat(db, c) && Fills(db, c) && RoomConfig(db, c) == m.first.config
    requires IsMemberList(db, c.roomId, m.members[i]) && c.assignedAt == m.first.evaluatedAt
    requires var a := AttemptOf(m);
      var decision := Decide(predictors(m.first.config.policy.ratingModelVersion), a.rooms[i], a.candidate,
        m.first.evaluatedAt);
      decision.Ok? && decision.value.eligible
    ensures WithinLimits(predictors, FilledView(m, i), c.assignedAt)
  {
    FillsCapacity(db, c, m.members[i]);
    hide Decide, Fairness, PairwiseWithin, IsMemberList, FoundSeat;
    var a := AttemptOf(m);
    var predict := predictors(m.first.config.policy.ratingModelVersion);
    EligibleIsFair(predict, a.rooms[i], a.candidate, m.first.evaluatedAt);
    var filled := a.rooms[i].(members := a.rooms[i].members + [a.candidate]);
    assert filled == FilledView(m, i);
    ReportWithin(predict, filled, m.first.evaluatedAt);
  }

  lemma FillsCapacity(db: Db, c: AssignCommand, members: seq<Candidate>)
    requires FoundSeat(db, c) && Fills(db, c) && IsMemberList(db, c.roomId, members)
    ensures |members| + 1 == RoomConfig(db, c).capacity
  {
    hide Members, PlayerSeated, AssignmentCollides;
  }

  lemma ReportWithin(predict: Predictor, room: RoomView, at: Time)
    requires Fairness(predict, room, at).Ok? && Fairness(predict, room, at).value.withinHardLimits
    ensures Fairness(predict, room, at).value.skillGap <= room.policy.maxSkillGap
    ensures Fairness(predict, room, at).value.winProbabilitySpread <= room.policy.maxWinProbabilitySpread
  {
    hide SkillGap, ValidatedSpread, EstimatesOf;
  }

  lemma FairRoomFold(predictors: Predictors, db: Db, r: Id, room: RoomView, filledAt: Time)
    requires r in db.rooms && !db.rooms[r].status.Forming? && db.rooms[r].status.filledAt == filledAt
    requires Shows(db, r, room) && WithinLimits(predictors, room, filledAt)
    ensures FairRoom(predictors, db, r)
  {
    hide Shows, WithinLimits;
  }

  // ---------------------------------------------------------------------
  // Runs
  // ---------------------------------------------------------------------

  /** Only an assignment fills a room. */
  lemma OnlyNewMembersFill(before: Db, after: Db, r: Id)
    requires Inv(before) && Inv(after) && after.configs == before.configs
    requires r in after.rooms && !after.rooms[r].status.Forming?
    requires Members(after.memberships, r) == Members(before.memberships, r)
    requires r in before.rooms ==> after.rooms[r].profile == before.rooms[r].profile
    ensures r in before.rooms && !before.rooms[r].status.Forming?
  {
    RoomPart(after, r);
    if r in before.rooms {
      RoomPart(before, r);
      hide Inv, SeatsExact, Members;
    } else {
      NoMembersYet(before, r);
      hide Inv, SeatsExact, Members;
      assert false;
    }
  }

  lemma NoMembersYet(db: Db, r: Id)
    requires Inv(db) && r !in db.rooms
    ensures Members(db.memberships, r) == {}
  {
    hide TicketsOk, SeatedOk, SessionsOk, AssignmentsOk, ResultsOk, TerminalOk, ShadowOk, OutboxOk, PartitionOk, RoomOk;
  }

  /** Nobody joined any room but possibly one. */
  ghost predicate SameMembers(before: Db, after: Db, joined: Option<Id>) {
    forall r: Id :: joined != Some(r) ==> Members(after.memberships, r) == Members(before.memberships, r)
  }

  ghost predicate FairIfFull(predictors: Predictors, db: Db, r: Id) {
    r in db.rooms && !db.rooms[r].status.Forming? ==> FairRoom(predictors, db, r)
  }

  /** All rooms stay fair when nobody joins any room but possibly `joined`. */
  lemma FairRoomsPersist(predictors: Predictors, before: Db, after: Db, joined: Option<Id>)
    requires Inv(before) && Inv(after) && Persists(before, after) && FairRooms(predictors, before)
    requires SameMembers(before, after, joined)
    requires joined.Some? ==> FairIfFull(predictors, after, joined.value)
    ensures FairRooms(predictors, after)
  {
    hide Inv, Members, FairRoom, Persists;
    SameConfigs(before, after);
    forall r | r in after.rooms && !after.rooms[r].status.Forming? ensures FairRoom(predictors, after, r) {
      if joined != Some(r) {
        SameProfile(before, after, r);
        OnlyNewMembersFill(before, after, r);
        FairRoomPersists(predictors, before, after, r);
      }
    }
  }

  lemma SameConfigs(before: Db, after: Db)
    requires Persists(before, after)
    ensures after.configs == before.configs
  {
    hide Kept, TicketsPersist, RoomsPersist;
  }

  lemma SameProfile(before: Db, after: Db, r: Id)
    requires Persists(before, after)
    ensures r in before.rooms ==> r in after.rooms && after.rooms[r].profile == before.rooms[r].profile
  {
    hide Kept, TicketsPersist;
  }

  lemma MembershipsFixed(db: Db, step: Step)
    requires !step.AssignStep?
    ensures SameMembers(db, Apply(db, step), None)
  {
    hide SameMembers, Apply;
    match step
    case AcceptStep(_) => TicketStepMemberships(db, step);
    case CancelStep(_) => TicketStepMemberships(db, step);
    case ExpireStep(_, _) => TicketStepMemberships(db, step);
    case FinalizeStep(_, _) => FinalizeMemberships(db, step);
    case ExpireRoomsStep(_, _, _) => ExpireRoomsMemberships(db, step);
    case _ => OtherMemberships(db, step);
  }

  lemma LeaveMemberships(
    db: Db, ticketId: Id, commandId: Id, digest: CommandDigest, next: TicketStatus, eventId: Id, eventType: Id,
    at: Time)
    requires ticketId in db.tickets
    ensures LeaveQueue(db, ticketId, commandId, digest, next, eventId, eventType, at).memberships == db.memberships
  {
  }

  lemma TicketStepMemberships(db: Db, step: Step)
    requires step.AcceptStep? || step.CancelStep? || step.ExpireStep?
    ensures SameMembers(db, Apply(db, step), None)
  {
    hide Members, Accept, Cancel, Expire;
    match step
    case AcceptStep(c) => AcceptMemberships(db, c);
    case CancelStep(c) => CancelMemberships(db, c);
    case ExpireStep(c, clock) => ExpireMemberships(db, c, clock);
  }

  lemma AcceptMemberships(db: Db, c: AcceptCommand)
    ensures Accept(db, c).db.memberships == db.memberships
  {
    hide EventRefused, TicketEvent, AcceptCommand.Valid, Configured, NewTicket;
    var change := Accept(db, c);
    if change.reply.Changed? {
      assert change.db.memberships == db.memberships;
    } else {
      assert change.db == db;
    }
  }

  lemma CancelMemberships(db: Db, c: CancelCommand)
    ensures Cancel(db, c).db.memberships == db.memberships
  {
    hide EventRefused, CancelCommand.Valid, LeaveQueue;
    if Cancel(db, c).reply.Changed? {
      LeaveMemberships(db, c.ticketId, c.commandId, CancelDigest, Cancelled(c.cancelledAt), c.eventId,
        TICKET_CANCELLED, c.cancelledAt);
    }
  }

  lemma ExpireMemberships(db: Db, c: ExpireCommand, clock: Time)
    ensures Expire(db, c, clock).db.memberships == db.memberships
  {
    hide EventRefused, ExpireCommand.Valid, LeaveQueue;
    if Expire(db, c, clock).reply.Changed? {
      LeaveMemberships(
        db, c.ticketId, c.commandId, ExpireDigest(c.deadline), Expired(c.expiredAt), c.eventId, TICKET_EXPIRED,
        c.expiredAt);
    }
  }

  lemma FinalizeMemberships(db: Db, step: Step)
    requires step.FinalizeStep?
    ensures SameMembers(db, Apply(db, step), None)
  {
    hide ResultStore.Finalize, Members, FoundRoom, ResultStore.FinishSessions, AddShadowWork;
    FinalizeFound(db, step.finalize, step.completionEventId);
    if ResultStore.Finalize(db, step.finalize, step.completionEventId).reply.Changed? {
      CompleteMemberships(db, step.finalize, step.completionEventId);
    }
  }

  lemma CompleteMemberships(db: Db, c: FinalizeCommand, completionEventId: Id)
    requires FoundRoom(db, c, completionEventId)
    ensures ResultStore.CompleteRoom(db, c, completionEventId).memberships == db.memberships
  {
    hide ResultStore.FinishSessions, AddShadowWork, EventRefused, EventOf;
  }

  lemma ExpireRoomsMemberships(db: Db, step: Step)
    requires step.ExpireRoomsStep?
    ensures SameMembers(db, Apply(db, step), None)
  {
    hide ResultStore.ExpireEach, ResultStore.IsDueBatch, Members;
    if ResultStore.ExpireEach(db, step.batch, step.at).Some? {
      ExpireEachMemberships(db, step.batch, step.at);
    }
  }

  lemma OtherMemberships(db: Db, step: Step)
    requires step.CreateRoom? || step.ClaimStep? || step.RetryStep? || step.StartSession?
    ensures SameMembers(db, Apply(db, step), None)
  {
    hide Members, MatchmakingQueue.ClaimTickets, MatchmakingQueue.IsTicketBatch, ConfigOf;
    assert Apply(db, step).memberships == db.memberships;
  }

  lemma {:induction false} ExpireEachMemberships(db: Db, batch: seq<ResultStore.RoomExpiry>, at: Time)
    requires ResultStore.ExpireEach(db, batch, at).Some?
    ensures ResultStore.ExpireEach(db, batch, at).value.memberships == db.memberships
    decreases |batch|
  {
    if batch != [] {
      ExpireEachMemberships(ResultStore.ExpireRoom(db, batch[0].roomId, at, batch[0].eventId), batch[1..], at);
    }
  }

  lemma StepKeepsWorld(predictors: Predictors, w: World, step: WorkerStep)
    requires WorldOk(predictors, w) && Enabled(predictors, w, step)
    ensures WorldOk(predictors, Next(w, step))
  {
    match step
    case Other(s) => OtherKeepsWorld(predictors, w, s);
    case ReadRooms(v) => ReadRoomsKeepsWorld(predictors, w, v);
    case ReadMembers(m) => ReadMembersKeepsWorld(predictors, w, m);
    case AssignScored(m, c, clock) => AssignKeepsWorld(predictors, w, m, c, clock);
  }

  /** The reads stay valid while the tables move on. */
  lemma ReadsFollow(predictors: Predictors, w: World, after: Db)
    requires WorldOk(predictors, w) && Inv(after) && Persists(w.db, after) && FairRooms(predictors, after)
    ensures WorldOk(predictors, w.(db := after))
  {
    hide Inv, ReadsRooms, ReadsMembers, Persists, FairRooms;
    forall v | v in w.firstReads ensures Persists(v.at, after) {
      PersistsTransitive(v.at, w.db, after);
    }
    forall m | m in w.secondReads ensures Persists(m.at, after) {
      PersistsTransitive(m.at, w.db, after);
    }
  }

  lemma OtherKeepsWorld(predictors: Predictors, w: World, s: Step)
    requires WorldOk(predictors, w) && !s.AssignStep?
    ensures WorldOk(predictors, w.(db := Apply(w.db, s)))
  {
    hide Inv, ReadsRooms, ReadsMembers, Persists, FairRooms, Apply, SameMembers;
    StepKeepsInv(w.db, s);
    StepPersists(w.db, s);
    MembershipsFixed(w.db, s);
    FairRoomsPersist(predictors, w.db, Apply(w.db, s), None);
    ReadsFollow(predictors, w, Apply(w.db, s));
  }

  lemma ReadRoomsKeepsWorld(predictors: Predictors, w: World, v: RoomsRead)
    requires WorldOk(predictors, w) && ReadsRooms(w.db, v)
    ensures WorldOk(predictors, w.(firstReads := w.firstReads + {v}))
  {
    hide Inv, ReadsRooms, ReadsMembers, Persists, FairRooms;
    NothingPersists(w.db);
    FirstReadAt(w.db, v);
  }

  lemma FirstReadAt(db: Db, v: RoomsRead)
    requires ReadsRooms(db, v)
    ensures v.at == db
  {
    hide IsHeaderList;
  }

  lemma SecondReadAt(db: Db, m: MembersRead)
    requires ReadsMembers(db, m)
    ensures m.at == db
  {
    hide IsMemberList;
  }

  lemma ReadMembersKeepsWorld(predictors: Predictors, w: World, m: MembersRead)
    requires WorldOk(predictors, w) && m.first in w.firstReads && ReadsMembers(w.db, m)
    ensures WorldOk(predictors, w.(secondReads := w.secondReads + {m}))
  {
    hide Inv, ReadsRooms, ReadsMembers, Persists, FairRooms;
    NothingPersists(w.db);
    SecondReadAt(w.db, m);
  }

  lemma AssignKeepsWorld(predictors: Predictors, w: World, m: MembersRead, c: AssignCommand, clock: Time)
    requires WorldOk(predictors, w) && m in w.secondReads
    requires |m.members| == |m.first.headers| && m.first.ticketId in m.first.at.tickets
    requires IsCommandFor(predictors, m, c)
    ensures WorldOk(predictors, w.(db := Assign(w.db, c, clock).db))
  {
    hide *;
    WorldParts(predictors, w);
    AssignKeepsInv(w.db, c, clock);
    AssignPersists(w.db, c, clock);
    AssignFound(w.db, c, clock);
    var after := Assign(w.db, c, clock).db;
    if Assign(w.db, c, clock).reply.Changed? {
      FoundVersion(w.db, c);
      SeatMembers(w.db, c);
      if Fills(w.db, c) {
        FilledIsFair(predictors, w, m, c);
      } else {
        SeatKeepsForming(w.db, c);
      }
      FairWhenFull(predictors, after, c.roomId);
      FairRoomsPersist(predictors, w.db, after, Some(c.roomId));
    } else {
      NobodyJoins(w.db);
      FairRoomsPersist(predictors, w.db, after, None);
    }
    ReadsFollow(predictors, w, after);
  }

  lemma WorldParts(predictors: Predictors, w: World)
    requires WorldOk(predictors, w)
    ensures Inv(w.db) && FairRooms(predictors, w.db)
  {
    hide Inv, FairRooms, ReadsRooms, ReadsMembers, Persists;
  }

  lemma NobodyJoins(db: Db)
    ensures SameMembers(db, db, None)
  {
  }

  lemma FairWhenFull(predictors: Predictors, db: Db, r: Id)
    requires (r in db.rooms && db.rooms[r].status.Forming?) || FairRoom(predictors, db, r)
    ensures FairIfFull(predictors, db, r)
  {
    hide FairRoom;
  }

  lemma SeatMembers(db: Db, c: AssignCommand)
    requires FoundSeat(db, c)
    ensures SameMembers(db, Seat(db, c, NextSeatOf(db, c)), Some(c.roomId))
  {
    MembersAfter(db.memberships, c.ticketId, SeatRow(db, c, NextSeatOf(db, c)));
    hide SeatedRoom, SeatSession, SeatedEvent, FilledEvent, AddShadowWork, PlayerSeated, EventRefused, SamePartition,
      Members, Seats;
  }

  lemma SeatKeepsForming(db: Db, c: AssignCommand)
    requires FoundSeat(db, c) && !Fills(db, c)
    ensures var after := Seat(db, c, NextSeatOf(db, c));
      c.roomId in after.rooms && after.rooms[c.roomId].status.Forming?
  {
    hide SeatRow, SeatSession, SeatedEvent, FilledEvent, AddShadowWork, PlayerSeated, EventRefused, SamePartition;
  }

  lemma {:induction false} RunKeepsWorld(predictors: Predictors, w: World, steps: seq<WorkerStep>)
    requires WorldOk(predictors, w) && CanRun(predictors, w, steps)
    ensures WorldOk(predictors, RunWorkers(w, steps))
    decreases |steps|
  {
    hide WorldOk, Enabled, Next;
    if steps != [] {
      StepKeepsWorld(predictors, w, steps[0]);
      RunKeepsWorld(predictors, Next(w, steps[0]), steps[1..]);
    }
  }

  /** In every run in which tickets are assigned by matching workers, each room
      that has left forming is stored with exactly the members some worker scored,
      any two of them are within the policy's hard skill limit, and the predicted
      spread of the win probabilities at the fill time is within its hard limit,
      however reads, other workers' assignments, cancellations, lost claims and
      results interleave. */
  lemma FilledRoomsAreFair(predictors: Predictors, configs: Configs, steps: seq<WorkerStep>, r: Id)
    requires ConfigsValid(configs)
    requires var start := World(Empty(configs), {}, {});
      && CanRun(predictors, start, steps)
      && r in RunWorkers(start, steps).db.rooms
      && !RunWorkers(start, steps).db.rooms[r].status.Forming?
    ensures FairRoom(predictors, RunWorkers(World(Empty(configs), {}, {}), steps).db, r)
  {
    hide *;
    var start := World(Empty(configs), {}, {});
    StartIsOk(predictors, configs);
    RunKeepsWorld(predictors, start, steps);
    WorldParts(predictors, RunWorkers(start, steps));
    FairAt(predictors, RunWorkers(start, steps).db, r);
  }

  lemma StartIsOk(predictors: Predictors, configs: Configs)
    requires ConfigsValid(configs)
    ensures WorldOk(predictors, World(Empty(configs), {}, {}))
  {
    hide Inv;
    EmptyIsInv(configs);
  }

  lemma FairAt(predictors: Predictors, db: Db, r: Id)
    requires FairRooms(predictors, db) && r in db.rooms && !db.rooms[r].status.Forming?
    ensures FairRoom(predictors, db, r)
  {
    hide FairRoom;
  }
}

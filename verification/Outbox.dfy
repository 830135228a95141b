/** The outbox table: batch claims, leases and fenced completions. */
module Outbox {
  import opened Common
  import opened Batches

  const MAX_BATCH_SIZE := 256
  const MAX_DELIVERY_ERROR := 1024

  datatype Event = Event(
    eventId: Id,
    aggregateType: Id,
    aggregateId: Id,
    version: int,
    eventType: Id,
    payload: Id,
    occurredAt: Time)
  {
    predicate Valid() {
      && eventId != 0 && aggregateType != 0 && aggregateId != 0 && eventType != 0
      && version > 0 && occurredAt != 0
    }

    predicate SameAggregate(other: Event) {
      aggregateType == other.aggregateType && aggregateId == other.aggregateId
    }

    /** The delivery order inside one aggregate: version, then event id. */
    predicate Precedes(other: Event) {
      && SameAggregate(other)
      && (version < other.version || (version == other.version && eventId < other.eventId))
    }
  }

  datatype Lease = Lease(token: Id, until: Time)

  datatype DeadLetter = DeadLetter(at: Time, reason: string)

  datatype Row = Row(
    event: Event,
    availableAt: Time,
    attempts: nat,
    lease: Option<Lease>,
    deliveredAt: Option<Time>,
    deadLetter: Option<DeadLetter>,
    lastError: Option<string>)
  {
    /** The table's check constraints; a statement that breaks one is undone. */
    predicate Allowed() {
      && availableAt >= event.occurredAt
      && (deliveredAt.Some? ==> deliveredAt.value >= event.occurredAt && lease.None?)
      && (deadLetter.Some? ==>
        deliveredAt.None? && lease.None? && |deadLetter.value.reason| <= MAX_DELIVERY_ERROR)
      && (lastError.Some? ==> |lastError.value| <= MAX_DELIVERY_ERROR)
    }

    predicate Open() {
      deliveredAt.None? && deadLetter.None?
    }

    /** The lease check of every completion, made with the database clock. */
    predicate OwnedBy(token: Id, clock: Time) {
      Open() && lease.Some? && lease.value.token == token && lease.value.until > clock
    }
  }

  type Table = map<Id, Row>

  datatype ClaimRequest = ClaimRequest(token: Id, limit: int, claimedAt: Time, leaseUntil: Time) {
    predicate Valid() {
      && token != 0 && 0 < limit <= MAX_BATCH_SIZE
      && claimedAt != 0 && claimedAt < leaseUntil
    }
  }

  /** What a worker keeps of one claimed row. */
  datatype Claim = Claim(event: Event, token: Id, attempt: nat, leaseUntil: Time)

  datatype Outcome = Done | ClaimLost | NotFound | InvalidCall | ConstraintViolated

  datatype Write = Write(rows: Table, outcome: Outcome)

  // ---------------------------------------------------------------------
  // Claiming
  // ---------------------------------------------------------------------

  predicate Pending(rows: Table, id: Id) {
    id in rows && rows[id].deliveredAt.None?
  }

  /** No undelivered event of the aggregate comes earlier. */
  predicate IsHead(rows: Table, id: Id)
    requires id in rows
  {
    forall p :: p in rows && Pending(rows, p) ==> !rows[p].event.Precedes(rows[id].event)
  }

  predicate Claimable(rows: Table, id: Id, now: Time) {
    && id in rows
    && rows[id].Open()
    && rows[id].availableAt <= now
    && (rows[id].lease.None? || rows[id].lease.value.until <= now)
    && IsHead(rows, id)
  }

  predicate DueBefore(a: Row, b: Row) {
    || a.availableAt < b.availableAt
    || (a.availableAt == b.availableAt &&
        (a.event.occurredAt < b.event.occurredAt ||
         (a.event.occurredAt == b.event.occurredAt && a.event.eventId < b.event.eventId)))
  }

  /** Every row is stored under its event's identity and meets the constraints. */
  ghost predicate WellFormed(rows: Table) {
    forall id :: id in rows ==> rows[id].event.eventId == id && rows[id].event.Valid() && rows[id].Allowed()
  }

  /** The batch holds the earliest due rows that no other statement has locked,
      as many as the limit admits. */
  ghost predicate IsBatch(rows: Table, locked: set<Id>, request: ClaimRequest, batch: set<Id>) {
    && |batch| <= request.limit
    && (forall id :: id in batch ==> id !in locked && Claimable(rows, id, request.claimedAt))
    && (forall id :: id !in batch && id !in locked && Claimable(rows, id, request.claimedAt) ==>
      && |batch| == request.limit
      && forall b :: b in batch ==> DueBefore(rows[b], rows[id]))
  }

  function Leased(row: Row, request: ClaimRequest): Row {
    row.(lease := Some(Lease(request.token, request.leaseUntil)), attempts := row.attempts + 1)
  }

  function ClaimRows(rows: Table, batch: set<Id>, request: ClaimRequest): Table {
    map id | id in rows :: if id in batch then Leased(rows[id], request) else rows[id]
  }

  function ClaimOf(row: Row, request: ClaimRequest): Claim {
    Claim(row.event, request.token, row.attempts + 1, request.leaseUntil)
  }

  function ClaimsOf(rows: Table, batch: set<Id>, request: ClaimRequest): set<Claim>
    requires batch <= rows.Keys
  {
    set id | id in batch :: ClaimOf(rows[id], request)
  }

  // ---------------------------------------------------------------------
  // Completing
  // ---------------------------------------------------------------------

  /** One fenced update: the row changes only for the owner of a live lease. */
  function Complete(rows: Table, id: Id, token: Id, clock: Time, change: Row -> Row): Write {
    if id !in rows || !rows[id].OwnedBy(token, clock) then Write(rows, ClaimLost)
    else if !change(rows[id]).Allowed() then Write(rows, ConstraintViolated)
    else Write(rows[id := change(rows[id])], Done)
  }

  function Delivered(row: Row, at: Time): Row {
    row.(deliveredAt := Some(at), lease := None, lastError := None)
  }

  function Buried(row: Row, at: Time, reason: string): Row {
    row.(deadLetter := Some(DeadLetter(at, reason)), lease := None, lastError := Some(reason))
  }

  function Postponed(row: Row, at: Time, error: string): Row {
    row.(availableAt := at, lease := None, lastError := Some(error))
  }

  function Revived(row: Row, at: Time): Row {
    row.(deadLetter := None, lastError := None, availableAt := at, lease := None)
  }

  function MarkDelivered(rows: Table, id: Id, token: Id, at: Time, clock: Time): Write {
    if id == 0 || token == 0 || at == 0 then Write(rows, InvalidCall)
    else Complete(rows, id, token, clock, row => Delivered(row, at))
  }

  function MarkDeadLettered(rows: Table, id: Id, token: Id, at: Time, clock: Time, reason: string): Write {
    if id == 0 || token == 0 || at == 0 || reason == "" || |reason| > MAX_DELIVERY_ERROR then Write(rows, InvalidCall)
    else Complete(rows, id, token, clock, row => Buried(row, at, reason))
  }

  function ScheduleRetry(rows: Table, id: Id, token: Id, at: Time, clock: Time, error: string): Write {
    if id == 0 || token == 0 || at == 0 || error == "" || |error| > MAX_DELIVERY_ERROR then Write(rows, InvalidCall)
    else Complete(rows, id, token, clock, row => Postponed(row, at, error))
  }

  function Redrive(rows: Table, id: Id, at: Time): Write {
    if id == 0 || at == 0 then Write(rows, InvalidCall)
    else if id !in rows || rows[id].deliveredAt.Some? || rows[id].deadLetter.None? then Write(rows, NotFound)
    else if !Revived(rows[id], at).Allowed() then Write(rows, ConstraintViolated)
    else Write(rows[id := Revived(rows[id], at)], Done)
  }

  // ---------------------------------------------------------------------
  // The queue
  // ---------------------------------------------------------------------

  /** The statement's ordering on identities. */
  function ClaimOrder(rows: Table): Order {
    (a, b) => a in rows && b in rows && DueBefore(rows[a], rows[b])
  }

  function DueRows(rows: Table, locked: set<Id>, request: ClaimRequest): set<Id> {
    set id | id in rows && id !in locked && Claimable(rows, id, request.claimedAt)
  }

  lemma BatchIsEarliest(rows: Table, locked: set<Id>, request: ClaimRequest, batch: set<Id>)
    ensures IsBatch(rows, locked, request, batch)
      <==> IsEarliest(DueRows(rows, locked, request), request.limit, ClaimOrder(rows), batch)
  {
    hide DueBefore, IsHead;
  }

  lemma ClaimOrderDecides(rows: Table, locked: set<Id>, request: ClaimRequest)
    requires WellFormed(rows)
    ensures DecidesOn(ClaimOrder(rows), DueRows(rows, locked, request))
    ensures TransitiveOn(ClaimOrder(rows), DueRows(rows, locked, request))
  {
    hide Claimable, IsHead;
    var before, due := ClaimOrder(rows), DueRows(rows, locked, request);
    forall a, b | a in due && b in due && a != b ensures before(a, b) || before(b, a) {
      assert DueBefore(rows[a], rows[b]) || DueBefore(rows[b], rows[a]);
    }
    forall a, b, c | a in due && b in due && c in due && before(a, b) && before(b, c) ensures before(a, c) {
      assert DueBefore(rows[a], rows[b]) && DueBefore(rows[b], rows[c]) ==> DueBefore(rows[a], rows[c]);
    }
  }

  lemma ClaimOrderAsymmetric(rows: Table)
    ensures Asymmetric(ClaimOrder(rows))
  {
    var before := ClaimOrder(rows);
    forall a, b | before(a, b) ensures !before(b, a) {
      assert DueBefore(rows[a], rows[b]) ==> !DueBefore(rows[b], rows[a]);
    }
  }

  /** The `due` part of the claim statement. */
  method DueBatch(rows: Table, locked: set<Id>, request: ClaimRequest) returns (batch: set<Id>)
    requires WellFormed(rows) && request.Valid()
    ensures IsBatch(rows, locked, request, batch) && batch <= rows.Keys
  {
    PositiveLimit(request);
    ClaimOrderDecides(rows, locked, request);
    hide *;
    batch := SelectEarliest(DueRows(rows, locked, request), request.limit, ClaimOrder(rows));
    BatchIsEarliest(rows, locked, request, batch);
    BatchStored(rows, locked, request, batch);
  }

  lemma PositiveLimit(request: ClaimRequest)
    requires request.Valid()
    ensures request.limit > 0
  {
  }

  lemma BatchStored(rows: Table, locked: set<Id>, request: ClaimRequest, batch: set<Id>)
    requires IsBatch(rows, locked, request, batch)
    ensures forall id :: id in batch ==> id in rows && rows[id].Open()
  {
  }

  class OutboxQueue {
    var rows: Table

    constructor ()
      ensures rows == map[]
    {
      rows := map[];
    }

    /** Claims a batch in one statement. */
    method ClaimOutboxEvents(request: ClaimRequest, locked: set<Id>) returns (outcome: Outcome, claims: set<Claim>)
      requires WellFormed(rows)
      modifies this
      ensures !request.Valid() ==> outcome == InvalidCall && claims == {} && rows == old(rows)
      ensures request.Valid() ==> outcome == Done && exists batch: set<Id> ::
        && IsBatch(old(rows), locked, request, batch)
        && rows == ClaimRows(old(rows), batch, request)
        && batch <= old(rows).Keys && claims == ClaimsOf(old(rows), batch, request)
    {
      if !request.Valid() {
        return InvalidCall, {};
      }
      var batch := DueBatch(rows, locked, request);
      hide *;
      claims := ClaimsOf(rows, batch, request);
      rows := ClaimRows(rows, batch, request);
      outcome := Done;
    }

    method MarkOutboxDelivered(id: Id, token: Id, at: Time, clock: Time) returns (outcome: Outcome)
      modifies this
      ensures Write(rows, outcome) == MarkDelivered(old(rows), id, token, at, clock)
    {
      if id == 0 || token == 0 || at == 0 {
        return InvalidCall;
      }
      outcome := Update(id, token, clock, row => Delivered(row, at));
    }

    method MarkOutboxDeadLettered(id: Id, token: Id, at: Time, clock: Time, reason: string) returns (outcome: Outcome)
      modifies this
      ensures Write(rows, outcome) == MarkDeadLettered(old(rows), id, token, at, clock, reason)
    {
      if id == 0 || token == 0 || at == 0 || reason == "" || |reason| > MAX_DELIVERY_ERROR {
        return InvalidCall;
      }
      outcome := Update(id, token, clock, row => Buried(row, at, reason));
    }

    method ScheduleOutboxRetry(id: Id, token: Id, at: Time, clock: Time, error: string) returns (outcome: Outcome)
      modifies this
      ensures Write(rows, outcome) == ScheduleRetry(old(rows), id, token, at, clock, error)
    {
      if id == 0 || token == 0 || at == 0 || error == "" || |error| > MAX_DELIVERY_ERROR {
        return InvalidCall;
      }
      outcome := Update(id, token, clock, row => Postponed(row, at, error));
    }

    method RedriveOutboxDeadLetter(id: Id, at: Time) returns (outcome: Outcome)
      modifies this
      ensures Write(rows, outcome) == Redrive(old(rows), id, at)
    {
      if id == 0 || at == 0 {
        return InvalidCall;
      }
      if id !in rows || rows[id].deliveredAt.Some? || rows[id].deadLetter.None? {
        return NotFound;
      }
      var row := Revived(rows[id], at);
      if !row.Allowed() {
        return ConstraintViolated;
      }
      rows := rows[id := row];
      outcome := Done;
    }

    /** The update statement shared by the completions. */
    method Update(id: Id, token: Id, clock: Time, change: Row -> Row) returns (outcome: Outcome)
      modifies this
      ensures Write(rows, outcome) == Complete(old(rows), id, token, clock, change)
    {
      if id !in rows || !rows[id].OwnedBy(token, clock) {
        return ClaimLost;
      }
      var row := change(rows[id]);
      if !row.Allowed() {
        return ConstraintViolated;
      }
      rows := rows[id := row];
      outcome := Done;
    }
  }

  /** The claim statement has one possible batch. */
  lemma BatchIsUnique(rows: Table, locked: set<Id>, request: ClaimRequest, a: set<Id>, b: set<Id>)
    requires IsBatch(rows, locked, request, a) && IsBatch(rows, locked, request, b)
    ensures a == b
  {
    BatchIsEarliest(rows, locked, request, a);
    BatchIsEarliest(rows, locked, request, b);
    ClaimOrderAsymmetric(rows);
    EarliestIsUnique(DueRows(rows, locked, request), request.limit, ClaimOrder(rows), a, b);
  }

  // ---------------------------------------------------------------------
  // Progress of one aggregate
  // ---------------------------------------------------------------------

  ghost predicate FirstPending(rows: Table, id: Id) {
    Pending(rows, id) && IsHead(rows, id)
  }

  /** Events of one aggregate are totally ordered. */
  lemma PrecedesTotal(a: Event, b: Event)
    requires a.SameAggregate(b) && a.eventId != b.eventId
    ensures a.Precedes(b) <==> !b.Precedes(a)
  {
  }

  /** Whoever has something undelivered has a first undelivered event. */
  lemma {:induction false} FirstPendingExists(rows: Table, id: Id, before: set<Id>)
    requires WellFormed(rows) && Pending(rows, id)
    requires before == set p | p in rows && Pending(rows, p) && rows[p].event.Precedes(rows[id].event)
    ensures exists first :: FirstPending(rows, first) && rows[first].event.SameAggregate(rows[id].event)
    decreases |before|
  {
    if before == {} {
      forall p | p in rows && Pending(rows, p) ensures !rows[p].event.Precedes(rows[id].event) {
        assert p !in before;
      }
    } else {
      var p :| p in before;
      var earlier := set q | q in rows && Pending(rows, q) && rows[q].event.Precedes(rows[p].event);
      assert p !in earlier;
      assert earlier <= before - {p};
      SmallerSet(earlier, before, p);
      FirstPendingExists(rows, p, earlier);
    }
  }

  /** The first undelivered event of the aggregate that `id` belongs to. */
  ghost predicate IsFirstPendingOf(rows: Table, id: Id, first: Id)
    requires id in rows
  {
    FirstPending(rows, first) && rows[first].event.SameAggregate(rows[id].event)
  }

  ghost predicate ClaimableSometime(rows: Table, id: Id) {
    exists now :: Claimable(rows, id, now)
  }

  /** Among an aggregate's events only the first undelivered one is ever claimed,
      and it can be claimed at some time exactly if it is not a dead letter. */
  lemma FirstPendingProgress(rows: Table, id: Id, first: Id)
    requires WellFormed(rows) && id in rows && IsFirstPendingOf(rows, id, first)
    ensures forall other :: other in rows && rows[other].event.SameAggregate(rows[id].event) ==>
      (ClaimableSometime(rows, other) <==> other == first && rows[first].deadLetter.None?)
  {
    forall other, now |
      other in rows && rows[other].event.SameAggregate(rows[id].event) && Claimable(rows, other, now)
      ensures other == first
    {
      if other != first {
        PrecedesTotal(rows[other].event, rows[first].event);
      }
    }
    if rows[first].deadLetter.None? {
      var row := rows[first];
      var now := if row.lease.Some? && row.lease.value.until > row.availableAt then row.lease.value.until
                 else row.availableAt;
      assert Claimable(rows, first, now);
    }
  }

  /** An aggregate with an undelivered event has exactly one first undelivered
      event. The aggregate makes progress again at some time exactly when that
      event is not a dead letter, and then it is that event that is claimed. */
  lemma AggregateProgress(rows: Table, id: Id)
    requires WellFormed(rows) && Pending(rows, id)
    ensures exists first :: IsFirstPendingOf(rows, id, first)
    ensures forall first, second :: IsFirstPendingOf(rows, id, first) && IsFirstPendingOf(rows, id, second) ==>
      first == second
    ensures forall first, other ::
      IsFirstPendingOf(rows, id, first) && other in rows && rows[other].event.SameAggregate(rows[id].event) ==>
        (ClaimableSometime(rows, other) <==> other == first && rows[first].deadLetter.None?)
  {
    var before := set p | p in rows && Pending(rows, p) && rows[p].event.Precedes(rows[id].event);
    FirstPendingExists(rows, id, before);
    var some :| FirstPending(rows, some) && rows[some].event.SameAggregate(rows[id].event);
    assert IsFirstPendingOf(rows, id, some);
    forall first, second | IsFirstPendingOf(rows, id, first) && IsFirstPendingOf(rows, id, second)
      ensures first == second
    {
      if first != second {
        PrecedesTotal(rows[first].event, rows[second].event);
      }
    }
    FirstPendingProgress(rows, id, some);
  }
}

/** Leases on queued tickets. */
module MatchmakingQueue {
  import opened Common
  import opened Batches
  import opened Database

  predicate TicketDue(ticket: Ticket, now: Time) {
    && ticket.status.Queued?
    && ticket.nextAttemptAt.Some? && ticket.nextAttemptAt.value <= now
    && (ticket.claim.None? || ticket.claim.value.until <= now)
  }

  /** A claimed batch: any due tickets that other statements left unlocked. */
  predicate IsTicketBatch(tickets: map<Id, Ticket>, batch: set<Id>, limit: int, now: Time) {
    |batch| <= limit && forall t :: t in batch ==> t in tickets && TicketDue(tickets[t], now)
  }

  const MAX_CLAIM_BATCH := 256
  const MAX_CLAIM_LEASE: Duration := 300_000_000_000

  datatype TicketRequest = TicketRequest(token: Id, limit: int, claimedAt: Time, leaseUntil: Time) {
    predicate Valid()
      ensures Valid() ==> limit > 0
    {
      && token != 0 && 0 < limit <= MAX_CLAIM_BATCH
      && claimedAt != 0 && leaseUntil != 0 && claimedAt < leaseUntil
      && leaseUntil - claimedAt <= MAX_CLAIM_LEASE
    }
  }

  function ClaimTickets(tickets: map<Id, Ticket>, batch: set<Id>, token: Id, until: Time): map<Id, Ticket> {
    map t | t in tickets ::
      if t in batch then tickets[t].(claim := Some(TicketClaim(token, until)), attempts := tickets[t].attempts + 1)
      else tickets[t]
  }

  /** A retry keeps the ticket queued and gives the claim back. */
  function RetryTicket(db: Db, ticketId: Id, token: Id, retryAt: Time, clock: Time): Change {
    if ticketId == 0 || token == 0 || retryAt == 0 then Fail(db, InvalidCommand)
    else if ticketId !in db.tickets || !db.tickets[ticketId].status.Queued?
      || !db.tickets[ticketId].OwnedBy(token, clock)
    then Fail(db, TicketClaimLost)
    else
      var ticket := db.tickets[ticketId].(nextAttemptAt := Some(retryAt), claim := None);
      Change(db.(tickets := db.tickets[ticketId := ticket]), Changed)
  }

  // ---------------------------------------------------------------------
  // The queue
  // ---------------------------------------------------------------------

  /** The statement's ordering: next attempt, request time, identity. */
  predicate TicketBefore(tickets: map<Id, Ticket>, a: Id, b: Id)
    requires a in tickets && b in tickets
  {
    var x, y := tickets[a], tickets[b];
    && x.nextAttemptAt.Some? && y.nextAttemptAt.Some?
    && (x.nextAttemptAt.value < y.nextAttemptAt.value
        || (x.nextAttemptAt.value == y.nextAttemptAt.value &&
            (x.profile.requestedAt < y.profile.requestedAt
             || (x.profile.requestedAt == y.profile.requestedAt && a < b))))
  }

  function TicketOrder(tickets: map<Id, Ticket>): Order {
    (a: Id, b: Id) => a in tickets && b in tickets && TicketBefore(tickets, a, b)
  }

  function DueTickets(tickets: map<Id, Ticket>, locked: set<Id>, now: Time): set<Id> {
    set t | t in tickets && t !in locked && TicketDue(tickets[t], now)
  }

  lemma TicketOrderDecides(tickets: map<Id, Ticket>, locked: set<Id>, now: Time)
    ensures DecidesOn(TicketOrder(tickets), DueTickets(tickets, locked, now))
    ensures TransitiveOn(TicketOrder(tickets), DueTickets(tickets, locked, now))
  {
    var before, due := TicketOrder(tickets), DueTickets(tickets, locked, now);
    forall a, b | a in due && b in due && a != b ensures before(a, b) || before(b, a) {
      assert TicketBefore(tickets, a, b) || TicketBefore(tickets, b, a);
    }
    forall a, b, c | a in due && b in due && c in due && before(a, b) && before(b, c) ensures before(a, c) {
      assert TicketBefore(tickets, a, b) && TicketBefore(tickets, b, c) ==> TicketBefore(tickets, a, c);
    }
  }

  lemma TicketOrderAsymmetric(tickets: map<Id, Ticket>)
    ensures Asymmetric(TicketOrder(tickets))
  {
    var before := TicketOrder(tickets);
    forall a, b | before(a, b) ensures !before(b, a) {
      assert TicketBefore(tickets, a, b) ==> !TicketBefore(tickets, b, a);
    }
  }

  /** A claim has one possible batch: the tickets that wait longest for their turn. */
  lemma TicketBatchIsUnique(
    tickets: map<Id, Ticket>, locked: set<Id>, limit: int, now: Time, a: set<Id>, b: set<Id>)
    requires IsEarliest(DueTickets(tickets, locked, now), limit, TicketOrder(tickets), a)
    requires IsEarliest(DueTickets(tickets, locked, now), limit, TicketOrder(tickets), b)
    ensures a == b && IsTicketBatch(tickets, a, limit, now)
  {
    TicketOrderAsymmetric(tickets);
    EarliestIsUnique(DueTickets(tickets, locked, now), limit, TicketOrder(tickets), a, b);
    hide TicketBefore, TicketDue;
  }

  class TicketQueue {
    var db: Db

    constructor (start: Db)
      ensures db == start
    {
      db := start;
    }

    /** Claims the first due tickets, in the statement's ordering, that no other
        statement holds locked. */
    method ClaimMatchmakingTickets(request: TicketRequest, locked: set<Id>) returns (reply: Reply, batch: set<Id>)
      modifies this
      ensures !request.Valid() ==> reply == Failed(InvalidCommand) && batch == {} && db == old(db)
      ensures request.Valid() ==>
        && reply == Changed
        && IsEarliest(
             DueTickets(old(db.tickets), locked, request.claimedAt), request.limit, TicketOrder(old(db.tickets)), batch)
        && db == old(db).(tickets := ClaimTickets(old(db.tickets), batch, request.token, request.leaseUntil))
    {
      if !request.Valid() {
        return Failed(InvalidCommand), {};
      }
      TicketOrderDecides(db.tickets, locked, request.claimedAt);
      hide *;
      batch := SelectEarliest(
        DueTickets(db.tickets, locked, request.claimedAt), request.limit, TicketOrder(db.tickets));
      db := db.(tickets := ClaimTickets(db.tickets, batch, request.token, request.leaseUntil));
      reply := Changed;
    }

    method ScheduleTicketRetry(ticketId: Id, token: Id, retryAt: Time, clock: Time) returns (reply: Reply)
      modifies this
      ensures Change(db, reply) == RetryTicket(old(db), ticketId, token, retryAt, clock)
    {
      if ticketId == 0 || token == 0 || retryAt == 0 {
        return Failed(InvalidCommand);
      }
      if ticketId !in db.tickets || !db.tickets[ticketId].status.Queued?
        || !db.tickets[ticketId].OwnedBy(token, clock) {
        return Failed(TicketClaimLost);
      }
      var ticket := db.tickets[ticketId].(nextAttemptAt := Some(retryAt), claim := None);
      db := db.(tickets := db.tickets[ticketId := ticket]);
      reply := Changed;
    }
  }
}

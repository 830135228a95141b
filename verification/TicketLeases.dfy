/** A worker that is handed a ticket has it to itself while its lease runs. */
module TicketLeases {
  import opened Common
  import opened Database
  import opened TicketStore
  import opened ResultStore
  import opened MatchmakingQueue
  import opened Lifecycle

  /** The step hands the ticket out. */
  ghost predicate HandsOut(db: Db, step: Step, t: Id) {
    && step.ClaimStep? && t in step.tickets
    && step.token != 0 && step.claimLimit > 0 && step.now < step.until
    && IsTicketBatch(db.tickets, step.tickets, step.claimLimit, step.now)
  }

  /** The step reschedules the ticket under that token. */
  ghost predicate GivesBack(db: Db, step: Step, t: Id, token: Id) {
    && step.RetryStep? && step.ticketId == t && step.retryToken == token
    && RetryTicket(db, t, token, step.retryAt, step.clock).reply.Changed?
  }

  ghost predicate Held(tickets: map<Id, Ticket>, t: Id, lease: TicketClaim) {
    t in tickets && (tickets[t].status.Queued? ==> tickets[t].claim == Some(lease))
  }

  lemma HandsOutLease(db: Db, step: Step, t: Id)
    requires HandsOut(db, step, t)
    ensures Held(Apply(db, step).tickets, t, TicketClaim(step.token, step.until))
  {
  }

  lemma HeldIsNotDue(db: Db, step: Step, t: Id, lease: TicketClaim)
    requires Held(db.tickets, t, lease) && step.ClaimStep? && step.now < lease.until
    ensures !HandsOut(db, step, t)
  {
  }

  /** Transactions take a ticket out of the queue, or leave it as it is. */
  lemma AcceptKeeps(db: Db, step: Step, t: Id, lease: TicketClaim)
    requires Held(db.tickets, t, lease) && step.AcceptStep?
    ensures Held(Apply(db, step).tickets, t, lease)
  {
    hide EventRefused, Configured, TicketEvent, NewTicket;
  }

  lemma LeaveKeeps(
    db: Db, ticketId: Id, commandId: Id, digest: CommandDigest, next: TicketStatus, eventId: Id, eventType: Id,
    at: Time,
    t: Id, lease: TicketClaim)
    requires Held(db.tickets, t, lease) && ticketId in db.tickets && !next.Queued?
    ensures Held(LeaveQueue(db, ticketId, commandId, digest, next, eventId, eventType, at).tickets, t, lease)
  {
    hide TicketEvent;
  }

  lemma CancelKeeps(db: Db, c: CancelCommand, t: Id, lease: TicketClaim)
    requires Held(db.tickets, t, lease)
    ensures Held(Cancel(db, c).db.tickets, t, lease)
  {
    hide EventRefused, LeaveQueue, Held;
    if Cancel(db, c).reply.Changed? {
      LeaveKeeps(
        db, c.ticketId, c.commandId, CancelDigest, Cancelled(c.cancelledAt), c.eventId, TICKET_CANCELLED, c.cancelledAt,
        t, lease);
    }
  }

  lemma ExpireKeeps(db: Db, c: ExpireCommand, clock: Time, t: Id, lease: TicketClaim)
    requires Held(db.tickets, t, lease)
    ensures Held(Expire(db, c, clock).db.tickets, t, lease)
  {
    hide EventRefused, LeaveQueue, Held;
    if Expire(db, c, clock).reply.Changed? {
      LeaveKeeps(
        db, c.ticketId, c.commandId, ExpireDigest(c.deadline), Expired(c.expiredAt), c.eventId, TICKET_EXPIRED,
        c.expiredAt,
        t, lease);
    }
  }

  lemma AssignKeeps(db: Db, step: Step, t: Id, lease: TicketClaim)
    requires Held(db.tickets, t, lease) && step.AssignStep?
    ensures Held(Apply(db, step).tickets, t, lease)
  {
    hide EventRefused, TicketEvent, Members, Seats, PlayerSeated, ConfigOf, AddShadowWork, EventOf;
  }

  lemma FinalizeKeeps(db: Db, step: Step, t: Id, lease: TicketClaim)
    requires Held(db.tickets, t, lease) && step.FinalizeStep?
    ensures Held(Apply(db, step).tickets, t, lease)
  {
    hide ParticipantsMatch, ConfigOf, FinishSessions, AddShadowWork, EventRefused, EventOf, Held;
  }

  lemma ExpireRoomsKeeps(db: Db, step: Step, t: Id, lease: TicketClaim)
    requires Held(db.tickets, t, lease) && step.ExpireRoomsStep?
    ensures Held(Apply(db, step).tickets, t, lease)
  {
    if IsDueBatch(db, step.batch, step.limit, step.at) {
      ExpiryIsExact(db, step.batch, step.limit, step.at);
    }
    hide IsDueBatch, ExpireEach, EventsFresh, ExpiredRows, ForfeitIn, ExpiryEvents, Held;
  }

  lemma ClaimKeeps(db: Db, step: Step, t: Id, lease: TicketClaim)
    requires Held(db.tickets, t, lease) && step.ClaimStep? && step.now < lease.until
    ensures Held(Apply(db, step).tickets, t, lease)
  {
  }

  lemma RetryKeeps(db: Db, step: Step, t: Id, lease: TicketClaim)
    requires Held(db.tickets, t, lease) && step.RetryStep? && !GivesBack(db, step, t, lease.token)
    ensures Held(Apply(db, step).tickets, t, lease)
  {
  }

  lemma StepKeepsLease(db: Db, step: Step, t: Id, lease: TicketClaim)
    requires Held(db.tickets, t, lease) && !GivesBack(db, step, t, lease.token)
    requires step.ClaimStep? ==> step.now < lease.until
    ensures Held(Apply(db, step).tickets, t, lease)
  {
    hide Held, Accept, Cancel, Expire, Assign, Finalize, ExpireDue, ClaimDue, RetryTicket;
    match step
    case AcceptStep(_) => AcceptKeeps(db, step, t, lease);
    case CancelStep(c) => CancelKeeps(db, c, t, lease);
    case ExpireStep(c, clock) => ExpireKeeps(db, c, clock, t, lease);
    case AssignStep(_, _) => AssignKeeps(db, step, t, lease);
    case FinalizeStep(_, _) => FinalizeKeeps(db, step, t, lease);
    case ExpireRoomsStep(_, _, _) => ExpireRoomsKeeps(db, step, t, lease);
    case ClaimStep(_, _, _, _, _) => ClaimKeeps(db, step, t, lease);
    case RetryStep(_, _, _, _) => RetryKeeps(db, step, t, lease);
    case CreateRoom(_, _) =>
    case StartSession(_) =>
  }

  lemma {:induction false} LeaseHolds(db: Db, steps: seq<Step>, t: Id, lease: TicketClaim, i: nat, j: nat)
    requires i <= j <= |steps| && Held(Run(db, steps[..i]).tickets, t, lease)
    requires forall k :: i <= k < j ==> !GivesBack(Run(db, steps[..k]), steps[k], t, lease.token)
    requires forall k :: i <= k < j && steps[k].ClaimStep? ==> steps[k].now < lease.until
    ensures Held(Run(db, steps[..j]).tickets, t, lease)
  {
    hide Held, GivesBack, Apply, Run;
    if i < j {
      LeaseHolds(db, steps, t, lease, i, j - 1);
      StepKeepsLease(Run(db, steps[..j - 1]), steps[j - 1], t, lease);
      RunOneMore(db, steps, j - 1);
    }
  }

  lemma {:induction false} RunOneMore(db: Db, steps: seq<Step>, k: nat)
    requires k < |steps|
    ensures Run(db, steps[..k + 1]) == Apply(Run(db, steps[..k]), steps[k])
    decreases k
  {
    hide Apply;
    if k == 0 {
      assert steps[..0] == [] && steps[..1] == [steps[0]] && [steps[0]][1..] == [];
      assert Run(db, steps[..1]) == Run(Apply(db, steps[0]), []);
    } else {
      var next := Apply(db, steps[0]);
      RunOneMore(next, steps[1..], k - 1);
      assert steps[..k + 1][1..] == steps[1..][..k] && steps[..k][1..] == steps[1..][..k - 1];
      assert Run(db, steps[..k + 1]) == Run(next, steps[1..][..k]);
      assert Run(db, steps[..k]) == Run(next, steps[1..][..k - 1]);
    }
  }

  lemma ClaimsHandOut(db: Db, steps: seq<Step>, i: nat, t: Id)
    requires i < |steps| && HandsOut(Run(db, steps[..i]), steps[i], t)
    ensures steps[i].ClaimStep?
  {
  }

  /** In every run, from any tables: if a ticket is handed out a second time by a
      claim whose clock has not passed the end of the first lease, and no claim in
      between has passed it either, then the first worker gave the ticket back in
      the meantime. */
  lemma OneClaimPerTicket(db: Db, steps: seq<Step>, i: nat, j: nat, t: Id)
    requires i < j < |steps|
    requires HandsOut(Run(db, steps[..i]), steps[i], t)
    requires HandsOut(Run(db, steps[..j]), steps[j], t)
    requires forall k :: i < k <= j && steps[k].ClaimStep? ==> steps[k].now < steps[i].until
    ensures exists k :: i < k < j && GivesBack(Run(db, steps[..k]), steps[k], t, steps[i].token)
  {
    ClaimsHandOut(db, steps, i, t);
    hide Held, GivesBack, HandsOut, Apply, Run;
    var lease := TicketClaim(steps[i].token, steps[i].until);
    RunOneMore(db, steps, i);
    HandsOutLease(Run(db, steps[..i]), steps[i], t);
    if forall k :: i < k < j ==> !GivesBack(Run(db, steps[..k]), steps[k], t, lease.token) {
      LeaseHolds(db, steps, t, lease, i + 1, j);
      HeldIsNotDue(Run(db, steps[..j]), steps[j], t, lease);
      assert false;
    }
  }

  // ---------------------------------------------------------------------
  // Stale workers
  // ---------------------------------------------------------------------

  /** An assignment or an expiry of the ticket by a worker under another token. */
  ghost predicate ByAnother(step: Step, t: Id, token: Id) {
    || (step.AssignStep? && step.assign.ticketId == t && step.assign.claimToken != 0 && step.assign.claimToken != token)
    || (step.ExpireStep? && step.expire.ticketId == t && step.expire.claimToken != token)
  }

  lemma AnotherAssigns(db: Db, c: AssignCommand, clock: Time, lease: TicketClaim)
    requires Held(db.tickets, c.ticketId, lease) && c.claimToken != 0 && c.claimToken != lease.token
    ensures Assign(db, c, clock).db == db && !Assign(db, c, clock).reply.Changed?
  {
    hide RoomAvailable, AssignCommand.Valid, Seat, Fills, AssignmentCollides;
  }

  lemma AnotherExpires(db: Db, c: ExpireCommand, clock: Time, lease: TicketClaim)
    requires Held(db.tickets, c.ticketId, lease) && c.claimToken != lease.token
    ensures Expire(db, c, clock).db == db && !Expire(db, c, clock).reply.Changed?
  {
    hide LeaveQueue, EventRefused;
  }

  /** In every run, from any tables: once a ticket has been handed out, and while no
      claim has passed the end of the lease and its worker has not given the ticket
      back, no assignment and no expiry under another token changes any table. */
  lemma StaleWorkerChangesNothing(db: Db, steps: seq<Step>, i: nat, j: nat, t: Id)
    requires i < j < |steps|
    requires HandsOut(Run(db, steps[..i]), steps[i], t)
    requires forall k :: i < k < j && steps[k].ClaimStep? ==> steps[k].now < steps[i].until
    requires forall k :: i < k < j ==> !GivesBack(Run(db, steps[..k]), steps[k], t, steps[i].token)
    requires ByAnother(steps[j], t, steps[i].token)
    ensures Run(db, steps[..j + 1]) == Run(db, steps[..j])
  {
    ClaimsHandOut(db, steps, i, t);
    hide Held, GivesBack, HandsOut, Apply, Run, ByAnother;
    var lease := TicketClaim(steps[i].token, steps[i].until);
    RunOneMore(db, steps, i);
    HandsOutLease(Run(db, steps[..i]), steps[i], t);
    LeaseHolds(db, steps, t, lease, i + 1, j);
    RunOneMore(db, steps, j);
    AnotherSteps(Run(db, steps[..j]), steps[j], t, lease);
  }

  lemma AnotherSteps(db: Db, step: Step, t: Id, lease: TicketClaim)
    requires Held(db.tickets, t, lease) && ByAnother(step, t, lease.token)
    ensures Apply(db, step) == db
  {
    hide Held, Assign, Expire;
    if step.AssignStep? {
      AnotherAssigns(db, step.assign, step.clock, lease);
    } else {
      AnotherExpires(db, step.expire, step.clock, lease);
    }
  }
}

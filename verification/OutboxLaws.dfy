/** What the completions of the outbox achieve: delivered events stay delivered and
    make way for their successors, postponed ones wait, buried ones block until they
    are re-driven, and a lease keeps other workers out. */
module OutboxLaws {
  import opened Common
  import opened Outbox
  import opened OutboxReceiver
  import opened OutboxRunner
  import opened OutboxRuns

  /** The token holds a live lease on an event that is neither delivered nor dead. */
  ghost predicate Holds(rows: Table, id: Id, token: Id, clock: Time) {
    && id in rows && rows[id].deliveredAt.None? && rows[id].deadLetter.None?
    && rows[id].lease.Some? && rows[id].lease.value.token == token && clock < rows[id].lease.value.until
  }

  /** Only row `id` differs, and only in what a completion may touch. */
  ghost predicate OnlyRow(rows: Table, after: Table, id: Id) {
    && id in rows && after.Keys == rows.Keys
    && (forall other :: other in rows && other != id ==> after[other] == rows[other])
    && after[id].event == rows[id].event && after[id].attempts == rows[id].attempts && after[id].lease.None?
  }

  // ---------------------------------------------------------------------
  // One completion
  // ---------------------------------------------------------------------

  /** An acknowledgement succeeds exactly for the holder of a live lease, at a time
      not before the event, and then the event is delivered at that time. */
  lemma AcknowledgementDelivers(rows: Table, id: Id, token: Id, at: Time, clock: Time)
    requires WellFormed(rows) && id != 0 && token != 0 && at != 0
    ensures var write := MarkDelivered(rows, id, token, at, clock);
      && (write.outcome == Done <==> Holds(rows, id, token, clock) && rows[id].event.occurredAt <= at)
      && (write.outcome == Done ==>
        && OnlyRow(rows, write.rows, id)
        && write.rows[id].deliveredAt == Some(at) && write.rows[id].deadLetter.None?
        && forall now :: !Claimable(write.rows, id, now))
      && (write.outcome != Done ==> write.rows == rows)
  {
    hide IsHead;
  }

  /** A burial keeps the event undelivered and makes it unclaimable. */
  lemma BurialBuries(rows: Table, id: Id, token: Id, at: Time, clock: Time, reason: string)
    requires WellFormed(rows) && id != 0 && token != 0 && at != 0 && 0 < |reason| <= MAX_DELIVERY_ERROR
    ensures var write := MarkDeadLettered(rows, id, token, at, clock, reason);
      && (write.outcome == Done <==> Holds(rows, id, token, clock))
      && (write.outcome == Done ==>
        && OnlyRow(rows, write.rows, id)
        && write.rows[id].deadLetter == Some(DeadLetter(at, reason)) && write.rows[id].deliveredAt.None?
        && forall now :: !Claimable(write.rows, id, now))
      && (write.outcome != Done ==> write.rows == rows)
  {
    hide IsHead;
  }

  /** A retry gives the lease back: the event can be claimed again from the new time
      on, provided nothing comes before it, and not earlier. */
  lemma RetryPostpones(rows: Table, id: Id, token: Id, at: Time, clock: Time, error: string)
    requires WellFormed(rows) && id != 0 && token != 0 && at != 0 && 0 < |error| <= MAX_DELIVERY_ERROR
    ensures var write := ScheduleRetry(rows, id, token, at, clock, error);
      && (write.outcome == Done <==> Holds(rows, id, token, clock) && rows[id].event.occurredAt <= at)
      && (write.outcome == Done ==>
        && OnlyRow(rows, write.rows, id)
        && write.rows[id].deliveredAt.None? && write.rows[id].deadLetter.None?
        && write.rows[id].lastError == Some(error)
        && forall now :: Claimable(write.rows, id, now) <==> at <= now && IsHead(write.rows, id))
      && (write.outcome != Done ==> write.rows == rows)
  {
    hide IsHead;
  }

  /** A re-drive revives exactly a dead letter, which is then claimable from the
      given time on. */
  lemma RedriveRevives(rows: Table, id: Id, at: Time)
    requires WellFormed(rows) && id != 0 && at != 0
    ensures var write := Redrive(rows, id, at);
      && (write.outcome == Done <==>
        id in rows && rows[id].deadLetter.Some? && rows[id].event.occurredAt <= at)
      && (write.outcome == Done ==>
        && OnlyRow(rows, write.rows, id)
        && write.rows[id].deliveredAt.None? && write.rows[id].deadLetter.None? && write.rows[id].lastError.None?
        && forall now :: Claimable(write.rows, id, now) <==> at <= now && IsHead(write.rows, id))
      && (write.outcome != Done ==> write.rows == rows)
  {
    hide IsHead;
  }

  /** A claim puts every row of its batch under the lease of its token, counts one
      attempt, and leaves the other rows alone. */
  lemma ClaimLeases(rows: Table, locked: set<Id>, request: ClaimRequest, batch: set<Id>, id: Id, clock: Time)
    requires WellFormed(rows) && request.Valid() && IsBatch(rows, locked, request, batch) && id in rows
    ensures var after := ClaimRows(rows, batch, request);
      && after.Keys == rows.Keys && after[id].event == rows[id].event
      && (id in batch ==>
        && (Holds(after, id, request.token, clock) <==> clock < request.leaseUntil)
        && after[id].attempts == rows[id].attempts + 1
        && forall now :: now < request.leaseUntil ==> !Claimable(after, id, now))
      && (id !in batch ==> after[id] == rows[id])
  {
    hide IsHead, DueBefore;
  }

  /** A batch never prefers an event to one that has been due for longer. */
  lemma LongestDueFirst(rows: Table, locked: set<Id>, request: ClaimRequest, batch: set<Id>, taken: Id, left: Id)
    requires IsBatch(rows, locked, request, batch) && taken in batch
    requires left !in batch && left !in locked && Claimable(rows, left, request.claimedAt)
    ensures rows[taken].availableAt <= rows[left].availableAt
    ensures rows[taken].availableAt == rows[left].availableAt ==>
      rows[taken].event.occurredAt <= rows[left].event.occurredAt
  {
    hide IsHead;
  }

  // ---------------------------------------------------------------------
  // One aggregate
  // ---------------------------------------------------------------------

  /** `next` is the first event of the aggregate that is undelivered when `first` is
      not counted. */
  ghost predicate IsNextPending(rows: Table, first: Id, next: Id)
    requires first in rows
  {
    && next in rows && next != first && Pending(rows, next) && rows[next].event.SameAggregate(rows[first].event)
    && forall p :: p in rows && p != first && Pending(rows, p) ==> !rows[p].event.Precedes(rows[next].event)
  }

  /** Delivering the first pending event of an aggregate makes its next one the
      first: exactly that one can be claimed then, unless it is a dead letter. */
  lemma DeliveryPassesOn(rows: Table, first: Id, token: Id, at: Time, clock: Time, next: Id)
    requires WellFormed(rows) && FirstPending(rows, first)
    requires MarkDelivered(rows, first, token, at, clock).outcome == Done
    ensures var after := MarkDelivered(rows, first, token, at, clock).rows;
      && WellFormed(after)
      && (next in rows && rows[next].event.SameAggregate(rows[first].event) ==>
        (FirstPending(after, next) <==> IsNextPending(rows, first, next)))
  {
    AcknowledgementParts(rows, first, token, at, clock);
    var after := MarkDelivered(rows, first, token, at, clock).rows;
    hide MarkDelivered;
    assert forall p :: p in rows ==> (Pending(after, p) <==> Pending(rows, p) && p != first);
  }

  lemma AcknowledgementParts(rows: Table, id: Id, token: Id, at: Time, clock: Time)
    requires WellFormed(rows) && MarkDelivered(rows, id, token, at, clock).outcome == Done
    ensures var after := MarkDelivered(rows, id, token, at, clock).rows;
      && id in rows && after.Keys == rows.Keys && WellFormed(after)
      && (forall p :: p in rows ==> after[p].event == rows[p].event)
      && (forall p :: p in rows && p != id ==> after[p] == rows[p])
      && after[id].deliveredAt == Some(at)
  {
    hide IsHead;
  }

  // ---------------------------------------------------------------------
  // In every continuation
  // ---------------------------------------------------------------------

  ghost predicate DeliveredAt(rows: Table, id: Id, at: Time) {
    id in rows && rows[id].deliveredAt == Some(at)
  }

  lemma DeliveredStep(w: World, id: Id, at: Time, step: Step)
    requires WellFormed(w.rows) && DeliveredAt(w.rows, id, at) && Enabled(w, step)
    ensures DeliveredAt(Apply(w, step).rows, id, at)
  {
    hide IsHead, DueBefore;
  }

  /** What was delivered stays delivered, at that time, and is never claimed again. */
  lemma {:induction false} DeliveredForever(w: World, id: Id, at: Time, steps: seq<Step>)
    requires Inv(w) && DeliveredAt(w.rows, id, at) && CanRun(w, steps)
    ensures DeliveredAt(Run(w, steps).rows, id, at)
    ensures forall now :: !Claimable(Run(w, steps).rows, id, now)
    decreases |steps|
  {
    hide IsHead;
    if steps != [] {
      StepKeepsInv(w, steps[0]);
      InvWellFormed(w);
      DeliveredStep(w, id, at, steps[0]);
      hide Inv, DeliveredAt, Enabled, Apply, Claimable;
      DeliveredForever(Apply(w, steps[0]), id, at, steps[1..]);
    }
  }

  lemma InvWellFormed(w: World)
    requires Inv(w)
    ensures WellFormed(w.rows)
  {
  }

  /** A dead letter waits for a re-drive: without one it stays what it is. */
  lemma {:induction false} BuriedUntilRedriven(w: World, id: Id, letter: DeadLetter, steps: seq<Step>)
    requires Inv(w) && id in w.rows && w.rows[id].deadLetter == Some(letter) && CanRun(w, steps)
    requires forall i :: 0 <= i < |steps| ==> !(steps[i].Revive? && steps[i].id == id)
    ensures id in Run(w, steps).rows && Run(w, steps).rows[id].deadLetter == Some(letter)
    ensures forall now :: !Claimable(Run(w, steps).rows, id, now)
    decreases |steps|
  {
    hide IsHead;
    if steps != [] {
      StepKeepsInv(w, steps[0]);
      InvWellFormed(w);
      BuriedStep(w, id, letter, steps[0]);
      hide Inv, Enabled, Apply, Claimable;
      BuriedUntilRedriven(Apply(w, steps[0]), id, letter, steps[1..]);
    }
  }

  lemma BuriedStep(w: World, id: Id, letter: DeadLetter, step: Step)
    requires WellFormed(w.rows) && id in w.rows && w.rows[id].deadLetter == Some(letter) && Enabled(w, step)
    requires !(step.Revive? && step.id == id)
    ensures id in Apply(w, step).rows && Apply(w, step).rows[id].deadLetter == Some(letter)
  {
    hide IsHead, DueBefore;
  }

  /** The row is leased to that token, or is in no state to be claimed. */
  ghost predicate Kept(rows: Table, id: Id, lease: Lease) {
    id in rows && (rows[id].lease == Some(lease) || rows[id].deliveredAt.Some? || rows[id].deadLetter.Some?)
  }

  /** The step is a retry or a re-drive of the event. */
  ghost predicate LetsGo(step: Step, id: Id) {
    (step.Retry? && step.claim.event.eventId == id) || (step.Revive? && step.id == id)
  }

  lemma KeptStep(w: World, id: Id, lease: Lease, step: Step)
    requires WellFormed(w.rows) && Kept(w.rows, id, lease) && Enabled(w, step) && !LetsGo(step, id)
    requires step.ClaimBatch? ==> step.request.claimedAt < lease.until
    ensures Kept(Apply(w, step).rows, id, lease)
    ensures step.ClaimBatch? ==> id !in step.batch
  {
    hide IsHead, DueBefore;
  }

  /** While a lease runs nobody else is handed the event: a claim whose clock has not
      passed the lease takes it only after a retry or a re-drive. */
  lemma {:induction false} LeaseExcludes(w: World, id: Id, lease: Lease, steps: seq<Step>, claim: Step)
    requires Inv(w) && Kept(w.rows, id, lease) && CanRun(w, steps)
    requires forall i :: 0 <= i < |steps| ==>
      !LetsGo(steps[i], id) && (steps[i].ClaimBatch? ==> steps[i].request.claimedAt < lease.until)
    requires claim.ClaimBatch? && claim.request.claimedAt < lease.until && Enabled(Run(w, steps), claim)
    ensures id !in claim.batch
    decreases |steps|
  {
    InvWellFormed(w);
    if steps == [] {
      KeptStep(w, id, lease, claim);
    } else {
      KeptStep(w, id, lease, steps[0]);
      StepKeepsInv(w, steps[0]);
      hide Inv, Kept, LetsGo, Enabled, Apply;
      LeaseExcludes(Apply(w, steps[0]), id, lease, steps[1..], claim);
    }
  }

  // ---------------------------------------------------------------------
  // One cycle of the worker
  // ---------------------------------------------------------------------

  /** What a cycle leaves behind for one claim whose lease was alive when it was
      settled: a published event is delivered, a permanently refused one buried, and
      any other waits for its delay. */
  lemma CycleSettles(
    options: RunnerOptions, rows: Table, locked: set<Id>, request: ClaimRequest, batch: set<Id>,
    after: Table, attempts: Claim -> Attempt, claim: Claim)
    requires WellFormed(rows) && request.Valid() && IsBatch(rows, locked, request, batch) && batch <= rows.Keys
    requires IsSettled(
      options, ClaimRows(rows, batch, request), after, ClaimsOf(rows, batch, request), attempts)
    requires claim in ClaimsOf(rows, batch, request)
    requires attempts(claim).clock < request.leaseUntil && attempts(claim).now != 0
    requires claim.event.occurredAt <= attempts(claim).now
    ensures claim.event.eventId in after
    ensures var row, x := after[claim.event.eventId], attempts(claim);
      && row.event == claim.event
      && (x.publication.Published? ==> row.deliveredAt == Some(x.now) && row.lease.None?)
      && (x.publication.Permanent? && x.publication.error != "" ==>
        && row.deliveredAt.None? && row.lease.None?
        && row.deadLetter == Some(DeadLetter(x.now, Bounded(x.publication.error))))
      && (x.publication.Retryable? && x.publication.error != "" && x.now + Backoff(options, claim.attempt) != 0
          && claim.event.occurredAt <= x.now + Backoff(options, claim.attempt) ==>
        && row.deliveredAt.None? && row.deadLetter.None? && row.lease.None?
        && row.availableAt == x.now + Backoff(options, claim.attempt))
  {
    var id := claim.event.eventId;
    ClaimedRow(rows, locked, request, batch, claim);
    var leased := ClaimRows(rows, batch, request);
    var x := attempts(claim);
    hide IsBatch, ClaimRows, ClaimsOf, IsHead, Backoff;
    assert after[id] == Settle(options, leased, claim, x).rows[id];
  }

  lemma ClaimedRow(rows: Table, locked: set<Id>, request: ClaimRequest, batch: set<Id>, claim: Claim)
    requires WellFormed(rows) && request.Valid() && IsBatch(rows, locked, request, batch) && batch <= rows.Keys
    requires claim in ClaimsOf(rows, batch, request)
    ensures var leased := ClaimRows(rows, batch, request);
      && claim.event.eventId in leased && claim.token == request.token && claim.event.eventId != 0
      && claim.token != 0
      && leased[claim.event.eventId].event == claim.event
      && leased[claim.event.eventId].Open()
      && leased[claim.event.eventId].lease == Some(Lease(request.token, request.leaseUntil))
  {
    hide IsHead, DueBefore;
  }
}

/** Whole runs of the outbox, its workers and its consumer. */
module OutboxRuns {
  import opened Common
  import opened Outbox
  import opened OutboxReceiver

  datatype Reply = Reply(claim: Claim, status: Status)

  /** The table, the consumer, and everything workers and the network may still
      act on. Claims and replies are never removed, so a request may arrive late
      or twice, its reply may be lost, and a stale worker may act at any time. */
  datatype World = World(
    rows: Table,
    consumer: Applied,
    claims: set<Claim>,
    replies: set<Reply>,
    tokens: set<Id>)

  datatype Step =
    | Append(event: Event, availableAt: Time)
    | ClaimBatch(request: ClaimRequest, locked: set<Id>, batch: set<Id>)
    | Deliver(claim: Claim, applySucceeds: bool)
    | Acknowledge(claim: Claim, at: Time, clock: Time)
    | Retry(claim: Claim, at: Time, clock: Time, error: string)
    | Bury(claim: Claim, at: Time, clock: Time, reason: string)
    | Revive(id: Id, at: Time)

  const START := World(map[], Applied(map[], []), {}, {}, {})

  /** Events are appended in version order under new identities, claim tokens
      are fresh, and a worker acknowledges only after its own success reply.
      Every clock reading is arbitrary. */
  ghost predicate Enabled(w: World, step: Step) {
    match step
    case Append(event, availableAt) =>
      && event.Valid() && event.eventId !in w.rows && availableAt >= event.occurredAt
      && forall id :: id in w.rows && w.rows[id].event.SameAggregate(event) ==> w.rows[id].event.version < event.version
    case ClaimBatch(request, locked, batch) =>
      request.Valid() && request.token !in w.tokens && IsBatch(w.rows, locked, request, batch)
    case Deliver(claim, _) => claim in w.claims
    case Acknowledge(claim, _, _) => Reply(claim, NoContent) in w.replies
    case Retry(claim, _, _, _) => claim in w.claims
    case Bury(claim, _, _, _) => claim in w.claims
    case Revive(_, _) => true
  }

  ghost function Apply(w: World, step: Step): World
    requires Enabled(w, step)
  {
    match step
    case Append(event, availableAt) =>
      w.(rows := w.rows[event.eventId := Row(event, availableAt, 0, None, None, None, None)])
    case ClaimBatch(request, _, batch) =>
      w.(rows := ClaimRows(w.rows, batch, request),
         claims := w.claims + ClaimsOf(w.rows, batch, request),
         tokens := w.tokens + {request.token})
    case Deliver(claim, applySucceeds) =>
      var served := Serve(w.consumer, claim.event.eventId, claim.event, applySucceeds);
      w.(consumer := served.state, replies := w.replies + {Reply(claim, served.status)})
    case Acknowledge(claim, at, clock) =>
      w.(rows := MarkDelivered(w.rows, claim.event.eventId, claim.token, at, clock).rows)
    case Retry(claim, at, clock, error) =>
      w.(rows := ScheduleRetry(w.rows, claim.event.eventId, claim.token, at, clock, error).rows)
    case Bury(claim, at, clock, reason) =>
      w.(rows := MarkDeadLettered(w.rows, claim.event.eventId, claim.token, at, clock, reason).rows)
    case Revive(id, at) =>
      w.(rows := Redrive(w.rows, id, at).rows)
  }

  ghost predicate CanRun(w: World, steps: seq<Step>)
    decreases |steps|
  {
    steps == [] || (Enabled(w, steps[0]) && CanRun(Apply(w, steps[0]), steps[1..]))
  }

  ghost function Run(w: World, steps: seq<Step>): World
    requires CanRun(w, steps)
    decreases |steps|
  {
    if steps == [] then w else Run(Apply(w, steps[0]), steps[1..])
  }

  // ---------------------------------------------------------------------
  // Invariant
  // ---------------------------------------------------------------------

  ghost predicate IsDelivered(rows: Table, id: Id) {
    id in rows && rows[id].deliveredAt.Some?
  }

  ghost predicate IsAttempted(rows: Table, id: Id) {
    id in rows && rows[id].attempts > 0
  }

  /** An event is handed out only after everything before it was delivered. */
  ghost predicate InOrder(rows: Table) {
    forall p, id :: p in rows && IsAttempted(rows, id) && rows[p].event.Precedes(rows[id].event) ==>
      IsDelivered(rows, p)
  }

  /** A stored row under that identity carries exactly this content and has been
      handed out. */
  ghost predicate HandedOut(rows: Table, event: Event) {
    IsAttempted(rows, event.eventId) && rows[event.eventId].event == event
  }

  ghost predicate ClaimsGenuine(w: World) {
    && (forall c :: c in w.claims ==> HandedOut(w.rows, c.event) && c.token in w.tokens)
    && (forall r :: r in w.replies ==> r.claim in w.claims)
    && (forall id :: id in w.rows && w.rows[id].lease.Some? ==> w.rows[id].lease.value.token in w.tokens)
  }

  ghost predicate ConsumerGenuine(w: World) {
    && (forall id :: id in w.consumer.byId ==>
      w.consumer.byId[id].eventId == id && HandedOut(w.rows, w.consumer.byId[id]))
    && (forall id :: IsDelivered(w.rows, id) ==> id in w.consumer.byId)
    && (forall r :: r in w.replies && r.status == NoContent ==> r.claim.event.eventId in w.consumer.byId)
    && (forall r :: r in w.replies ==> r.status == NoContent || r.status == ApplyFailed)
  }

  /** The log lists each applied event once, and each aggregate's in order. */
  ghost predicate LogOrdered(a: Applied) {
    && (forall i :: 0 <= i < |a.log| ==> a.log[i].eventId in a.byId && a.byId[a.log[i].eventId] == a.log[i])
    && (forall id :: id in a.byId ==> a.byId[id] in a.log)
    && (forall i, j :: 0 <= i < j < |a.log| ==> a.log[i].eventId != a.log[j].eventId)
    && (forall i, j :: 0 <= i < j < |a.log| && a.log[i].SameAggregate(a.log[j]) ==> a.log[i].Precedes(a.log[j]))
  }

  ghost predicate Inv(w: World) {
    WellFormed(w.rows) && InOrder(w.rows) && ClaimsGenuine(w) && ConsumerGenuine(w) && LogOrdered(w.consumer)
  }

  // ---------------------------------------------------------------------
  // Steps that write one row
  // ---------------------------------------------------------------------

  /** A statement that keeps the stored events and the attempt counts, and does
      not lose deliveries. */
  ghost predicate RowsEvolve(before: Table, after: Table) {
    && after.Keys == before.Keys
    && (forall id :: id in before ==>
      && after[id].event == before[id].event
      && after[id].attempts == before[id].attempts
      && (before[id].deliveredAt.Some? ==> after[id].deliveredAt.Some?)
      && (after[id].lease.Some? ==> after[id].lease == before[id].lease)
      && after[id].Allowed())
  }

  lemma CompleteEvolves(rows: Table, id: Id, token: Id, clock: Time, change: Row -> Row)
    requires WellFormed(rows)
    requires forall row: Row :: row.Open() ==>
      && change(row).event == row.event && change(row).attempts == row.attempts && change(row).lease.None?
    ensures RowsEvolve(rows, Complete(rows, id, token, clock, change).rows)
    ensures forall other :: IsDelivered(Complete(rows, id, token, clock, change).rows, other) ==>
      IsDelivered(rows, other) || (other == id && id in rows && change(rows[id]).deliveredAt.Some?)
  {
  }

  lemma RedriveEvolves(rows: Table, id: Id, at: Time)
    requires WellFormed(rows)
    ensures RowsEvolve(rows, Redrive(rows, id, at).rows)
    ensures forall other :: IsDelivered(Redrive(rows, id, at).rows, other) ==> IsDelivered(rows, other)
  {
  }

  lemma NothingEvolves(rows: Table)
    requires WellFormed(rows)
    ensures RowsEvolve(rows, rows)
  {
  }

  lemma WritesEvolve(w: World, step: Step)
    requires WellFormed(w.rows) && Enabled(w, step)
    requires step.Acknowledge? || step.Retry? || step.Bury? || step.Revive?
    ensures RowsEvolve(w.rows, Apply(w, step).rows)
    ensures forall id :: IsDelivered(Apply(w, step).rows, id) ==>
      IsDelivered(w.rows, id) || (step.Acknowledge? && id == step.claim.event.eventId)
    ensures Apply(w, step) == w.(rows := Apply(w, step).rows)
  {
    hide Complete, RowsEvolve, WellFormed, Redrive;
    NothingEvolves(w.rows);
    match step
    case Acknowledge(c, at, clock) => CompleteEvolves(w.rows, c.event.eventId, c.token, clock,
      row => Delivered(row, at));
    case Retry(c, at, clock, error) => CompleteEvolves(w.rows, c.event.eventId, c.token, clock,
      row => Postponed(row, at, error));
    case Bury(c, at, clock, reason) => CompleteEvolves(w.rows, c.event.eventId, c.token, clock,
      row => Buried(row, at, reason));
    case Revive(id, at) => RedriveEvolves(w.rows, id, at);
  }

  lemma EvolutionKeepsInv(w: World, after: Table)
    requires Inv(w) && RowsEvolve(w.rows, after)
    requires forall id :: IsDelivered(after, id) ==> id in w.consumer.byId
    ensures Inv(w.(rows := after))
  {
    forall e: Event | HandedOut(w.rows, e) ensures HandedOut(after, e) {
    }
  }

  // ---------------------------------------------------------------------
  // The invariant holds throughout
  // ---------------------------------------------------------------------

  lemma AppendKeepsInv(w: World, step: Step)
    requires Inv(w) && step.Append? && Enabled(w, step)
    ensures Inv(Apply(w, step))
  {
    var after := Apply(w, step).rows;
    assert forall id :: id in w.rows ==> after[id] == w.rows[id];
    forall p, id | p in after && IsAttempted(after, id) && after[p].event.Precedes(after[id].event)
      ensures IsDelivered(after, p)
    {
      assert IsAttempted(w.rows, id);
      assert p != step.event.eventId;
    }
    forall e: Event | HandedOut(w.rows, e) ensures HandedOut(after, e) {
    }
    forall id | IsDelivered(after, id) ensures IsDelivered(w.rows, id) {
    }
  }

  lemma ClaimStaysInOrder(rows: Table, locked: set<Id>, request: ClaimRequest, batch: set<Id>)
    requires InOrder(rows) && IsBatch(rows, locked, request, batch)
    ensures InOrder(ClaimRows(rows, batch, request))
  {
    hide DueBefore;
    var after := ClaimRows(rows, batch, request);
    forall p, id | p in after && IsAttempted(after, id) && after[p].event.Precedes(after[id].event)
      ensures IsDelivered(after, p)
    {
      if id in batch {
        ClaimedAfterPredecessors(rows, id, request.claimedAt, p);
      } else {
        assert IsAttempted(rows, id);
      }
      assert IsDelivered(rows, p);
    }
  }

  lemma ClaimedAfterPredecessors(rows: Table, id: Id, now: Time, p: Id)
    requires Claimable(rows, id, now) && p in rows && rows[p].event.Precedes(rows[id].event)
    ensures IsDelivered(rows, p)
  {
    assert !Pending(rows, p);
  }

  lemma ClaimKeepsInv(w: World, step: Step)
    requires Inv(w) && step.ClaimBatch? && Enabled(w, step)
    ensures Inv(Apply(w, step))
  {
    var next := Apply(w, step);
    var after := next.rows;
    ClaimStaysInOrder(w.rows, step.locked, step.request, step.batch);
    BatchStored(w.rows, step.locked, step.request, step.batch);
    hide IsBatch, InOrder, LogOrdered;
    forall e: Event | HandedOut(w.rows, e) ensures HandedOut(after, e) {
    }
    forall id | IsDelivered(after, id) ensures IsDelivered(w.rows, id) {
    }
    forall c | c in next.claims ensures HandedOut(after, c.event) && c.token in next.tokens {
      if c !in w.claims {
        var id :| id in step.batch && c == ClaimOf(w.rows[id], step.request);
        assert after[id] == Leased(w.rows[id], step.request);
      }
    }
  }

  /** A new event reaches the consumer only after all its predecessors, and
      before all its successors. */
  lemma AppliedAfterPredecessors(w: World, event: Event, i: nat)
    requires Inv(w) && HandedOut(w.rows, event) && event.eventId !in w.consumer.byId
    requires i < |w.consumer.log| && w.consumer.log[i].SameAggregate(event)
    ensures w.consumer.log[i].Precedes(event)
  {
    var earlier := w.consumer.log[i];
    assert HandedOut(w.rows, earlier);
    assert event.Precedes(earlier) ==> IsDelivered(w.rows, event.eventId);
    PrecedesTotal(earlier, event);
  }

  lemma DeliverKeepsInv(w: World, step: Step)
    requires Inv(w) && step.Deliver? && Enabled(w, step)
    ensures Inv(Apply(w, step))
  {
    var next, event := Apply(w, step), step.claim.event;
    assert HandedOut(w.rows, event);
    assert event.Valid();
    if event.eventId !in w.consumer.byId && step.applySucceeds {
      assert next.consumer == Applied(w.consumer.byId[event.eventId := event], w.consumer.log + [event]);
      forall i | 0 <= i < |w.consumer.log| && w.consumer.log[i].SameAggregate(event)
        ensures w.consumer.log[i].Precedes(event)
      {
        AppliedAfterPredecessors(w, event, i);
      }
      LogGrows(w.consumer, event);
    } else {
      assert next.consumer == w.consumer;
    }
  }

  lemma LogGrows(a: Applied, event: Event)
    requires LogOrdered(a) && event.eventId !in a.byId
    requires forall i :: 0 <= i < |a.log| && a.log[i].SameAggregate(event) ==> a.log[i].Precedes(event)
    ensures LogOrdered(Applied(a.byId[event.eventId := event], a.log + [event]))
  {
    var b := Applied(a.byId[event.eventId := event], a.log + [event]);
    forall id | id in b.byId ensures b.byId[id] in b.log {
      if id != event.eventId {
        assert a.byId[id] in a.log;
      } else {
        assert b.log[|a.log|] == event;
      }
    }
  }

  lemma StartIsInv()
    ensures Inv(START)
  {
  }

  lemma StepKeepsInv(w: World, step: Step)
    requires Inv(w) && Enabled(w, step)
    ensures Inv(Apply(w, step))
  {
    match step
    case Append(_, _) => AppendKeepsInv(w, step);
    case ClaimBatch(_, _, _) => ClaimKeepsInv(w, step);
    case Deliver(_, _) => DeliverKeepsInv(w, step);
    case _ =>
      WritesEvolve(w, step);
      EvolutionKeepsInv(w, Apply(w, step).rows);
  }

  lemma {:induction false} RunKeepsInv(w: World, steps: seq<Step>)
    requires Inv(w) && CanRun(w, steps)
    ensures Inv(Run(w, steps))
    decreases |steps|
  {
    if steps != [] {
      StepKeepsInv(w, steps[0]);
      hide Inv;
      RunKeepsInv(Apply(w, steps[0]), steps[1..]);
    }
  }

  // ---------------------------------------------------------------------
  // Delivery order
  // ---------------------------------------------------------------------

  /** In every run from the empty outbox the consumer applies each event at most
      once, with the stored content, and the events of one aggregate in the order
      of their versions. */
  lemma AppliedOnceInOrder(steps: seq<Step>)
    requires CanRun(START, steps)
    ensures var w := Run(START, steps);
      && (forall i :: 0 <= i < |w.consumer.log| ==>
        && w.consumer.log[i].eventId in w.rows
        && w.rows[w.consumer.log[i].eventId].event == w.consumer.log[i])
      && (forall i, j :: 0 <= i < j < |w.consumer.log| ==> w.consumer.log[i].eventId != w.consumer.log[j].eventId)
      && (forall i, j :: 0 <= i < j < |w.consumer.log| && w.consumer.log[i].SameAggregate(w.consumer.log[j]) ==>
        w.consumer.log[i].Precedes(w.consumer.log[j]))
  {
    RunKeepsInv(START, steps);
  }

  /** In every run the delivered events of an aggregate form a prefix of its
      events, and every one of them has been applied. */
  lemma DeliveredPrefix(steps: seq<Step>, p: Id, id: Id)
    requires CanRun(START, steps)
    requires IsDelivered(Run(START, steps).rows, id)
    ensures var w := Run(START, steps);
      && w.rows[id].event in w.consumer.log
      && (p in w.rows && w.rows[p].event.Precedes(w.rows[id].event) ==>
        IsDelivered(w.rows, p) && w.rows[p].event in w.consumer.log)
  {
    RunKeepsInv(START, steps);
    var w := Run(START, steps);
    assert HandedOut(w.rows, w.consumer.byId[id]);
    if p in w.rows && w.rows[p].event.Precedes(w.rows[id].event) {
      assert IsDelivered(w.rows, p);
      assert HandedOut(w.rows, w.consumer.byId[p]);
    }
  }

  /** The consumer never rejects what the outbox sends it. */
  lemma NeverRejected(steps: seq<Step>, reply: Reply)
    requires CanRun(START, steps) && reply in Run(START, steps).replies
    ensures reply.status == NoContent || reply.status == ApplyFailed
  {
    RunKeepsInv(START, steps);
  }

  /** At most one event of an aggregate is out for delivery at a time. */
  lemma OneLeasePerAggregate(steps: seq<Step>, a: Id, b: Id)
    requires CanRun(START, steps)
    requires var rows := Run(START, steps).rows;
      && a in rows && b in rows && rows[a].lease.Some? && rows[b].lease.Some?
      && rows[a].event.SameAggregate(rows[b].event)
    ensures a == b
  {
    RunKeepsInv(START, steps);
    LeasesAttempted(START, steps);
    var rows := Run(START, steps).rows;
    assert rows[a].event.Precedes(rows[b].event) ==> IsDelivered(rows, a);
    assert rows[b].event.Precedes(rows[a].event) ==> IsDelivered(rows, b);
    if a != b {
      PrecedesTotal(rows[a].event, rows[b].event);
      assert false;
    }
  }

  ghost predicate LeasedIsAttempted(rows: Table) {
    forall id :: id in rows && rows[id].lease.Some? ==> rows[id].attempts > 0
  }

  lemma LeasesAttemptedStep(w: World, step: Step)
    requires WellFormed(w.rows) && LeasedIsAttempted(w.rows) && Enabled(w, step)
    ensures LeasedIsAttempted(Apply(w, step).rows)
  {
    if step.Acknowledge? || step.Retry? || step.Bury? || step.Revive? {
      WritesEvolve(w, step);
    }
  }

  lemma {:induction false} LeasesAttempted(w: World, steps: seq<Step>)
    requires Inv(w) && LeasedIsAttempted(w.rows) && CanRun(w, steps)
    ensures LeasedIsAttempted(Run(w, steps).rows)
    decreases |steps|
  {
    if steps != [] {
      StepKeepsInv(w, steps[0]);
      LeasesAttemptedStep(w, steps[0]);
      hide Inv, LeasedIsAttempted, Enabled, Apply;
      LeasesAttempted(Apply(w, steps[0]), steps[1..]);
    }
  }

  // ---------------------------------------------------------------------
  // Fencing
  // ---------------------------------------------------------------------

  /** The token was once handed out, and the row is not leased under it. */
  ghost predicate FencedOut(w: World, id: Id, token: Id) {
    && token in w.tokens && id in w.rows
    && (w.rows[id].lease.Some? ==> w.rows[id].lease.value.token != token)
  }

  lemma FencedOutStep(w: World, id: Id, token: Id, step: Step)
    requires WellFormed(w.rows) && FencedOut(w, id, token) && Enabled(w, step)
    ensures FencedOut(Apply(w, step), id, token)
  {
    if step.Acknowledge? || step.Retry? || step.Bury? || step.Revive? {
      WritesEvolve(w, step);
    }
  }

  lemma {:induction false} FencedOutForever(w: World, id: Id, token: Id, steps: seq<Step>)
    requires Inv(w) && FencedOut(w, id, token) && CanRun(w, steps)
    ensures FencedOut(Run(w, steps), id, token)
    decreases |steps|
  {
    if steps != [] {
      StepKeepsInv(w, steps[0]);
      FencedOutStep(w, id, token, steps[0]);
      hide Inv, FencedOut, Enabled, Apply;
      FencedOutForever(Apply(w, steps[0]), id, token, steps[1..]);
    }
  }

  /** Once a newer claim has taken a row, no completion under any token that was
      handed out before ever changes the table again, however long the run goes
      on and whatever the clocks say. */
  lemma StaleClaimNeverWrites(
    before: seq<Step>, claim: Step, id: Id, after: seq<Step>, token: Id,
    at: Time, clock: Time, text: string)
    requires CanRun(START, before)
    requires claim.ClaimBatch? && Enabled(Run(START, before), claim) && id in claim.batch
    requires CanRun(Apply(Run(START, before), claim), after)
    requires token in Run(START, before).tokens
    ensures var rows := Run(Apply(Run(START, before), claim), after).rows;
      && MarkDelivered(rows, id, token, at, clock).rows == rows
      && MarkDeadLettered(rows, id, token, at, clock, text).rows == rows
      && ScheduleRetry(rows, id, token, at, clock, text).rows == rows
  {
    RunKeepsInv(START, before);
    var w := Run(START, before);
    StepKeepsInv(w, claim);
    NewerClaimFences(w, claim, id, token);
    var taken := Apply(w, claim);
    hide Inv, FencedOut, Enabled, Apply, Run, CanRun, MarkDelivered, MarkDeadLettered, ScheduleRetry, IsBatch;
    FencedOutForever(taken, id, token, after);
    FencedOutNeverWrites(Run(taken, after), id, token, at, clock, text);
  }

  lemma NewerClaimFences(w: World, claim: Step, id: Id, token: Id)
    requires claim.ClaimBatch? && Enabled(w, claim) && id in claim.batch && token in w.tokens
    ensures FencedOut(Apply(w, claim), id, token)
  {
  }

  lemma FencedOutNeverWrites(w: World, id: Id, token: Id, at: Time, clock: Time, text: string)
    requires FencedOut(w, id, token)
    ensures MarkDelivered(w.rows, id, token, at, clock).rows == w.rows
    ensures MarkDeadLettered(w.rows, id, token, at, clock, text).rows == w.rows
    ensures ScheduleRetry(w.rows, id, token, at, clock, text).rows == w.rows
  {
  }
}

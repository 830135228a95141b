/** A discipline under which the shadow timeline never gets stuck. */
module ShadowOrder {
  import opened Common
  import opened Database
  import opened ShadowTimeline
  import opened ShadowRuns
  import opened ShadowBlocking

  /** Items are recorded after everything that was already handed out. */
  ghost predicate InOrder(t: Timeline, step: Step) {
    match step
    case FillRoom(roomId, room) => AfterAttempted(t.work, ShadowKey(RoomWork, roomId), room.filledAt)
    case StoreResult(eventId, result) => AfterAttempted(t.work, ShadowKey(ResultWork, eventId), result.availableAt)
    case _ => true
  }

  ghost predicate AfterAttempted(work: map<ShadowKey, Work>, k: ShadowKey, position: Time) {
    forall o :: Attempted(work, o) ==> Earlier(o, work[o].position, k, position)
  }

  ghost predicate CanRunInOrder(t: Timeline, steps: seq<Step>)
    decreases |steps|
  {
    steps == [] || (Enabled(t, steps[0]) && InOrder(t, steps[0]) && CanRunInOrder(Apply(t, steps[0]), steps[1..]))
  }

  /** What was handed out comes before everything that is still open, and no state
      is dated after any open item. */
  ghost predicate Ordered(t: Timeline) {
    && (forall o, q :: Attempted(t.work, o) && Open(t.work, q) && q != o ==>
      Earlier(o, t.work[o].position, q, t.work[q].position))
    && (forall s :: s in t.states ==> DatedByAttempt(t.work, t.states[s]))
  }

  ghost predicate DatedByAttempt(work: map<ShadowKey, Work>, at: Time) {
    exists o :: Attempted(work, o) && work[o].position == at
  }

  lemma OrderedFits(t: Timeline, k: ShadowKey, players: set<Id>, candidate: Id)
    requires Ordered(t) && Open(t.work, k)
    ensures !AnyNewer(t.states, players, candidate, t.work[k].position)
  {
    forall p | p in players && (p, candidate) in t.states ensures t.states[(p, candidate)] <= t.work[k].position {
      assert DatedByAttempt(t.work, t.states[(p, candidate)]);
      var o :| Attempted(t.work, o) && t.work[o].position == t.states[(p, candidate)];
    }
  }

  lemma AddKeepsOrdered(t: Timeline, k: ShadowKey, position: Time, after: Timeline)
    requires Ordered(t) && k !in t.work && AfterAttempted(t.work, k, position)
    requires after.work == t.work[k := NewWork(position)] && after.states == t.states
    ensures Ordered(after)
  {
    forall s | s in after.states ensures DatedByAttempt(after.work, after.states[s]) {
      assert DatedByAttempt(t.work, t.states[s]);
      var o :| Attempted(t.work, o) && t.work[o].position == t.states[s];
      assert Attempted(after.work, o);
    }
  }

  lemma RowKeepsOrdered(t: Timeline, after: Timeline, k: ShadowKey, row: Work)
    requires Ordered(t) && k in t.work && after.work == t.work[k := row] && after.states == t.states
    requires row.position == t.work[k].position && row.attempts >= t.work[k].attempts
    requires t.work[k].processedAt.Some? ==> row.processedAt.Some?
    requires row.attempts > t.work[k].attempts ==> IsHead(t.work, k)
    ensures Ordered(after)
  {
    forall s | s in after.states ensures DatedByAttempt(after.work, after.states[s]) {
      assert DatedByAttempt(t.work, t.states[s]);
      var o :| Attempted(t.work, o) && t.work[o].position == t.states[s];
      assert Attempted(after.work, o);
    }
    forall o, q | Attempted(after.work, o) && Open(after.work, q) && q != o
      ensures Earlier(o, after.work[o].position, q, after.work[q].position)
    {
      assert Open(t.work, q);
      if !Attempted(t.work, o) {
        assert o == k && IsHead(t.work, k);
      }
    }
  }

  lemma AdvanceDates(states: map<(Id, Id), Time>, players: set<Id>, candidate: Id, at: Time)
    ensures forall s :: s in Advance(states, players, candidate, at) ==>
      Advance(states, players, candidate, at)[s] == at
        || (s in states && Advance(states, players, candidate, at)[s] == states[s])
  {
  }

  lemma RunKeepsOrdered(t: Timeline, k: ShadowKey, token: Id, at: Time, clock: Time)
    requires ItemsOk(t) && Ordered(t)
    ensures Ordered(Process(t, k, token, at, clock).timeline)
  {
    hide Process, ItemsOk, AnyNewer, DatesRead, Advance, Ordered;
    ProcessShape(t, k, token, at, clock);
    var effect := Process(t, k, token, at, clock);
    var after := effect.timeline;
    if effect.outcome.Processed? || effect.outcome.Skipped? {
      var row := t.work[k].(processedAt := Some(at), lease := None);
      RowKeepsOrdered(t, t.(work := after.work), k, row);
      if effect.outcome.Processed? {
        ProcessWrites(t, k, token, at, clock);
        if k.kind.ResultWork? {
          LeasedWasAttempted(t, k);
          ResultPosition(t, k);
          var result := t.results[k.sourceId];
          AdvanceDates(t.states, t.rooms[result.roomId].players, t.predictions[result.roomId].candidate,
            result.availableAt);
          NewDatesOrdered(t.(work := after.work), after, k, result.availableAt);
        } else {
          SameStatesOrdered(t.(work := after.work), after);
        }
      } else {
        SameStatesOrdered(t.(work := after.work), after);
      }
    }
  }

  lemma SameStatesOrdered(t: Timeline, after: Timeline)
    requires Ordered(t) && after.work == t.work && after.states == t.states
    ensures Ordered(after)
  {
  }

  lemma ResultPosition(t: Timeline, k: ShadowKey)
    requires ItemsOk(t) && k in t.work && k.kind.ResultWork? && k.sourceId in t.results
    ensures t.work[k].position == t.results[k.sourceId].availableAt
  {
    assert k == ShadowKey(ResultWork, k.sourceId);
  }

  lemma NewDatesOrdered(t: Timeline, after: Timeline, k: ShadowKey, at: Time)
    requires Ordered(t) && after.work == t.work && Attempted(t.work, k) && t.work[k].position == at
    requires forall s :: s in after.states ==>
      after.states[s] == at || (s in t.states && after.states[s] == t.states[s])
    ensures Ordered(after)
  {
    assert DatedByAttempt(t.work, at);
  }

  lemma StepKeepsOrdered(t: Timeline, step: Step)
    requires Inv(t) && Ordered(t) && Enabled(t, step) && InOrder(t, step)
    ensures Ordered(Apply(t, step))
  {
    hide Ordered, Process, Retry, ClaimHead, AfterAttempted, IsHead, RoomsFirst, PredictionsOk, ClosedPredicted;
    match step
    case FillRoom(roomId, room) => AddKeepsOrdered(t, ShadowKey(RoomWork, roomId), room.filledAt, Apply(t, step));
    case StoreResult(eventId, result) =>
      AddKeepsOrdered(t, ShadowKey(ResultWork, eventId), result.availableAt, Apply(t, step));
    case Claim(k, token, now, until) => ClaimKeepsOrdered(t, k, token, now, until);
    case Run(k, token, at, clock) => RunKeepsOrdered(t, k, token, at, clock);
    case Postpone(k, token, retryAt, clock) => PostponeKeepsOrdered(t, k, token, retryAt, clock);
  }

  lemma ClaimKeepsOrdered(t: Timeline, k: ShadowKey, token: Id, now: Time, until: Time)
    requires Ordered(t) && IsHead(t.work, k)
    ensures Ordered(ClaimHead(t, k, token, now, until))
  {
    hide Ordered;
    var after := ClaimHead(t, k, token, now, until);
    if after != t {
      RowKeepsOrdered(t, after, k, after.work[k]);
    }
  }

  lemma PostponeKeepsOrdered(t: Timeline, k: ShadowKey, token: Id, retryAt: Time, clock: Time)
    requires Ordered(t)
    ensures Ordered(Retry(t, k, token, retryAt, clock).timeline)
  {
    hide Ordered;
    var after := Retry(t, k, token, retryAt, clock).timeline;
    if after != t {
      RowKeepsOrdered(t, after, k, after.work[k]);
    }
  }

  lemma {:induction false} RunInOrder(t: Timeline, steps: seq<Step>)
    requires Inv(t) && Ordered(t) && CanRunInOrder(t, steps)
    ensures CanRun(t, steps) && Inv(After(t, steps)) && Ordered(After(t, steps))
    decreases |steps|
  {
    hide Inv, Ordered, Enabled, Apply, InOrder;
    if steps != [] {
      StepKeepsInv(t, steps[0]);
      StepKeepsOrdered(t, steps[0]);
      RunInOrder(Apply(t, steps[0]), steps[1..]);
    }
  }

  /** If everything is recorded behind what was already handed out, no processing
      ever meets a newer state, and nothing is ever blocked. */
  lemma InOrderNeverBlocks(steps: seq<Step>, k: ShadowKey, token: Id, at: Time, clock: Time)
    requires CanRunInOrder(START, steps)
    ensures CanRun(START, steps)
    ensures !Process(After(START, steps), k, token, at, clock).outcome.StateTooNew?
    ensures forall o :: !Blocked(After(START, steps), o)
  {
    hide CanRun, After, Process, Inv, Ordered, AnyNewer;
    StartIsInv();
    StartIsOrdered();
    RunInOrder(START, steps);
    var t := After(START, steps);
    OrderedProcesses(t, k, token, at, clock);
    forall o ensures !Blocked(t, o) {
      OrderedNotBlocked(t, o);
    }
  }

  lemma StartIsOrdered()
    ensures Ordered(START)
  {
  }

  lemma OrderedNotBlocked(t: Timeline, k: ShadowKey)
    requires Inv(t) && Ordered(t)
    ensures !Blocked(t, k)
  {
    hide Inv, Ordered, AnyNewer, RoomOf;
    if Blocked(t, k) {
      OrderedFits(t, k, RoomOf(t, k).value.players, RoomOf(t, k).value.candidate.value);
    }
  }

  lemma OrderedProcesses(t: Timeline, k: ShadowKey, token: Id, at: Time, clock: Time)
    requires Inv(t) && Ordered(t)
    ensures !Process(t, k, token, at, clock).outcome.StateTooNew?
  {
    OrderedNotBlocked(t, k);
    hide Inv, Ordered, Blocked, DatesRead, Advance, AnyNewer;
    if Process(t, k, token, at, clock).outcome.StateTooNew? {
      OwnedFailsIffBlocked(t, k, token, at, clock);
    }
  }
}

/** When the shadow timeline gets stuck: an item that meets a newer state fails for
    ever and holds back everything behind it, and exactly when that can happen. */
module ShadowBlocking {
  import opened Common
  import opened Database
  import opened ShadowTimeline
  import opened ShadowRuns

  // ---------------------------------------------------------------------
  // The guard that fails
  // ---------------------------------------------------------------------

  /** The room that an item of either kind is about. */
  function RoomOf(t: Timeline, k: ShadowKey): Option<FilledRoom> {
    var roomId :=
      if k.kind.RoomWork? then Some(k.sourceId)
      else if k.sourceId in t.results then Some(t.results[k.sourceId].roomId)
      else None;
    if roomId.Some? && roomId.value in t.rooms then Some(t.rooms[roomId.value]) else None
  }

  /** The item waits, but a state of one of its players is dated after it. */
  ghost predicate Blocked(t: Timeline, k: ShadowKey) {
    && Open(t.work, k)
    && RoomOf(t, k).Some? && RoomOf(t, k).value.candidate.Some?
    && AnyNewer(t.states, RoomOf(t, k).value.players, RoomOf(t, k).value.candidate.value, t.work[k].position)
  }

  lemma ItemRoom(t: Timeline, k: ShadowKey)
    requires ItemsOk(t) && k in t.work
    ensures RoomOf(t, k).Some?
    ensures k.kind.RoomWork? ==>
      && k == ShadowKey(RoomWork, k.sourceId) && k.sourceId in t.rooms && RoomOf(t, k).value == t.rooms[k.sourceId]
      && t.work[k].position == t.rooms[k.sourceId].filledAt
    ensures k.kind.ResultWork? ==>
      && k == ShadowKey(ResultWork, k.sourceId) && k.sourceId in t.results
      && t.results[k.sourceId].roomId in t.rooms && RoomOf(t, k).value == t.rooms[t.results[k.sourceId].roomId]
      && t.work[k].position == t.results[k.sourceId].availableAt
  {
    hide Open;
    assert k == ShadowKey(k.kind, k.sourceId);
  }

  /** A result is handed out only when its room has its prediction, if it gets one. */
  lemma LeasedIsPredicted(t: Timeline, e: ShadowKey)
    requires Inv(t) && e.kind.ResultWork? && e in t.work && t.work[e].lease.Some?
    ensures e.sourceId in t.results && t.results[e.sourceId].roomId in t.rooms
    ensures RoomOf(t, e).value.candidate.Some? <==> t.results[e.sourceId].roomId in t.predictions
    ensures t.results[e.sourceId].roomId in t.predictions ==>
      RoomOf(t, e).value.candidate == Some(t.predictions[t.results[e.sourceId].roomId].candidate)
  {
    ItemRoom(t, e);
    LeasedWasAttempted(t, e);
    hide ItemsOk;
    assert Attempted(t.work, e);
  }

  /** An owned item of either kind fails exactly when it is blocked, and is closed
      otherwise. */
  lemma OwnedFailsIffBlocked(t: Timeline, k: ShadowKey, token: Id, at: Time, clock: Time)
    requires Inv(t) && Owns(t.work, k, token, clock)
    requires token != 0 && at != 0 && t.work[k].position <= at
    ensures var outcome := Process(t, k, token, at, clock).outcome;
      && (outcome.StateTooNew? <==> Blocked(t, k))
      && (outcome.Processed? || outcome.Skipped? <==> !Blocked(t, k))
  {
    ItemRoom(t, k);
    if k.kind.ResultWork? {
      LeasedIsPredicted(t, k);
    }
    hide Inv, AnyNewer, DatesRead, Advance;
  }

  /** In every run. */
  lemma ItemFailsIffBlocked(steps: seq<Step>, k: ShadowKey, token: Id, at: Time, clock: Time)
    requires CanRun(START, steps) && Owns(After(START, steps).work, k, token, clock)
    requires token != 0 && at != 0 && After(START, steps).work[k].position <= at
    ensures Process(After(START, steps), k, token, at, clock).outcome.StateTooNew? <==> Blocked(After(START, steps), k)
  {
    hide CanRun, After, Inv, Process, Blocked;
    Reachable(steps);
    OwnedFailsIffBlocked(After(START, steps), k, token, at, clock);
  }

  // ---------------------------------------------------------------------
  // What a step changes
  // ---------------------------------------------------------------------

  /** State dates only move forward. */
  ghost predicate DatesGrow(before: map<(Id, Id), Time>, after: map<(Id, Id), Time>) {
    forall s :: s in before ==> s in after && before[s] <= after[s]
  }

  lemma AdvanceGrows(states: map<(Id, Id), Time>, players: set<Id>, candidate: Id, at: Time)
    requires !AnyNewer(states, players, candidate, at)
    ensures DatesGrow(states, Advance(states, players, candidate, at))
  {
    var moved := map p | p in players :: (p, candidate) := at;
    forall s | s in states ensures s in states + moved && states[s] <= (states + moved)[s] {
      if s in moved {
        var p :| p in players && (p, candidate) == s;
      }
    }
  }

  lemma NewerStays(before: map<(Id, Id), Time>, after: map<(Id, Id), Time>, players: set<Id>, candidate: Id, at: Time)
    requires DatesGrow(before, after) && AnyNewer(before, players, candidate, at)
    ensures AnyNewer(after, players, candidate, at)
  {
    var p :| p in players && (p, candidate) in before && before[(p, candidate)] > at;
    assert (p, candidate) in after && after[(p, candidate)] > at;
  }

  /** A recorded item keeps its place and its room, and is never reopened. */
  ghost predicate ItemStays(t: Timeline, after: Timeline, k: ShadowKey) {
    && k in t.work && k in after.work
    && after.work[k].position == t.work[k].position
    && RoomOf(after, k) == RoomOf(t, k)
    && (Open(after.work, k) ==> Open(t.work, k))
  }

  lemma SameItem(t: Timeline, after: Timeline, k: ShadowKey, x: ShadowKey, row: Work)
    requires k in t.work && x in t.work && after.work == t.work[x := row]
    requires after.rooms == t.rooms && after.results == t.results
    requires row.position == t.work[x].position && (t.work[x].processedAt.Some? ==> row.processedAt.Some?)
    ensures ItemStays(t, after, k)
  {
  }

  lemma AddedItem(t: Timeline, step: Step, k: ShadowKey)
    requires Inv(t) && Enabled(t, step) && k in t.work && (step.FillRoom? || step.StoreResult?)
    ensures ItemStays(t, Apply(t, step), k) && Apply(t, step).work[k] == t.work[k]
  {
    hide RoomsFirst, PredictionsOk, ClosedPredicted;
    ItemRoom(t, k);
  }

  lemma StepKeepsItem(t: Timeline, step: Step, k: ShadowKey)
    requires Inv(t) && Enabled(t, step) && k in t.work
    ensures ItemStays(t, Apply(t, step), k)
  {
    hide Inv, Process, ItemStays, RoomOf;
    var after := Apply(t, step);
    match step
    case FillRoom(_, _) => AddedItem(t, step, k);
    case StoreResult(_, _) => AddedItem(t, step, k);
    case Claim(x, _, _, _) => SameItem(t, after, k, x, after.work[x]);
    case Postpone(x, _, _, _) =>
      if after == t {
        SameItem(t, after, k, k, t.work[k]);
      } else {
        SameItem(t, after, k, x, after.work[x]);
      }
    case Run(x, token, at, clock) =>
      ProcessShape(t, x, token, at, clock);
      if after == t {
        SameItem(t, after, k, k, t.work[k]);
      } else {
        SameItem(t, after, k, x, after.work[x]);
      }
  }

  /** A processing transaction leaves the states as they are, or it is that of a
      result which is not blocked and dates its own players. */
  ghost predicate StatesMovedBy(t: Timeline, after: Timeline, x: ShadowKey) {
    && x.kind.ResultWork? && Open(t.work, x) && t.work[x].lease.Some? && !Blocked(t, x)
    && RoomOf(t, x).Some? && RoomOf(t, x).value.candidate.Some?
    && after.states
      == Advance(t.states, RoomOf(t, x).value.players, RoomOf(t, x).value.candidate.value, t.work[x].position)
  }

  lemma ProcessStates(t: Timeline, x: ShadowKey, token: Id, at: Time, clock: Time)
    requires Inv(t)
    ensures var after := Process(t, x, token, at, clock).timeline;
      after.states == t.states || StatesMovedBy(t, after, x)
  {
    hide Inv, Process, Advance, AnyNewer, DatesRead;
    ProcessShape(t, x, token, at, clock);
    if Process(t, x, token, at, clock).outcome.Processed? {
      ProcessWrites(t, x, token, at, clock);
      if x.kind.ResultWork? {
        MovesItsPlayers(t, x);
      }
    }
  }

  lemma MovesItsPlayers(t: Timeline, x: ShadowKey)
    requires Inv(t) && x.kind.ResultWork? && x in t.work && t.work[x].lease.Some?
    requires x.sourceId in t.results && t.results[x.sourceId].roomId in t.predictions
    ensures t.results[x.sourceId].roomId in t.rooms
    ensures RoomOf(t, x) == Some(t.rooms[t.results[x.sourceId].roomId])
    ensures RoomOf(t, x).value.candidate == Some(t.predictions[t.results[x.sourceId].roomId].candidate)
    ensures t.work[x].position == t.results[x.sourceId].availableAt
  {
    hide Inv;
    LeasedIsPredicted(t, x);
    KnownItem(t, x);
  }

  lemma KnownItem(t: Timeline, k: ShadowKey)
    requires Inv(t) && k in t.work && k.kind.ResultWork? && k.sourceId in t.results
    ensures t.results[k.sourceId].roomId in t.rooms && RoomOf(t, k) == Some(t.rooms[t.results[k.sourceId].roomId])
    ensures t.work[k].position == t.results[k.sourceId].availableAt
  {
    hide RoomsFirst, PredictionsOk, ClosedPredicted;
    ItemRoom(t, k);
  }

  lemma StepDates(t: Timeline, step: Step)
    requires Inv(t) && Enabled(t, step)
    ensures DatesGrow(t.states, Apply(t, step).states)
  {
    if step.Run? {
      ProcessStates(t, step.key, step.token, step.at, step.clock);
      hide Inv, Process, Advance, AnyNewer;
      var x := step.key;
      if Apply(t, step).states != t.states {
        AdvanceGrows(t.states, RoomOf(t, x).value.players, RoomOf(t, x).value.candidate.value, t.work[x].position);
      }
    }
  }

  // ---------------------------------------------------------------------
  // Blocked for ever
  // ---------------------------------------------------------------------

  lemma BlockedFails(t: Timeline, k: ShadowKey, token: Id, at: Time, clock: Time)
    requires Inv(t) && Blocked(t, k)
    ensures Process(t, k, token, at, clock).timeline == t
  {
    hide Inv, Blocked;
    ProcessShape(t, k, token, at, clock);
    if token != 0 && Owns(t.work, k, token, clock) && at != 0 && t.work[k].position <= at {
      OwnedFailsIffBlocked(t, k, token, at, clock);
    }
  }

  lemma BlockedStep(t: Timeline, k: ShadowKey, step: Step)
    requires Inv(t) && Blocked(t, k) && Enabled(t, step)
    ensures Blocked(Apply(t, step), k)
  {
    hide Inv, Process, AnyNewer, Retry, ClaimHead, RoomOf;
    StepKeepsItem(t, step, k);
    StepDates(t, step);
    StaysOpen(t, k, step);
    var room := RoomOf(t, k).value;
    NewerStays(t.states, Apply(t, step).states, room.players, room.candidate.value, t.work[k].position);
  }

  lemma StaysOpen(t: Timeline, k: ShadowKey, step: Step)
    requires Inv(t) && Enabled(t, step) && Open(t.work, k)
    requires step.Run? && step.key == k ==> Blocked(t, k)
    ensures Open(Apply(t, step).work, k)
  {
    hide Inv, Blocked, Process;
    match step
    case Run(x, token, at, clock) =>
      if x == k {
        BlockedFails(t, k, token, at, clock);
      }
      ProcessShape(t, x, token, at, clock);
    case FillRoom(_, _) => AddedItem(t, step, k);
    case StoreResult(_, _) => AddedItem(t, step, k);
    case _ =>
  }

  /** A blocked item stays blocked in every continuation: it is never closed. */
  lemma {:induction false} BlockedForever(t: Timeline, k: ShadowKey, steps: seq<Step>)
    requires Inv(t) && Blocked(t, k) && CanRun(t, steps)
    ensures Blocked(After(t, steps), k)
    decreases |steps|
  {
    hide Inv, Blocked, Enabled, Apply;
    if steps != [] {
      BlockedStep(t, k, steps[0]);
      StepKeepsInv(t, steps[0]);
      BlockedForever(Apply(t, steps[0]), k, steps[1..]);
    }
  }

  /** While an item is blocked, nothing behind it is handed out any more. */
  lemma BlockedStopsTheRest(t: Timeline, k: ShadowKey, steps: seq<Step>, claim: Step)
    requires Inv(t) && Blocked(t, k) && CanRun(t, steps)
    requires claim.Claim? && Enabled(After(t, steps), claim)
    ensures var work := After(t, steps).work;
      && k in work && claim.key in work
      && (claim.key == k || Earlier(claim.key, work[claim.key].position, k, work[k].position))
  {
    hide Inv, CanRun, After, AnyNewer;
    BlockedForever(t, k, steps);
  }

  // ---------------------------------------------------------------------
  // What can block an item
  // ---------------------------------------------------------------------

  predicate Leased(t: Timeline, k: ShadowKey) {
    k in t.work && t.work[k].lease.Some?
  }

  /** Both rooms are rated by the same candidate and share a player. */
  ghost predicate ShareAState(a: Option<FilledRoom>, b: Option<FilledRoom>) {
    && a.Some? && b.Some? && a.value.candidate.Some? && a.value.candidate == b.value.candidate
    && exists p :: p in a.value.players && p in b.value.players
  }

  /** A result from after the item is out with a worker, free to be rated, and will
      date a state that the item reads. */
  ghost predicate Threat(t: Timeline, k: ShadowKey, e: ShadowKey) {
    && k in t.work && e.kind.ResultWork? && Open(t.work, e) && Leased(t, e) && !Blocked(t, e)
    && t.work[k].position < t.work[e].position
    && ShareAState(RoomOf(t, k), RoomOf(t, e))
  }

  ghost predicate Safe(t: Timeline, k: ShadowKey) {
    k in t.work && (Open(t.work, k) ==> !Blocked(t, k) && forall e :: !Threat(t, k, e))
  }

  /** Whatever blocks an item has been a threat to it. */
  lemma WhoBlocks(t: Timeline, after: Timeline, k: ShadowKey, x: ShadowKey)
    requires Open(t.work, k) && !Blocked(t, k) && Blocked(after, k) && ItemStays(t, after, k)
    requires StatesMovedBy(t, after, x)
    ensures Threat(t, k, x)
  {
    hide RoomOf;
    var room := RoomOf(t, k).value;
    var p :| p in room.players && (p, room.candidate.value) in after.states
      && after.states[(p, room.candidate.value)] > t.work[k].position;
    assert p in RoomOf(t, x).value.players;
  }

  lemma SameStatesBlock(t: Timeline, after: Timeline, k: ShadowKey)
    requires ItemStays(t, after, k) && after.states == t.states && Blocked(after, k)
    ensures Blocked(t, k)
  {
    hide AnyNewer, RoomOf;
  }

  /** A step that hands out nothing from after the item brings no new threat. */
  lemma ThreatStays(t: Timeline, k: ShadowKey, step: Step, e: ShadowKey)
    requires Inv(t) && Enabled(t, step) && k in t.work && Threat(Apply(t, step), k, e)
    requires Leased(Apply(t, step), e) ==> Leased(t, e)
    ensures Threat(t, k, e)
  {
    hide Inv, Enabled, Apply, RoomOf, Blocked, ShareAState;
    StepKeepsItem(t, step, k);
    StepKeepsItem(t, step, e);
    if Blocked(t, e) {
      BlockedStep(t, e, step);
    }
  }

  lemma LeasesStay(t: Timeline, step: Step, e: ShadowKey)
    requires Inv(t) && Enabled(t, step) && Leased(Apply(t, step), e)
    ensures Leased(t, e) || (step.Claim? && step.key == e)
  {
    hide Inv, Process;
    if step.Run? {
      ProcessShape(t, step.key, step.token, step.at, step.clock);
    }
  }

  lemma NoNewThreat(t: Timeline, k: ShadowKey, step: Step, e: ShadowKey)
    requires Inv(t) && Enabled(t, step) && Open(t.work, k) && !Threat(t, k, e)
    ensures !Threat(Apply(t, step), k, e)
  {
    var after := Apply(t, step);
    hide Inv, RoomOf, Blocked, ShareAState, Process;
    if Threat(after, k, e) {
      LeasesStay(t, step, e);
      if Leased(t, e) {
        ThreatStays(t, k, step, e);
      } else {
        HeadIsNoThreat(t, k, step, e);
      }
    }
  }

  lemma HeadIsNoThreat(t: Timeline, k: ShadowKey, step: Step, e: ShadowKey)
    requires Inv(t) && Enabled(t, step) && Open(t.work, k) && step.Claim? && step.key == e
    ensures !Threat(Apply(t, step), k, e)
  {
    hide Inv, RoomOf, Blocked, ShareAState;
  }

  lemma SafeStep(t: Timeline, k: ShadowKey, step: Step)
    requires Inv(t) && Safe(t, k) && Enabled(t, step)
    ensures Safe(Apply(t, step), k)
  {
    hide Inv, Enabled, Apply, Blocked, Threat, ItemStays;
    var after := Apply(t, step);
    StepKeepsItem(t, step, k);
    Stays(t, after, k);
    if Open(after.work, k) {
      forall e ensures !Threat(after, k, e) {
        NoNewThreat(t, k, step, e);
      }
      if Blocked(after, k) {
        BecameBlocked(t, k, step);
      }
    }
  }

  lemma Stays(t: Timeline, after: Timeline, k: ShadowKey)
    requires ItemStays(t, after, k)
    ensures k in t.work && k in after.work && (Open(after.work, k) ==> Open(t.work, k))
  {
  }

  lemma BecameBlocked(t: Timeline, k: ShadowKey, step: Step)
    requires Inv(t) && Enabled(t, step) && Open(t.work, k) && !Blocked(t, k) && Blocked(Apply(t, step), k)
    ensures exists e :: Threat(t, k, e)
  {
    var after := Apply(t, step);
    StepKeepsItem(t, step, k);
    if step.Run? {
      ProcessStates(t, step.key, step.token, step.at, step.clock);
    }
    hide Inv, Process, RoomOf, Blocked, Threat, ItemStays, StatesMovedBy;
    if after.states == t.states {
      SameStatesBlock(t, after, k);
    } else {
      WhoBlocks(t, after, k, step.key);
    }
  }

  lemma {:induction false} SafeForever(t: Timeline, k: ShadowKey, steps: seq<Step>)
    requires Inv(t) && Safe(t, k) && CanRun(t, steps)
    ensures Safe(After(t, steps), k)
    decreases |steps|
  {
    hide Inv, Safe, Enabled, Apply;
    if steps != [] {
      SafeStep(t, k, steps[0]);
      StepKeepsInv(t, steps[0]);
      SafeForever(Apply(t, steps[0]), k, steps[1..]);
    }
  }
}

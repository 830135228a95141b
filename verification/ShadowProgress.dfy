/** What a shadow timeline can still come to: when some continuation blocks an
    item, makes it fail, closes it, or closes everything. */
module ShadowProgress {
  import opened Common
  import opened Database
  import opened ShadowTimeline
  import opened ShadowRuns
  import opened ShadowBlocking

  // ---------------------------------------------------------------------
  // Continuations
  // ---------------------------------------------------------------------

  /** Some continuation of `t` ends in `after`. */
  ghost predicate Leads(t: Timeline, after: Timeline) {
    exists steps :: CanRun(t, steps) && After(t, steps) == after
  }

  lemma LeadsSelf(t: Timeline)
    ensures Leads(t, t)
  {
    assert CanRun(t, []) && After(t, []) == t;
  }

  lemma LeadsOn(t: Timeline, step: Step, after: Timeline)
    requires Enabled(t, step) && Leads(Apply(t, step), after)
    ensures Leads(t, after)
  {
    hide Enabled, Apply, CanRun, After;
    var next := Apply(t, step);
    var steps :| CanRun(next, steps) && After(next, steps) == after;
    Joins(t, step, steps);
  }

  lemma Joins(t: Timeline, step: Step, steps: seq<Step>)
    requires Enabled(t, step) && CanRun(Apply(t, step), steps)
    ensures CanRun(t, [step] + steps) && After(t, [step] + steps) == After(Apply(t, step), steps)
  {
    hide Enabled, Apply;
    assert ([step] + steps)[1..] == steps;
  }

  lemma {:induction false} LeadsFurther(t: Timeline, steps: seq<Step>, after: Timeline)
    requires CanRun(t, steps) && Leads(After(t, steps), after)
    ensures Leads(t, after)
    decreases |steps|
  {
    hide Enabled, Apply, Leads;
    if steps != [] {
      LeadsFurther(Apply(t, steps[0]), steps[1..], after);
      LeadsOn(t, steps[0], after);
    }
  }

  lemma LeadsTransitive(a: Timeline, b: Timeline, c: Timeline)
    requires Leads(a, b) && Leads(b, c)
    ensures Leads(a, c)
  {
    hide CanRun, After;
    var steps :| CanRun(a, steps) && After(a, steps) == b;
    LeadsFurther(a, steps, c);
  }

  lemma OneStepLeads(t: Timeline, step: Step)
    requires Enabled(t, step)
    ensures Leads(t, Apply(t, step))
  {
    hide Leads;
    LeadsSelf(Apply(t, step));
    LeadsOn(t, step, Apply(t, step));
  }

  // ---------------------------------------------------------------------
  // Blocking
  // ---------------------------------------------------------------------

  function LatestOf(a: Time, b: Time): Time {
    if a >= b then a else b
  }

  /** An owner can process the item now. */
  function RunNow(t: Timeline, k: ShadowKey): Step
    requires Leased(t, k)
  {
    Run(k, t.work[k].lease.value.token, LatestOf(t.work[k].position, 1), t.work[k].lease.value.until - 1)
  }

  lemma CanRunNow(t: Timeline, k: ShadowKey)
    requires Inv(t) && Open(t.work, k) && Leased(t, k)
    ensures var s := RunNow(t, k);
      && s.token != 0 && s.at != 0 && t.work[k].position <= s.at && Owns(t.work, k, s.token, s.clock)
      && Enabled(t, s)
  {
    hide RoomsFirst, PredictionsOk, ClosedPredicted;
  }

  /** A threat can come true at once. */
  lemma ThreatBlocks(t: Timeline, k: ShadowKey, e: ShadowKey)
    requires Inv(t) && Open(t.work, k) && Threat(t, k, e)
    ensures Blocked(Apply(t, RunNow(t, e)), k)
    ensures Apply(t, RunNow(t, e)).work[k] == t.work[k]
  {
    var s := RunNow(t, e);
    var after := Apply(t, s);
    CanRunNow(t, e);
    ThreatIsRated(t, k, e);
    ProcessShape(t, e, s.token, s.at, s.clock);
    StepKeepsItem(t, s, k);
    hide Inv, Process, RoomOf, AnyNewer;
    var room := RoomOf(t, k).value;
    var p :| p in room.players && p in RoomOf(t, e).value.players;
    assert after.states[(p, room.candidate.value)] == t.work[e].position;
    assert AnyNewer(after.states, room.players, room.candidate.value, t.work[k].position) by {
      NewerBy(after.states, room.players, room.candidate.value, t.work[k].position, p);
    }
  }

  lemma NewerBy(states: map<(Id, Id), Time>, players: set<Id>, candidate: Id, at: Time, p: Id)
    requires p in players && (p, candidate) in states && states[(p, candidate)] > at
    ensures AnyNewer(states, players, candidate, at)
  {
  }

  lemma ThreatIsRated(t: Timeline, k: ShadowKey, e: ShadowKey)
    requires Inv(t) && Threat(t, k, e)
    ensures var s := RunNow(t, e);
      var effect := Process(t, e, s.token, s.at, s.clock);
      && effect.outcome.Processed?
      && RoomOf(t, e).Some? && RoomOf(t, e).value.candidate.Some?
      && effect.timeline.states
        == Advance(t.states, RoomOf(t, e).value.players, RoomOf(t, e).value.candidate.value, t.work[e].position)
  {
    var s := RunNow(t, e);
    CanRunNow(t, e);
    OwnedFailsIffBlocked(t, e, s.token, s.at, s.clock);
    LeasedIsPredicted(t, e);
    MovesItsPlayers(t, e);
    hide Inv, AnyNewer, DatesRead, Advance, RoomOf;
  }

  /** Some continuation blocks an open item exactly if it is blocked already, or a
      later result is out with a worker that is free to be rated and shares a
      player and the candidate with it. */
  lemma CanBlockIff(t: Timeline, k: ShadowKey)
    requires Inv(t) && Open(t.work, k)
    ensures (exists after :: Leads(t, after) && Blocked(after, k))
      <==> Blocked(t, k) || exists e :: Threat(t, k, e)
  {
    hide Inv, Blocked, Threat, CanRun, After, Apply, Enabled;
    if Blocked(t, k) {
      LeadsSelf(t);
    } else if e :| Threat(t, k, e) {
      ThreatIsLeased(t, k, e);
      ThreatBlocks(t, k, e);
      CanRunNow(t, e);
      OneStepLeads(t, RunNow(t, e));
    } else {
      NothingThreatens(t, k);
      forall after | Leads(t, after) ensures !Blocked(after, k) {
        var steps :| CanRun(t, steps) && After(t, steps) == after;
        SafeForever(t, k, steps);
        SafeIsUnblocked(after, k);
      }
    }
  }

  lemma ThreatIsLeased(t: Timeline, k: ShadowKey, e: ShadowKey)
    requires Threat(t, k, e)
    ensures Open(t.work, e) && Leased(t, e)
  {
  }

  lemma NothingThreatens(t: Timeline, k: ShadowKey)
    requires Open(t.work, k) && !Blocked(t, k) && forall e :: !Threat(t, k, e)
    ensures Safe(t, k)
  {
  }

  lemma SafeIsUnblocked(t: Timeline, k: ShadowKey)
    requires Safe(t, k)
    ensures !Blocked(t, k)
  {
  }

  // ---------------------------------------------------------------------
  // The head
  // ---------------------------------------------------------------------

  predicate Ahead(work: map<ShadowKey, Work>, y: ShadowKey, k: ShadowKey) {
    k in work && Open(work, y) && Earlier(y, work[y].position, k, work[k].position)
  }

  ghost function AllAhead(work: map<ShadowKey, Work>, k: ShadowKey): set<ShadowKey> {
    set y | y in work && Ahead(work, y, k)
  }

  lemma AheadShrinks(work: map<ShadowKey, Work>, y: ShadowKey, k: ShadowKey)
    requires Ahead(work, y, k)
    ensures AllAhead(work, y) < AllAhead(work, k) && |AllAhead(work, y)| < |AllAhead(work, k)|
  {
    var few, all := AllAhead(work, y), AllAhead(work, k);
    assert y in all && y !in few;
    SmallerSubset(few, all, y);
  }

  lemma SmallerSubset(a: set<ShadowKey>, b: set<ShadowKey>, extra: ShadowKey)
    requires a <= b && extra in b && extra !in a
    ensures a < b && |a| < |b|
  {
    assert b == a + (b - a) && extra in b - a;
  }

  lemma {:induction false} HeadAhead(work: map<ShadowKey, Work>, k: ShadowKey) returns (h: ShadowKey)
    requires Open(work, k)
    ensures IsHead(work, h) && (h == k || Ahead(work, h, k))
    decreases |AllAhead(work, k)|
  {
    if AllAhead(work, k) == {} {
      h := k;
      forall o | o in work && Open(work, o) ensures o == k || Earlier(k, work[k].position, o, work[o].position) {
        assert !Ahead(work, o, k) by {
          assert o !in AllAhead(work, k);
        }
        KeysDiffer(o, k);
      }
    } else {
      var y :| y in AllAhead(work, k);
      AheadShrinks(work, y, k);
      h := HeadAhead(work, y);
    }
  }

  lemma KeysDiffer(a: ShadowKey, b: ShadowKey)
    ensures a == b <==> a.kind == b.kind && a.sourceId == b.sourceId
  {
  }

  /** The moment at which the head can be claimed. */
  function ClaimNow(t: Timeline, h: ShadowKey): Step
    requires h in t.work
  {
    var row := t.work[h];
    var now := LatestOf(row.nextAttemptAt, if row.lease.Some? then row.lease.value.until else row.nextAttemptAt);
    Claim(h, 1, now, now + 1)
  }

  lemma CanClaimNow(t: Timeline, h: ShadowKey)
    requires Inv(t) && IsHead(t.work, h)
    ensures Enabled(t, ClaimNow(t, h)) && Inv(Apply(t, ClaimNow(t, h)))
    ensures var after := Apply(t, ClaimNow(t, h));
      && Leased(after, h) && Open(after.work, h)
      && after == t.(work := t.work[h := after.work[h]]) && after.work[h].position == t.work[h].position
  {
    StepKeepsInv(t, ClaimNow(t, h));
    hide Inv;
  }

  /** New dates are those of the position, all others are kept. */
  ghost predicate DatedAt(before: map<(Id, Id), Time>, after: map<(Id, Id), Time>, at: Time) {
    forall s :: s in after ==> after[s] == at || (s in before && after[s] == before[s])
  }

  lemma AdvanceDatesAt(states: map<(Id, Id), Time>, players: set<Id>, candidate: Id, at: Time)
    ensures DatedAt(states, Advance(states, players, candidate, at), at)
  {
  }

  /** One item was closed; the rest of the queue is as it was. */
  ghost predicate Closes(t: Timeline, after: Timeline, h: ShadowKey) {
    && h in t.work && h in after.work && after.work == t.work[h := after.work[h]]
    && after.work[h].processedAt.Some? && after.work[h].position == t.work[h].position
    && after.rooms == t.rooms && after.results == t.results
    && DatedAt(t.states, after.states, t.work[h].position)
  }

  lemma RunCloses(t: Timeline, h: ShadowKey)
    requires Inv(t) && Open(t.work, h) && Leased(t, h) && !Blocked(t, h)
    ensures Enabled(t, RunNow(t, h)) && Inv(Apply(t, RunNow(t, h))) && Closes(t, Apply(t, RunNow(t, h)), h)
  {
    hide Blocked;
    var s := RunNow(t, h);
    CanRunNow(t, h);
    StepKeepsInv(t, s);
    OwnedFailsIffBlocked(t, h, s.token, s.at, s.clock);
    ProcessShape(t, h, s.token, s.at, s.clock);
    ProcessStates(t, h, s.token, s.at, s.clock);
    hide Inv, Process, Advance, RoomOf;
    if Apply(t, s).states != t.states {
      AdvanceDatesAt(t.states, RoomOf(t, h).value.players, RoomOf(t, h).value.candidate.value, t.work[h].position);
    }
  }

  lemma SameItemBlocked(t: Timeline, after: Timeline, k: ShadowKey)
    requires k in t.work && k in after.work && Open(after.work, k) == Open(t.work, k)
    requires after.work[k].position == t.work[k].position && after.states == t.states
    requires after.rooms == t.rooms && after.results == t.results
    ensures Blocked(after, k) <==> Blocked(t, k)
  {
    hide AnyNewer;
  }

  /** A head that is not blocked can be closed. */
  lemma CloseHead(t: Timeline, h: ShadowKey) returns (after: Timeline)
    requires Inv(t) && IsHead(t.work, h) && !Blocked(t, h)
    ensures Leads(t, after) && Inv(after) && Closes(t, after, h)
  {
    hide Inv, Blocked, Leads, Apply, Enabled;
    CanClaimNow(t, h);
    var claimed := Apply(t, ClaimNow(t, h));
    SameItemBlocked(t, claimed, h);
    RunCloses(claimed, h);
    after := Apply(claimed, RunNow(claimed, h));
    OneStepLeads(claimed, RunNow(claimed, h));
    LeadsOn(t, ClaimNow(t, h), after);
  }

  /** Closing an item neither blocks nor frees what stands behind it. */
  lemma BehindUnblocked(t: Timeline, after: Timeline, h: ShadowKey, y: ShadowKey)
    requires Closes(t, after, h) && y != h && y in t.work && t.work[h].position <= t.work[y].position
    requires Blocked(after, y)
    ensures Blocked(t, y)
  {
    var room := RoomOf(t, y).value;
    assert RoomOf(after, y) == RoomOf(t, y);
    hide RoomOf;
    var p :| p in room.players && (p, room.candidate.value) in after.states
      && after.states[(p, room.candidate.value)] > t.work[y].position;
    NewerBy(t.states, room.players, room.candidate.value, t.work[y].position, p);
  }

  lemma ThreatBehind(t: Timeline, after: Timeline, h: ShadowKey, k: ShadowKey, e: ShadowKey)
    requires Closes(t, after, h) && k != h && k in t.work && t.work[h].position <= t.work[k].position
    requires Threat(t, k, e)
    ensures Threat(after, k, e)
  {
    assert e != h && RoomOf(after, k) == RoomOf(t, k) && RoomOf(after, e) == RoomOf(t, e);
    hide RoomOf, DatedAt, Blocked, ShareAState;
    if Blocked(after, e) {
      BehindUnblocked(t, after, h, e);
    }
  }

  // ---------------------------------------------------------------------
  // Bringing an item to the head
  // ---------------------------------------------------------------------

  ghost predicate NothingBlockedAhead(t: Timeline, k: ShadowKey) {
    forall y :: Ahead(t.work, y, k) ==> !Blocked(t, y)
  }

  /** What was blocked or threatened still is, and nothing else. */
  ghost predicate Carried(t: Timeline, after: Timeline, k: ShadowKey) {
    && (Blocked(after, k) ==> Blocked(t, k))
    && (forall e :: Threat(t, k, e) ==> Threat(after, k, e))
  }

  lemma CarriedOn(a: Timeline, b: Timeline, c: Timeline, k: ShadowKey)
    requires Carried(a, b, k) && Carried(b, c, k)
    ensures Carried(a, c, k)
  {
    hide Blocked, Threat;
  }

  lemma AheadOf(work: map<ShadowKey, Work>, h: ShadowKey, k: ShadowKey)
    requires Ahead(work, h, k)
    ensures h != k && h in work && work[h].position <= work[k].position
  {
  }

  lemma HeadClosed(t: Timeline, after: Timeline, h: ShadowKey, k: ShadowKey)
    requires Closes(t, after, h) && Ahead(t.work, h, k) && Open(t.work, k) && NothingBlockedAhead(t, k)
    requires IsHead(t.work, h)
    ensures Open(after.work, k) && Carried(t, after, k) && NothingBlockedAhead(after, k)
    ensures |AllAhead(after.work, k)| < |AllAhead(t.work, k)|
  {
    AheadOf(t.work, h, k);
    assert AllAhead(after.work, k) <= AllAhead(t.work, k) && h in AllAhead(t.work, k) && h !in AllAhead(after.work, k);
    SmallerSubset(AllAhead(after.work, k), AllAhead(t.work, k), h);
    forall y | Ahead(after.work, y, k) ensures !Blocked(after, y) {
      assert Ahead(t.work, y, k) && y != h && t.work[h].position <= t.work[y].position;
      if Blocked(after, y) {
        BehindUnblocked(t, after, h, y);
      }
    }
    hide Closes, Blocked, Threat;
    if Blocked(after, k) {
      BehindUnblocked(t, after, h, k);
    }
    forall e | Threat(t, k, e) ensures Threat(after, k, e) {
      ThreatBehind(t, after, h, k, e);
    }
  }

  lemma {:induction false} BringToHead(t: Timeline, k: ShadowKey) returns (after: Timeline)
    requires Inv(t) && Open(t.work, k) && NothingBlockedAhead(t, k)
    ensures Leads(t, after) && Inv(after) && IsHead(after.work, k) && Carried(t, after, k)
    decreases |AllAhead(t.work, k)|
  {
    hide Inv, Leads, Closes, Blocked, Threat, IsHead;
    var h := HeadAhead(t.work, k);
    if h == k {
      LeadsSelf(t);
      after := t;
    } else {
      var next := CloseHead(t, h);
      HeadClosed(t, next, h, k);
      hide NothingBlockedAhead, Carried, Ahead, AllAhead;
      after := BringToHead(next, k);
      LeadsTransitive(t, next, after);
      CarriedOn(t, next, after, k);
    }
  }

  lemma ClaimCarries(t: Timeline, k: ShadowKey)
    requires Inv(t) && IsHead(t.work, k)
    ensures Carried(t, Apply(t, ClaimNow(t, k)), k)
  {
    CanClaimNow(t, k);
    var after := Apply(t, ClaimNow(t, k));
    hide Apply, Inv, IsHead;
    SameItemBlocked(t, after, k);
    forall e | Threat(t, k, e) ensures Threat(after, k, e) {
      ThreatAfterClaim(t, after, k, e);
    }
  }

  lemma ThreatAfterClaim(t: Timeline, after: Timeline, k: ShadowKey, e: ShadowKey)
    requires Threat(t, k, e) && k in after.work && after == t.(work := t.work[k := after.work[k]])
    requires after.work[k].position == t.work[k].position
    ensures Threat(after, k, e)
  {
    hide AnyNewer, ShareAState;
    assert e != k;
    SameItemBlocked(t, after, e);
  }

  // ---------------------------------------------------------------------
  // Closing and failing
  // ---------------------------------------------------------------------

  /** A worker holds the item, or it can still become the head. */
  ghost predicate Reaches(t: Timeline, k: ShadowKey) {
    Leased(t, k) || NothingBlockedAhead(t, k)
  }

  lemma GetLeased(t: Timeline, k: ShadowKey) returns (after: Timeline)
    requires Inv(t) && Open(t.work, k) && Reaches(t, k)
    ensures Leads(t, after) && Inv(after) && Open(after.work, k) && Leased(after, k) && Carried(t, after, k)
  {
    hide Inv, Leads, Blocked, Threat, NothingBlockedAhead, Apply, Enabled;
    if Leased(t, k) {
      LeadsSelf(t);
      after := t;
    } else {
      var head := BringToHead(t, k);
      CanClaimNow(head, k);
      ClaimCarries(head, k);
      hide Carried;
      after := Apply(head, ClaimNow(head, k));
      OneStepLeads(head, ClaimNow(head, k));
      LeadsTransitive(t, head, after);
      CarriedOn(t, head, after, k);
    }
  }

  /** The item waits behind a blocked one, and nobody holds it. */
  ghost predicate CutOff(t: Timeline, k: ShadowKey) {
    Open(t.work, k) && !Leased(t, k) && exists y :: Ahead(t.work, y, k) && Blocked(t, y)
  }

  lemma CutOffStep(t: Timeline, k: ShadowKey, step: Step)
    requires Inv(t) && CutOff(t, k) && Enabled(t, step)
    ensures CutOff(Apply(t, step), k)
  {
    var after := Apply(t, step);
    var y :| Ahead(t.work, y, k) && Blocked(t, y);
    BlockedStep(t, y, step);
    StepKeepsItem(t, step, k);
    StepKeepsItem(t, step, y);
    if Leased(after, k) {
      LeasesStay(t, step, k);
    }
    UnownedStaysOpen(t, k, step);
    hide Inv, Process, RoomOf, AnyNewer;
    assert Ahead(after.work, y, k);
  }

  lemma UnownedStaysOpen(t: Timeline, k: ShadowKey, step: Step)
    requires Inv(t) && Enabled(t, step) && Open(t.work, k) && !Leased(t, k)
    ensures Open(Apply(t, step).work, k)
  {
    hide Inv, Process;
    match step
    case Run(x, token, at, clock) => ProcessShape(t, x, token, at, clock);
    case FillRoom(_, _) => AddedItem(t, step, k);
    case StoreResult(_, _) => AddedItem(t, step, k);
    case _ =>
  }

  lemma {:induction false} CutOffForever(t: Timeline, k: ShadowKey, steps: seq<Step>)
    requires Inv(t) && CutOff(t, k) && CanRun(t, steps)
    ensures CutOff(After(t, steps), k)
    decreases |steps|
  {
    hide Inv, CutOff, Enabled, Apply;
    if steps != [] {
      CutOffStep(t, k, steps[0]);
      StepKeepsInv(t, steps[0]);
      CutOffForever(Apply(t, steps[0]), k, steps[1..]);
    }
  }

  lemma ReachesOrCutOff(t: Timeline, k: ShadowKey)
    requires Open(t.work, k)
    ensures CutOff(t, k) <==> !Reaches(t, k)
  {
    hide Blocked;
  }

  lemma StaysNotDone(t: Timeline, k: ShadowKey, steps: seq<Step>)
    requires Inv(t) && (Blocked(t, k) || CutOff(t, k)) && CanRun(t, steps)
    ensures !Done(After(t, steps).work, k)
  {
    hide Inv, CanRun, After, RoomOf, AnyNewer;
    if Blocked(t, k) {
      BlockedForever(t, k, steps);
    } else {
      CutOffForever(t, k, steps);
    }
  }

  /** Some continuation closes an open item exactly if it is not blocked and either
      a worker holds it or nothing ahead of it is blocked. */
  lemma CanCloseIff(t: Timeline, k: ShadowKey)
    requires Inv(t) && Open(t.work, k)
    ensures (exists after :: Leads(t, after) && Done(after.work, k)) <==> !Blocked(t, k) && Reaches(t, k)
  {
    ReachesOrCutOff(t, k);
    hide Inv, Blocked, Reaches, CutOff, CanRun, After;
    if !Blocked(t, k) && Reaches(t, k) {
      var held := GetLeased(t, k);
      RunCloses(held, k);
      var after := Apply(held, RunNow(held, k));
      OneStepLeads(held, RunNow(held, k));
      hide Leads, Apply, Enabled;
      LeadsTransitive(t, held, after);
      assert Leads(t, after) && Done(after.work, k);
    } else {
      forall after | Leads(t, after) ensures !Done(after.work, k) {
        var steps :| CanRun(t, steps) && After(t, steps) == after;
        StaysNotDone(t, k, steps);
      }
    }
  }

  /** Some attempt by an owner of the item ends with a state that is too new. */
  ghost predicate Fails(t: Timeline, k: ShadowKey) {
    exists token: Id, at: Time, clock: Time :: Process(t, k, token, at, clock).outcome.StateTooNew?
  }

  lemma HeldBlockedFails(t: Timeline, k: ShadowKey)
    requires Inv(t) && Open(t.work, k) && Leased(t, k) && Blocked(t, k)
    ensures Fails(t, k)
  {
    hide Blocked, Process;
    CanRunNow(t, k);
    hide Inv;
    var s := RunNow(t, k);
    OwnedFailsIffBlocked(t, k, s.token, s.at, s.clock);
  }

  lemma FailsMeansHeldAndBlocked(t: Timeline, k: ShadowKey)
    requires Inv(t) && Fails(t, k)
    ensures Blocked(t, k) && Leased(t, k)
  {
    hide Inv, Blocked, AnyNewer, DatesRead, Advance;
    var token: Id, at: Time, clock: Time :| Process(t, k, token, at, clock).outcome.StateTooNew?;
    OwnedFailsIffBlocked(t, k, token, at, clock);
  }

  lemma HoldsAndBlocks(t: Timeline, k: ShadowKey) returns (after: Timeline)
    requires Inv(t) && Open(t.work, k) && Leased(t, k) && (Blocked(t, k) || exists e :: Threat(t, k, e))
    ensures Leads(t, after) && Inv(after) && Open(after.work, k) && Leased(after, k) && Blocked(after, k)
  {
    hide Inv, Leads, Enabled, Process, RoomOf, AnyNewer;
    if Blocked(t, k) {
      LeadsSelf(t);
      after := t;
    } else {
      var e :| Threat(t, k, e);
      ThreatBlocks(t, k, e);
      CanRunNow(t, e);
      after := Apply(t, RunNow(t, e));
      StepKeepsInv(t, RunNow(t, e));
      OneStepLeads(t, RunNow(t, e));
    }
  }

  lemma {:induction false} BlockedStays(t: Timeline, k: ShadowKey, after: Timeline)
    requires Inv(t) && Blocked(t, k) && Leads(t, after)
    ensures Blocked(after, k)
  {
    hide Inv, Blocked, CanRun, After;
    var steps :| CanRun(t, steps) && After(t, steps) == after;
    BlockedForever(t, k, steps);
  }

  /** Some continuation makes an attempt on an open item fail exactly if the item
      can come to a worker at all, and it is blocked or threatened now. */
  lemma CanFailIff(t: Timeline, k: ShadowKey)
    requires Inv(t) && Open(t.work, k)
    ensures (exists after :: Leads(t, after) && Fails(after, k))
      <==> Reaches(t, k) && (Blocked(t, k) || exists e :: Threat(t, k, e))
  {
    ReachesOrCutOff(t, k);
    CanBlockIff(t, k);
    hide Inv, Blocked, Threat, Reaches, Fails, CanRun, After, Leads;
    if Reaches(t, k) && (Blocked(t, k) || exists e :: Threat(t, k, e)) {
      var held := GetLeased(t, k);
      if Blocked(t, k) {
        BlockedStays(t, k, held);
      }
      var after := HoldsAndBlocks(held, k);
      LeadsTransitive(t, held, after);
      HeldBlockedFails(after, k);
      assert Leads(t, after) && Fails(after, k);
    }
    if after :| Leads(t, after) && Fails(after, k) {
      LeadsToInv(t, after);
      FailsMeansHeldAndBlocked(after, k);
      if CutOff(t, k) {
        CutOffUnheld(t, k, after);
      }
    }
  }

  lemma LeadsToInv(t: Timeline, after: Timeline)
    requires Inv(t) && Leads(t, after)
    ensures Inv(after)
  {
    hide Inv, CanRun, After;
    var steps :| CanRun(t, steps) && After(t, steps) == after;
    RunKeepsInv(t, steps);
  }

  lemma CutOffUnheld(t: Timeline, k: ShadowKey, after: Timeline)
    requires Inv(t) && CutOff(t, k) && Leads(t, after)
    ensures !Leased(after, k)
  {
    hide Inv, CanRun, After;
    var steps :| CanRun(t, steps) && After(t, steps) == after;
    CutOffForever(t, k, steps);
  }

  // ---------------------------------------------------------------------
  // The whole queue
  // ---------------------------------------------------------------------

  ghost predicate Drained(t: Timeline) {
    forall k :: k in t.work ==> !Open(t.work, k)
  }

  ghost function AllOpen(work: map<ShadowKey, Work>): set<ShadowKey> {
    set k | k in work && Open(work, k)
  }

  lemma HeadLeaves(t: Timeline, after: Timeline, h: ShadowKey)
    requires Closes(t, after, h) && IsHead(t.work, h) && forall k :: !Blocked(t, k)
    ensures forall k :: !Blocked(after, k)
    ensures |AllOpen(after.work)| < |AllOpen(t.work)|
  {
    assert AllOpen(after.work) <= AllOpen(t.work) && h in AllOpen(t.work) && h !in AllOpen(after.work);
    SmallerSubset(AllOpen(after.work), AllOpen(t.work), h);
    forall k ensures !Blocked(after, k) {
      if Blocked(after, k) {
        assert Open(t.work, k) && k != h && t.work[h].position <= t.work[k].position;
        BehindUnblocked(t, after, h, k);
      }
    }
  }

  lemma {:induction false} Drain(t: Timeline) returns (after: Timeline)
    requires Inv(t) && forall k :: !Blocked(t, k)
    ensures Leads(t, after) && Drained(after)
    decreases |AllOpen(t.work)|
  {
    hide Inv, Leads, Closes, Blocked, IsHead;
    if k :| k in t.work && Open(t.work, k) {
      var h := HeadAhead(t.work, k);
      var next := CloseHead(t, h);
      HeadLeaves(t, next, h);
      after := Drain(next);
      LeadsTransitive(t, next, after);
    } else {
      LeadsSelf(t);
      after := t;
    }
  }

  /** The queue can be worked off completely exactly if none of its items is
      blocked now. */
  lemma CanDrainIff(t: Timeline)
    requires Inv(t)
    ensures (exists after :: Leads(t, after) && Drained(after)) <==> forall k :: !Blocked(t, k)
  {
    hide Inv, Leads;
    if forall k :: !Blocked(t, k) {
      var after := Drain(t);
      assert Leads(t, after) && Drained(after);
    } else {
      var k :| Blocked(t, k);
      forall after | Leads(t, after) ensures !Drained(after) {
        BlockedStays(t, k, after);
        assert Open(after.work, k);
      }
    }
  }
}

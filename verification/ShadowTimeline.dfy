/** The shadow rating timeline: one ordered queue of filled rooms, which are
    predicted, and of results, which advance the candidate's player states. */
module ShadowTimeline {
  import opened Common
  import opened Database

  /** A filled room: its fill time, its players, and the candidate model deployed
      for it at that time, if any. */
  datatype FilledRoom = FilledRoom(filledAt: Time, players: set<Id>, candidate: Option<Id>)

  datatype RatedResult = RatedResult(roomId: Id, availableAt: Time)

  datatype Lease = Lease(token: Id, until: Time)

  datatype Work = Work(
    position: Time,
    nextAttemptAt: Time,
    lease: Option<Lease>,
    attempts: nat,
    processedAt: Option<Time>)

  /** A paired prediction, with the dates of the player states it read. */
  datatype Prediction = Prediction(candidate: Id, generatedAt: Time, read: map<Id, Time>)

  /** The tables of the timeline. A player state is represented by its date. */
  datatype Timeline = Timeline(
    rooms: map<Id, FilledRoom>,
    results: map<Id, RatedResult>,
    work: map<ShadowKey, Work>,
    predictions: map<Id, Prediction>,
    states: map<(Id, Id), Time>)

  datatype Outcome = Processed | Skipped | ClaimLost | StateTooNew | InvalidCall

  datatype Effect = Effect(timeline: Timeline, outcome: Outcome)

  // ---------------------------------------------------------------------
  // Order
  // ---------------------------------------------------------------------

  function Priority(kind: WorkKind): int {
    if kind.RoomWork? then 0 else 1
  }

  /** Position, then rooms before results, then identity. */
  predicate Earlier(a: ShadowKey, atA: Time, b: ShadowKey, atB: Time) {
    || atA < atB
    || (atA == atB &&
        (Priority(a.kind) < Priority(b.kind) ||
         (Priority(a.kind) == Priority(b.kind) && a.sourceId < b.sourceId)))
  }

  predicate Open(work: map<ShadowKey, Work>, k: ShadowKey) {
    k in work && work[k].processedAt.None?
  }

  predicate IsHead(work: map<ShadowKey, Work>, k: ShadowKey) {
    && Open(work, k)
    && forall o :: o in work && Open(work, o) ==> o == k || Earlier(k, work[k].position, o, work[o].position)
  }

  // ---------------------------------------------------------------------
  // Claims
  // ---------------------------------------------------------------------

  function ClaimHead(t: Timeline, k: ShadowKey, token: Id, now: Time, until: Time): Timeline
    requires k in t.work
  {
    if t.work[k].nextAttemptAt > now || (t.work[k].lease.Some? && t.work[k].lease.value.until > now) then t
    else
      t.(work := t.work[k := t.work[k].(lease := Some(Lease(token, until)), attempts := t.work[k].attempts + 1)])
  }

  predicate Owns(work: map<ShadowKey, Work>, k: ShadowKey, token: Id, clock: Time) {
    Open(work, k) && work[k].lease.Some? && work[k].lease.value.token == token && work[k].lease.value.until > clock
  }

  function Retry(t: Timeline, k: ShadowKey, token: Id, retryAt: Time, clock: Time): Effect {
    if token == 0 || retryAt == 0 then Effect(t, InvalidCall)
    else if !Owns(t.work, k, token, clock) then Effect(t, ClaimLost)
    else Effect(t.(work := t.work[k := t.work[k].(nextAttemptAt := retryAt, lease := None)]), Processed)
  }

  // ---------------------------------------------------------------------
  // Processing
  // ---------------------------------------------------------------------

  /** Some player's state is dated after the timeline position. */
  predicate AnyNewer(states: map<(Id, Id), Time>, players: set<Id>, candidate: Id, at: Time) {
    exists p | p in players :: (p, candidate) in states && states[(p, candidate)] > at
  }

  function DatesRead(states: map<(Id, Id), Time>, players: set<Id>, candidate: Id): map<Id, Time> {
    map p | p in players && (p, candidate) in states :: states[(p, candidate)]
  }

  function Advance(states: map<(Id, Id), Time>, players: set<Id>, candidate: Id, at: Time): map<(Id, Id), Time> {
    states + map p | p in players :: (p, candidate) := at
  }

  function Finish(t: Timeline, k: ShadowKey, at: Time): Timeline
    requires k in t.work
  {
    t.(work := t.work[k := t.work[k].(processedAt := Some(at), lease := None)])
  }

  function ProcessRoom(t: Timeline, k: ShadowKey, at: Time): Effect
    requires k in t.work
  {
    if k.sourceId !in t.rooms || t.rooms[k.sourceId].candidate.None? then Effect(Finish(t, k, at), Skipped)
    else
      var room := t.rooms[k.sourceId];
      var candidate := room.candidate.value;
      if AnyNewer(t.states, room.players, candidate, room.filledAt) then Effect(t, StateTooNew)
      else
        var prediction := Prediction(candidate, room.filledAt, DatesRead(t.states, room.players, candidate));
        Effect(Finish(t, k, at).(predictions := t.predictions[k.sourceId := prediction]), Processed)
  }

  function ProcessResult(t: Timeline, k: ShadowKey, at: Time): Effect
    requires k in t.work
  {
    if k.sourceId !in t.results || t.results[k.sourceId].roomId !in t.rooms
       || t.results[k.sourceId].roomId !in t.predictions
    then Effect(Finish(t, k, at), Skipped)
    else
      var result := t.results[k.sourceId];
      var players, candidate := t.rooms[result.roomId].players, t.predictions[result.roomId].candidate;
      if AnyNewer(t.states, players, candidate, result.availableAt) then Effect(t, StateTooNew)
      else Effect(Finish(t, k, at).(states := Advance(t.states, players, candidate, result.availableAt)), Processed)
  }

  /** One transaction: the claim check, the work, and the processed marker. */
  function Process(t: Timeline, k: ShadowKey, token: Id, at: Time, clock: Time): Effect {
    if token == 0 || at == 0 then Effect(t, InvalidCall)
    else if !Owns(t.work, k, token, clock) then Effect(t, ClaimLost)
    else if at < t.work[k].position then Effect(t, InvalidCall)
    else if k.kind.RoomWork? then ProcessRoom(t, k, at)
    else ProcessResult(t, k, at)
  }

  // ---------------------------------------------------------------------
  // The queue
  // ---------------------------------------------------------------------

  class RatingShadowQueue {
    var timeline: Timeline

    constructor ()
      ensures timeline == Timeline(map[], map[], map[], map[], map[])
    {
      timeline := Timeline(map[], map[], map[], map[], map[]);
    }

    /** Claims the head of the timeline or nothing; a head that is leased or not
        yet due blocks everything behind it. */
    method ClaimNextRatingShadowWork(token: Id, now: Time, until: Time) returns (claimed: Option<ShadowKey>)
      requires token != 0 && now < until
      modifies this
      ensures claimed.Some? ==>
        && IsHead(old(timeline.work), claimed.value)
        && timeline == ClaimHead(old(timeline), claimed.value, token, now, until) != old(timeline)
      ensures claimed.None? ==>
        && timeline == old(timeline)
        && forall k :: IsHead(timeline.work, k) ==> ClaimHead(timeline, k, token, now, until) == timeline
    {
      var head := Head(timeline.work);
      if head.None? {
        return None;
      }
      var k := head.value;
      var row := timeline.work[k];
      HeadIsUnique(timeline.work, k);
      if row.nextAttemptAt > now || (row.lease.Some? && row.lease.value.until > now) {
        return None;
      }
      var claimedRow := row.(lease := Some(Lease(token, until)), attempts := row.attempts + 1);
      assert timeline.work[k := claimedRow][k] != timeline.work[k];
      timeline := timeline.(work := timeline.work[k := claimedRow]);
      claimed := Some(k);
    }

    method ProcessRatingShadowWork(k: ShadowKey, token: Id, at: Time, clock: Time) returns (outcome: Outcome)
      modifies this
      ensures Effect(timeline, outcome) == Process(old(timeline), k, token, at, clock)
    {
      if token == 0 || at == 0 {
        return InvalidCall;
      }
      if !Owns(timeline.work, k, token, clock) {
        return ClaimLost;
      }
      if at < timeline.work[k].position {
        return InvalidCall;
      }
      var effect := if k.kind.RoomWork? then ProcessRoom(timeline, k, at) else ProcessResult(timeline, k, at);
      timeline := effect.timeline;
      outcome := effect.outcome;
    }

    method ScheduleRatingShadowRetry(k: ShadowKey, token: Id, retryAt: Time, clock: Time) returns (outcome: Outcome)
      modifies this
      ensures Effect(timeline, outcome) == Retry(old(timeline), k, token, retryAt, clock)
    {
      if token == 0 || retryAt == 0 {
        return InvalidCall;
      }
      if !Owns(timeline.work, k, token, clock) {
        return ClaimLost;
      }
      timeline := timeline.(work := timeline.work[k := timeline.work[k].(nextAttemptAt := retryAt, lease := None)]);
      outcome := Processed;
    }
  }

  lemma HeadIsUnique(work: map<ShadowKey, Work>, k: ShadowKey)
    requires IsHead(work, k)
    ensures forall o :: IsHead(work, o) ==> o == k
  {
  }

  method Head(work: map<ShadowKey, Work>) returns (head: Option<ShadowKey>)
    ensures head.Some? ==> IsHead(work, head.value)
    ensures head.None? ==> forall k :: !Open(work, k)
  {
    var open := set k | k in work && Open(work, k);
    if open == {} {
      assert forall k :: Open(work, k) ==> k in open;
      return None;
    }
    var first :| first in open;
    var rest := open - {first};
    while rest != {}
      invariant first in open && rest <= open - {first}
      invariant forall o :: o in open - rest && o != first ==> Earlier(first, work[first].position, o, work[o].position)
      decreases rest
    {
      var next :| next in rest;
      rest := rest - {next};
      if Earlier(next, work[next].position, first, work[first].position) {
        first := next;
      }
    }
    assert forall k :: Open(work, k) ==> k in open;
    head := Some(first);
  }
}

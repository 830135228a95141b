/** A cycle of the worker against the consumer is a run of the outbox. */
module OutboxCycles {
  import opened Common
  import opened Outbox
  import opened OutboxReceiver
  import opened OutboxRunner
  import opened OutboxRuns

  /** The token shared with the consumer, and what the network, the side effect and
      the clocks do to one claim. */
  datatype Exchange = Exchange(
    token: string,
    arrives: bool,
    applySucceeds: bool,
    answered: bool,
    error: string,
    now: Time,
    clock: Time)

  function StatusCode(status: Status): int {
    match status
    case NoContent => 204
    case BadRequest => 400
    case Unauthorized => 401
    case MethodNotAllowed => 405
    case Conflict => 409
    case ApplyFailed => 503
  }

  /** The publisher's reading of a response. */
  function Classify(code: int, error: string): Publication {
    if 200 <= code < 300 then Published
    else if code == 408 || code == 429 || code >= 500 then Retryable(error)
    else Permanent(error)
  }

  /** Exactly the success codes publish, and only client errors other than a timeout or
      too many requests, or what is no final answer, make the worker give up. */
  lemma CodesDecide(code: int, error: string)
    requires 100 <= code < 600
    ensures Classify(code, error).Published? <==> code / 100 == 2
    ensures Classify(code, error) == Permanent(error) <==> code / 100 in {1, 3, 4} && code !in {408, 429}
    ensures Classify(code, error) == Retryable(error) <==> code / 100 == 5 || code in {408, 429}
  {
  }

  /** Publishing one event; a request or a reply that gets lost is retried. */
  function Publish(consumer: Applied, event: Event, x: Exchange): Publication {
    if x.arrives && x.answered then
      Classify(StatusCode(Answer(consumer, x.token, RequestFor(x.token, event), x.applySucceeds).status), x.error)
    else Retryable(x.error)
  }

  function AttemptIn(consumer: Applied, claim: Claim, x: Exchange): Attempt {
    Attempt(Publish(consumer, claim.event, x), x.now, x.clock)
  }

  /** This consumer never makes the worker bury an event: in every run an event is
      published exactly when request and reply get through and it was applied before
      or is applied now, and everything else is tried again. */
  lemma NeverBuried(steps: seq<Step>, claim: Claim, x: Exchange)
    requires CanRun(START, steps) && claim in Run(START, steps).claims
    ensures var consumer := Run(START, steps).consumer;
      && !Publish(consumer, claim.event, x).Permanent?
      && (Publish(consumer, claim.event, x).Published? <==>
        x.arrives && x.answered && (claim.event in consumer.log || x.applySucceeds))
  {
    hide CanRun, Run, Inv;
    StartIsInv();
    RunKeepsInv(START, steps);
    PublisherIsAdmitted(Run(START, steps).consumer, x.token, claim.event, x.applySucceeds);
    KnownIsApplied(Run(START, steps), claim);
    hide Answer, RequestFor;
  }

  lemma KnownIsApplied(w: World, claim: Claim)
    requires Inv(w) && claim in w.claims
    ensures claim.event.Valid()
    ensures claim.event.eventId in w.consumer.byId <==> claim.event in w.consumer.log
    ensures claim.event in w.consumer.log ==> w.consumer.byId[claim.event.eventId] == claim.event
  {
    assert HandedOut(w.rows, claim.event);
    if claim.event.eventId in w.consumer.byId {
      assert HandedOut(w.rows, w.consumer.byId[claim.event.eventId]);
    }
  }

  function SettlingStep(options: RunnerOptions, claim: Claim, attempt: Attempt): Step {
    match attempt.publication
    case Published => Acknowledge(claim, attempt.now, attempt.clock)
    case Permanent(error) => Bury(claim, attempt.now, attempt.clock, Bounded(error))
    case Retryable(error) =>
      Retry(claim, attempt.now + Backoff(options, claim.attempt), attempt.clock, Bounded(error))
  }

  /** The steps of one claim: the delivery, if the request arrives, and the call
      that settles the claim. */
  function ClaimSteps(options: RunnerOptions, consumer: Applied, claim: Claim, x: Exchange): seq<Step> {
    (if x.arrives then [Deliver(claim, x.applySucceeds)] else [])
    + [SettlingStep(options, claim, AttemptIn(consumer, claim, x))]
  }

  /** The world after one claim was handled. */
  ghost function Handled(options: RunnerOptions, w: World, claim: Claim, x: Exchange): World {
    var served := Serve(w.consumer, claim.event.eventId, claim.event, x.applySucceeds);
    var delivered := if x.arrives then
      w.(consumer := served.state, replies := w.replies + {Reply(claim, served.status)}) else w;
    delivered.(rows := Settle(options, w.rows, claim, AttemptIn(w.consumer, claim, x)).rows)
  }

  /** Only a success reply to this very claim is published, so the worker never
      acknowledges anything else: its two calls are steps of the outbox. */
  lemma HandlingIsRun(options: RunnerOptions, w: World, claim: Claim, x: Exchange)
    requires claim in w.claims
    ensures CanRun(w, ClaimSteps(options, w.consumer, claim, x))
    ensures Run(w, ClaimSteps(options, w.consumer, claim, x)) == Handled(options, w, claim, x)
  {
    PublisherIsAdmitted(w.consumer, x.token, claim.event, x.applySucceeds);
    var attempt := AttemptIn(w.consumer, claim, x);
    var served := Serve(w.consumer, claim.event.eventId, claim.event, x.applySucceeds);
    var delivered := if x.arrives then
      w.(consumer := served.state, replies := w.replies + {Reply(claim, served.status)}) else w;
    assert attempt.publication.Published? ==> x.arrives && served.status == NoContent;
    SettlingIsStep(options, delivered, claim, attempt);
    var step := SettlingStep(options, claim, attempt);
    OneStep(delivered, step);
    if x.arrives {
      assert ClaimSteps(options, w.consumer, claim, x) == [Deliver(claim, x.applySucceeds), step];
      assert Apply(w, Deliver(claim, x.applySucceeds)) == delivered;
      assert [Deliver(claim, x.applySucceeds), step][1..] == [step];
    }
  }

  lemma OneStep(w: World, step: Step)
    requires Enabled(w, step)
    ensures CanRun(w, [step]) && Run(w, [step]) == Apply(w, step)
  {
    assert [step][1..] == [];
  }

  lemma SettlingIsStep(options: RunnerOptions, w: World, claim: Claim, attempt: Attempt)
    requires claim in w.claims
    requires attempt.publication.Published? ==> OutboxRuns.Reply(claim, NoContent) in w.replies
    ensures Enabled(w, SettlingStep(options, claim, attempt))
    ensures Apply(w, SettlingStep(options, claim, attempt))
      == w.(rows := Settle(options, w.rows, claim, attempt).rows)
  {
  }

  // ---------------------------------------------------------------------
  // The whole cycle
  // ---------------------------------------------------------------------

  /** Handling the claims one after the other. */
  ghost function CycleSteps(
      options: RunnerOptions, w: World, claims: seq<Claim>, exchanges: Claim -> Exchange): seq<Step>
    decreases |claims|
  {
    if claims == [] then []
    else
      var c := claims[0];
      ClaimSteps(options, w.consumer, c, exchanges(c))
      + CycleSteps(options, Handled(options, w, c, exchanges(c)), claims[1..], exchanges)
  }

  lemma {:induction false} RunsJoin(w: World, first: seq<Step>, rest: seq<Step>)
    requires CanRun(w, first) && CanRun(Run(w, first), rest)
    ensures CanRun(w, first + rest) && Run(w, first + rest) == Run(Run(w, first), rest)
    decreases |first|
  {
    hide Enabled, Apply;
    if first == [] {
      assert first + rest == rest;
    } else {
      assert (first + rest)[1..] == first[1..] + rest;
      RunsJoin(Apply(w, first[0]), first[1..], rest);
    }
  }

  /** Handling one claim does not change what the consumer answers to another. */
  lemma AnswersStay(options: RunnerOptions, w: World, claim: Claim, x: Exchange, other: Claim, y: Exchange)
    requires claim.event.eventId != other.event.eventId
    ensures AttemptIn(Handled(options, w, claim, x).consumer, other, y) == AttemptIn(w.consumer, other, y)
  {
    PublisherIsAdmitted(w.consumer, y.token, other.event, y.applySucceeds);
    PublisherIsAdmitted(Handled(options, w, claim, x).consumer, y.token, other.event, y.applySucceeds);
    hide Settle;
  }

  /** The answers to the claims, all read from the state at the start. */
  ghost function AttemptsIn(consumer: Applied, exchanges: Claim -> Exchange): Claim -> Attempt {
    c => AttemptIn(consumer, c, exchanges(c))
  }

  ghost function SetOf(claims: seq<Claim>): set<Claim> {
    set c | c in claims
  }

  ghost predicate DistinctEvents(claims: seq<Claim>) {
    forall i, j :: 0 <= i < j < |claims| ==> claims[i].event.eventId != claims[j].event.eventId
  }

  ghost predicate SameAnswers(a: Claim -> Attempt, b: Claim -> Attempt, claims: set<Claim>) {
    forall c :: c in claims ==> a(c) == b(c)
  }

  lemma RestAnswers(options: RunnerOptions, w: World, claims: seq<Claim>, exchanges: Claim -> Exchange)
    requires claims != [] && DistinctEvents(claims)
    ensures SameAnswers(
      AttemptsIn(w.consumer, exchanges),
      AttemptsIn(Handled(options, w, claims[0], exchanges(claims[0])).consumer, exchanges),
      SetOf(claims[1..]))
    ensures DistinctEvents(claims[1..])
  {
    hide Handled;
    var next := Handled(options, w, claims[0], exchanges(claims[0]));
    forall c | c in claims[1..]
      ensures AttemptsIn(w.consumer, exchanges)(c) == AttemptsIn(next.consumer, exchanges)(c)
    {
      var i :| 0 <= i < |claims[1..]| && claims[1..][i] == c;
      assert claims[i + 1] == c;
      AnswersStay(options, w, claims[0], exchanges(claims[0]), c, exchanges(c));
    }
  }

  /** The claims in `done` were settled and the rest can still be: the state of a
      cycle between two claims. */
  lemma FirstSettled(
    options: RunnerOptions, w: World, leased: Table, done: set<Claim>, claims: seq<Claim>, exchanges: Claim -> Exchange,
    attempts: Claim -> Attempt)
    requires claims != [] && IsSettled(options, leased, w.rows, done, attempts)
    requires attempts(claims[0]) == AttemptIn(w.consumer, claims[0], exchanges(claims[0]))
    requires OneClaimPerEvent(done + SetOf(claims)) && done !! SetOf(claims)
    requires claims[0].event.eventId in leased
    ensures IsSettled(
      options, leased, Handled(options, w, claims[0], exchanges(claims[0])).rows, done + {claims[0]}, attempts)
  {
    hide IsSettled, Settle, AttemptIn;
    assert claims[0] in SetOf(claims);
    SameEvents(done + SetOf(claims), done + {claims[0]});
    hide OneClaimPerEvent;
    OneMoreSettled(options, leased, w.rows, done, attempts, claims[0]);
  }

  lemma {:induction false} CycleFrom(
    options: RunnerOptions, w: World, leased: Table, done: set<Claim>, claims: seq<Claim>, exchanges: Claim -> Exchange,
    attempts: Claim -> Attempt)
    requires IsSettled(options, leased, w.rows, done, attempts)
    requires SameAnswers(attempts, AttemptsIn(w.consumer, exchanges), SetOf(claims))
    requires OneClaimPerEvent(done + SetOf(claims)) && done !! SetOf(claims) && DistinctEvents(claims)
    requires forall c :: c in claims ==> c in w.claims && c.event.eventId in leased
    ensures CanRun(w, CycleSteps(options, w, claims, exchanges))
    ensures IsSettled(
      options, leased, Run(w, CycleSteps(options, w, claims, exchanges)).rows, done + SetOf(claims), attempts)
    decreases |claims|
  {
    if claims == [] {
      assert done + SetOf(claims) == done;
    } else {
      var x := exchanges(claims[0]);
      var next := Handled(options, w, claims[0], x);
      FirstAnswer(w.consumer, claims, exchanges, attempts);
      FirstSettled(options, w, leased, done, claims, exchanges, attempts);
      HandlingIsRun(options, w, claims[0], x);
      RestAnswers(options, w, claims, exchanges);
      RestOfClaims(done, claims);
      ClaimsKept(options, w, claims[0], x);
      hide IsSettled, SameAnswers, OneClaimPerEvent, DistinctEvents, Handled, CanRun, Run, ClaimSteps, SetOf;
      SameAnswersJoin(
        attempts, AttemptsIn(w.consumer, exchanges), AttemptsIn(next.consumer, exchanges), SetOf(claims),
        SetOf(claims[1..]));
      CycleFrom(options, next, leased, done + {claims[0]}, claims[1..], exchanges, attempts);
      RunsJoin(w, ClaimSteps(options, w.consumer, claims[0], x), CycleSteps(options, next, claims[1..], exchanges));
    }
  }

  lemma FirstAnswer(consumer: Applied, claims: seq<Claim>, exchanges: Claim -> Exchange, attempts: Claim -> Attempt)
    requires claims != [] && SameAnswers(attempts, AttemptsIn(consumer, exchanges), SetOf(claims))
    ensures attempts(claims[0]) == AttemptIn(consumer, claims[0], exchanges(claims[0]))
  {
    hide AttemptIn;
    assert claims[0] in SetOf(claims);
  }

  lemma RestOfClaims(done: set<Claim>, claims: seq<Claim>)
    requires claims != [] && DistinctEvents(claims) && done !! SetOf(claims)
    ensures done + SetOf(claims) == done + {claims[0]} + SetOf(claims[1..])
    ensures done + {claims[0]} !! SetOf(claims[1..]) && SetOf(claims[1..]) <= SetOf(claims)
  {
    assert claims == [claims[0]] + claims[1..];
    forall c | c in claims[1..] ensures c != claims[0] {
      var i :| 0 <= i < |claims[1..]| && claims[1..][i] == c;
      assert claims[i + 1].event.eventId != claims[0].event.eventId;
    }
  }

  lemma ClaimsKept(options: RunnerOptions, w: World, claim: Claim, x: Exchange)
    ensures Handled(options, w, claim, x).claims == w.claims
  {
  }

  lemma SameAnswersJoin(
    a: Claim -> Attempt, b: Claim -> Attempt, c: Claim -> Attempt, all: set<Claim>, some: set<Claim>)
    requires SameAnswers(a, b, all) && SameAnswers(b, c, some) && some <= all
    ensures SameAnswers(a, c, some)
  {
  }

  /** A table that settles the same claims with the same answers is the same. */
  lemma SettledIsUnique(
    options: RunnerOptions, leased: Table, a: Table, b: Table, done: set<Claim>, attempts: Claim -> Attempt)
    requires IsSettled(options, leased, a, done, attempts) && IsSettled(options, leased, b, done, attempts)
    ensures a == b
  {
    hide Settle;
    forall id | id in leased ensures a[id] == b[id] {
      if c :| c in done && c.event.eventId == id {
        assert a[c.event.eventId] == b[c.event.eventId];
      }
    }
  }

  /** A batch as a list, for the order in which a cycle handles it. */
  lemma {:induction false} Listed(claims: set<Claim>) returns (list: seq<Claim>)
    requires OneClaimPerEvent(claims)
    ensures SetOf(list) == claims && DistinctEvents(list)
  {
    if claims == {} {
      list := [];
      assert SetOf(list) == {};
    } else {
      var c :| c in claims;
      SameEvents(claims, claims - {c});
      var rest := Listed(claims - {c});
      list := [c] + rest;
      forall i | 0 <= i < |rest| ensures rest[i].event.eventId != c.event.eventId {
        assert rest[i] in SetOf(rest);
      }
      assert SetOf(list) == {c} + SetOf(rest);
    }
  }

  /** One cycle of the worker is a run of the outbox. Whatever the consumer
      answered to the claims of a batch and whatever got lost, the table that
      `RunOnce` promises for these answers is the one that the outbox reaches by
      the claim, the deliveries that arrived and the completions, each enabled at
      its turn. So every theorem about runs holds for the worker's cycles, and that
      only confirmed events are acknowledged is no assumption. */
  lemma CycleIsRun(
    options: RunnerOptions, w: World, request: ClaimRequest, locked: set<Id>, batch: set<Id>,
    exchanges: Claim -> Exchange, after: Table)
    returns (trace: seq<Step>)
    requires WellFormed(w.rows) && Enabled(w, ClaimBatch(request, locked, batch))
    requires batch <= w.rows.Keys
    requires IsSettled(
      options, ClaimRows(w.rows, batch, request), after, ClaimsOf(w.rows, batch, request),
      AttemptsIn(w.consumer, exchanges))
    ensures CanRun(w, trace) && Run(w, trace).rows == after
  {
    var claims := ClaimsOf(w.rows, batch, request);
    var leased := ClaimRows(w.rows, batch, request);
    var claim := ClaimBatch(request, locked, batch);
    ClaimsOfBatch(w.rows, locked, request, batch, claims);
    var taken := Apply(w, claim);
    assert taken.rows == leased && taken.consumer == w.consumer && claims <= taken.claims;
    hide OneClaimPerEvent, DistinctEvents, IsSettled, Enabled, Apply, ClaimRows, ClaimsOf, CanRun, Run;
    var list := Listed(claims);
    var attempts := AttemptsIn(w.consumer, exchanges);
    NoneSettled(options, leased, attempts);
    assert {} + SetOf(list) == claims;
    CycleFrom(options, taken, leased, {}, list, exchanges, attempts);
    var rest := CycleSteps(options, taken, list, exchanges);
    SettledIsUnique(options, leased, Run(taken, rest).rows, after, claims, attempts);
    trace := [claim] + rest;
    FirstStep(w, claim, rest);
  }

  lemma NoneSettled(options: RunnerOptions, leased: Table, attempts: Claim -> Attempt)
    ensures IsSettled(options, leased, leased, {}, attempts)
  {
  }

  lemma FirstStep(w: World, step: Step, rest: seq<Step>)
    requires Enabled(w, step) && CanRun(Apply(w, step), rest)
    ensures CanRun(w, [step] + rest) && Run(w, [step] + rest) == Run(Apply(w, step), rest)
  {
    assert ([step] + rest)[1..] == rest;
  }
}

/** One cycle of the outbox worker: claim, publish, then settle every claim. */
module OutboxRunner {
  import opened Common
  import opened BitMask
  import opened Outbox

  const SECOND: Duration := 1_000_000_000
  const MAX_DURATION: Duration := 0x7FFF_FFFF_FFFF_FFFF

  datatype RunnerOptions = RunnerOptions(
    batchSize: int,
    leaseDuration: Duration,
    retryBaseDelay: Duration,
    retryMaxDelay: Duration)
  {
    predicate Valid() {
      && 0 < batchSize <= MAX_BATCH_SIZE
      && 0 < leaseDuration <= 300 * SECOND
      && 0 < retryBaseDelay <= retryMaxDelay <= 3600 * SECOND
    }
  }

  // ---------------------------------------------------------------------
  // Delays
  // ---------------------------------------------------------------------

  /** Doubling from the base with every attempt, capped at the maximum. */
  function Backoff(options: RunnerOptions, attempt: nat): Duration {
    Min(options.retryMaxDelay, options.retryBaseDelay * Pow2(if attempt > 0 then attempt - 1 else 0))
  }

  /** The first delay is the base, and every further one twice the one before, up to
      the maximum. */
  lemma BackoffDoubles(options: RunnerOptions, attempt: nat)
    requires options.Valid() && attempt > 0
    ensures Backoff(options, 1) == options.retryBaseDelay
    ensures Backoff(options, attempt + 1) == Min(options.retryMaxDelay, 2 * Backoff(options, attempt))
  {
    Doubled(options.retryBaseDelay, attempt);
    assert Pow2(0) == 1;
  }

  /** The delay before the next attempt: it doubles with every attempt up to the
      maximum, and no step of the loop leaves the 64-bit range. */
  method RetryDelay(options: RunnerOptions, attempt: nat) returns (delay: Duration)
    requires options.Valid()
    ensures delay == Backoff(options, attempt)
  {
    delay := options.retryBaseDelay;
    var current := 1;
    while current < attempt && delay < options.retryMaxDelay
      invariant 1 <= current && (current <= attempt || current == 1)
      invariant delay == options.retryBaseDelay * Pow2(current - 1) && 0 < delay <= options.retryMaxDelay
    {
      Doubled(options.retryBaseDelay, current);
      if delay > options.retryMaxDelay / 2 {
        PowersGrow(options.retryBaseDelay, current, attempt - 1);
        return options.retryMaxDelay;
      }
      assert delay * 2 <= MAX_DURATION;
      delay := delay * 2;
      current := current + 1;
    }
    if current < attempt {
      PowersGrow(options.retryBaseDelay, current - 1, attempt - 1);
    }
    delay := Min(delay, options.retryMaxDelay);
  }

  lemma Doubled(base: Duration, k: nat)
    requires k > 0
    ensures base * Pow2(k) == 2 * (base * Pow2(k - 1))
  {
  }

  lemma {:induction false} PowersGrow(base: Duration, a: nat, b: nat)
    requires base > 0 && a <= b
    ensures base * Pow2(a) <= base * Pow2(b)
  {
    if a < b {
      PowersGrow(base, a, b - 1);
      Doubled(base, b);
    }
  }

  // ---------------------------------------------------------------------
  // One cycle
  // ---------------------------------------------------------------------

  /** What happens to one claim outside the queue: the publisher's answer and
      the worker's and the database's clocks when it is settled. */
  datatype Publication = Published | Retryable(error: string) | Permanent(error: string)

  datatype Attempt = Attempt(publication: Publication, now: Time, clock: Time)

  datatype RunResult = RunResult(claimed: nat, delivered: nat, deadLettered: nat, failed: nat)

  function Bounded(error: string): (text: string)
    ensures |text| <= MAX_DELIVERY_ERROR && text <= error
    ensures |error| <= MAX_DELIVERY_ERROR ==> text == error
  {
    if |error| > MAX_DELIVERY_ERROR then error[..MAX_DELIVERY_ERROR] else error
  }

  /** The queue call that settles a claim. */
  function Settle(options: RunnerOptions, rows: Table, claim: Claim, attempt: Attempt): Write {
    var id := claim.event.eventId;
    match attempt.publication
    case Published => MarkDelivered(rows, id, claim.token, attempt.now, attempt.clock)
    case Permanent(error) => MarkDeadLettered(rows, id, claim.token, attempt.now, attempt.clock, Bounded(error))
    case Retryable(error) =>
      ScheduleRetry(rows, id, claim.token, attempt.now + Backoff(options, claim.attempt), attempt.clock, Bounded(error))
  }

  ghost predicate IsDeliveredClaim(options: RunnerOptions, rows: Table, claim: Claim, attempt: Attempt) {
    attempt.publication.Published? && Settle(options, rows, claim, attempt).outcome == Done
  }

  ghost function DeliveredClaims(
    options: RunnerOptions, leased: Table, claims: set<Claim>, attempts: Claim -> Attempt): set<Claim>
  {
    set c | c in claims && IsDeliveredClaim(options, leased, c, attempts(c))
  }

  ghost function BuriedClaims(
    options: RunnerOptions, leased: Table, claims: set<Claim>, attempts: Claim -> Attempt): set<Claim>
  {
    set c | c in claims && IsBuriedClaim(options, leased, c, attempts(c))
  }

  ghost predicate IsBuriedClaim(options: RunnerOptions, rows: Table, claim: Claim, attempt: Attempt) {
    attempt.publication.Permanent? && Settle(options, rows, claim, attempt).outcome == Done
  }

  /** Settling one claim touches that claim's row only, and what it does depends
      on that row only. */
  lemma SettleIsLocal(options: RunnerOptions, rows: Table, other: Table, claim: Claim, attempt: Attempt)
    requires claim.event.eventId in rows && claim.event.eventId in other
    requires rows[claim.event.eventId] == other[claim.event.eventId]
    ensures Settle(options, rows, claim, attempt).outcome == Settle(options, other, claim, attempt).outcome
    ensures claim.event.eventId in Settle(options, other, claim, attempt).rows
    ensures Settle(options, rows, claim, attempt).rows
      == rows[claim.event.eventId := Settle(options, other, claim, attempt).rows[claim.event.eventId]]
  {
  }

  /** The claims of one batch concern different events. */
  ghost predicate OneClaimPerEvent(claims: set<Claim>) {
    forall c, d :: c in claims && d in claims && c != d ==> c.event.eventId != d.event.eventId
  }

  /** The table after every claim in `done` has been settled, each on the row it
      had when the batch was claimed. */
  ghost predicate IsSettled(
    options: RunnerOptions, leased: Table, after: Table, done: set<Claim>, attempts: Claim -> Attempt)
  {
    && after.Keys == leased.Keys
    && (forall c :: c in done ==>
      && c.event.eventId in leased
      && after[c.event.eventId] == Settle(options, leased, c, attempts(c)).rows[c.event.eventId])
    && (forall id :: id in leased && (forall c :: c in done ==> c.event.eventId != id) ==> after[id] == leased[id])
  }

  /** Every settled claim is counted once: as delivered, as a dead letter, or as
      failed. */
  ghost predicate IsReport(
    options: RunnerOptions, leased: Table, done: set<Claim>, attempts: Claim -> Attempt, result: RunResult)
  {
    && |done| == result.delivered + result.deadLettered + result.failed
    && result.delivered == |DeliveredClaims(options, leased, done, attempts)|
    && result.deadLettered == |BuriedClaims(options, leased, done, attempts)|
  }

  function Counted(result: RunResult, publication: Publication, outcome: Outcome): RunResult {
    if publication.Published? && outcome == Done then result.(delivered := result.delivered + 1)
    else if publication.Permanent? && outcome == Done then result.(deadLettered := result.deadLettered + 1)
    else result.(failed := result.failed + 1)
  }

  lemma OneMoreReported(
    options: RunnerOptions, leased: Table, done: set<Claim>, attempts: Claim -> Attempt, claim: Claim,
    result: RunResult)
    requires claim !in done && IsReport(options, leased, done, attempts, result)
    ensures IsReport(
      options, leased, done + {claim}, attempts,
      Counted(result, attempts(claim).publication, Settle(options, leased, claim, attempts(claim)).outcome))
  {
    hide Settle, DeliveredClaims, BuriedClaims;
    OneMoreCounted(options, leased, done, attempts, claim);
    Increments(DeliveredClaims(options, leased, done, attempts), claim);
    Increments(BuriedClaims(options, leased, done, attempts), claim);
    Increments(done, claim);
  }

  lemma Increments(s: set<Claim>, extra: Claim)
    requires extra !in s
    ensures |s + {extra}| == |s| + 1 && s + {} == s
  {
  }

  lemma OneMoreCounted(
    options: RunnerOptions, leased: Table, done: set<Claim>, attempts: Claim -> Attempt, claim: Claim)
    requires claim !in done
    ensures DeliveredClaims(options, leased, done + {claim}, attempts)
      == DeliveredClaims(options, leased, done, attempts)
         + if IsDeliveredClaim(options, leased, claim, attempts(claim)) then {claim} else {}
    ensures BuriedClaims(options, leased, done + {claim}, attempts)
      == BuriedClaims(options, leased, done, attempts)
         + if IsBuriedClaim(options, leased, claim, attempts(claim)) then {claim} else {}
    ensures claim !in DeliveredClaims(options, leased, done, attempts)
    ensures claim !in BuriedClaims(options, leased, done, attempts)
  {
    hide Settle;
  }

  lemma OneMoreSettled(
    options: RunnerOptions, leased: Table, before: Table, done: set<Claim>, attempts: Claim -> Attempt, claim: Claim)
    requires IsSettled(options, leased, before, done, attempts)
    requires claim !in done && OneClaimPerEvent(done + {claim}) && claim.event.eventId in leased
    ensures IsSettled(options, leased, Settle(options, before, claim, attempts(claim)).rows, done + {claim}, attempts)
    ensures Settle(options, before, claim, attempts(claim)).outcome
      == Settle(options, leased, claim, attempts(claim)).outcome
  {
    hide Settle, OneClaimPerEvent;
    var id := claim.event.eventId;
    OthersDiffer(done, claim);
    assert before[id] == leased[id];
    SettleIsLocal(options, before, leased, claim, attempts(claim));
    var after := Settle(options, before, claim, attempts(claim)).rows;
    assert forall other :: other in leased && other != id ==> after[other] == before[other];
  }

  lemma OthersDiffer(done: set<Claim>, claim: Claim)
    requires claim !in done && OneClaimPerEvent(done + {claim})
    ensures forall c :: c in done ==> c.event.eventId != claim.event.eventId
  {
  }

  method HandleClaim(
      queue: OutboxQueue, options: RunnerOptions, claim: Claim, attempt: Attempt) returns (outcome: Outcome)
    requires options.Valid()
    modifies queue
    ensures Write(queue.rows, outcome) == Settle(options, old(queue.rows), claim, attempt)
  {
    match attempt.publication
    case Published =>
      outcome := queue.MarkOutboxDelivered(claim.event.eventId, claim.token, attempt.now, attempt.clock);
    case Permanent(error) =>
      outcome := queue.MarkOutboxDeadLettered(claim.event.eventId, claim.token, attempt.now, attempt.clock,
        Bounded(error));
    case Retryable(error) =>
      var delay := RetryDelay(options, claim.attempt);
      outcome := queue.ScheduleOutboxRetry(
        claim.event.eventId, claim.token, attempt.now + delay, attempt.clock, Bounded(error));
  }

  /** One cycle that is not cancelled. The claims are settled in any order, and
      each claim is counted exactly once. */
  method RunOnce(
    queue: OutboxQueue, options: RunnerOptions, token: Id, claimedAt: Time, locked: set<Id>, attempts: Claim -> Attempt)
    returns (result: RunResult, claims: set<Claim>, ghost batch: set<Id>)
    requires options.Valid() && token != 0 && claimedAt != 0
    requires WellFormed(queue.rows)
    modifies queue
    ensures var request := ClaimRequest(token, options.batchSize, claimedAt, claimedAt + options.leaseDuration);
      && IsBatch(old(queue.rows), locked, request, batch)
      && batch <= old(queue.rows).Keys && claims == ClaimsOf(old(queue.rows), batch, request)
      && IsSettled(options, ClaimRows(old(queue.rows), batch, request), queue.rows, claims, attempts)
      && IsReport(options, ClaimRows(old(queue.rows), batch, request), claims, attempts, result)
    ensures result.claimed == |claims| <= options.batchSize
  {
    var request := ClaimRequest(token, options.batchSize, claimedAt, claimedAt + options.leaseDuration);
    var outcome;
    outcome, claims := queue.ClaimOutboxEvents(request, locked);
    batch :| IsBatch(old(queue.rows), locked, request, batch)
      && queue.rows == ClaimRows(old(queue.rows), batch, request)
      && batch <= old(queue.rows).Keys && claims == ClaimsOf(old(queue.rows), batch, request);
    ClaimsOfBatch(old(queue.rows), locked, request, batch, claims);
    hide IsBatch, IsSettled, ClaimRows;
    result := SettleAll(queue, options, claims, attempts);
  }

  lemma ClaimsOfBatch(rows: Table, locked: set<Id>, request: ClaimRequest, batch: set<Id>, claims: set<Claim>)
    requires WellFormed(rows) && IsBatch(rows, locked, request, batch)
    requires batch <= rows.Keys && claims == ClaimsOf(rows, batch, request)
    ensures OneClaimPerEvent(claims) && |claims| <= request.limit
    ensures forall c :: c in claims ==> c.event.eventId in ClaimRows(rows, batch, request)
  {
    hide Claimable, DueBefore;
    ImageNoLarger(rows, request, batch, claims);
  }

  lemma {:induction false} ImageNoLarger(rows: Table, request: ClaimRequest, batch: set<Id>, claims: set<Claim>)
    requires batch <= rows.Keys
    requires claims == ClaimsOf(rows, batch, request)
    ensures |claims| <= |batch|
  {
    if batch != {} {
      var id :| id in batch;
      var rest := ClaimsOf(rows, batch - {id}, request);
      ImageNoLarger(rows, request, batch - {id}, rest);
      assert claims == rest + {ClaimOf(rows[id], request)};
    }
  }

  method SettleOne(
    queue: OutboxQueue, options: RunnerOptions, claim: Claim, attempts: Claim -> Attempt, result: RunResult,
    ghost leased: Table, ghost done: set<Claim>)
    returns (next: RunResult)
    requires options.Valid() && claim !in done && OneClaimPerEvent(done + {claim})
    requires claim.event.eventId in leased
    requires IsSettled(options, leased, queue.rows, done, attempts)
    requires IsReport(options, leased, done, attempts, result)
    modifies queue
    ensures IsSettled(options, leased, queue.rows, done + {claim}, attempts)
    ensures IsReport(options, leased, done + {claim}, attempts, next) && next.claimed == result.claimed
  {
    OneMoreSettled(options, leased, queue.rows, done, attempts, claim);
    OneMoreReported(options, leased, done, attempts, claim, result);
    hide IsSettled, IsReport, Settle;
    var outcome := HandleClaim(queue, options, claim, attempts(claim));
    next := Counted(result, attempts(claim).publication, outcome);
  }

  method SettleAll(queue: OutboxQueue, options: RunnerOptions, claims: set<Claim>, attempts: Claim -> Attempt)
    returns (result: RunResult)
    requires options.Valid() && OneClaimPerEvent(claims)
    requires forall c :: c in claims ==> c.event.eventId in queue.rows
    modifies queue
    ensures IsSettled(options, old(queue.rows), queue.rows, claims, attempts)
    ensures result.claimed == |claims| && IsReport(options, old(queue.rows), claims, attempts, result)
  {
    ghost var leased := queue.rows;
    var done: set<Claim> := {};
    result := RunResult(|claims|, 0, 0, 0);
    NothingSettled(options, leased, attempts, result);
    hide *;
    while done != claims
      invariant done <= claims
      invariant IsSettled(options, leased, queue.rows, done, attempts)
      invariant IsReport(options, leased, done, attempts, result)
      invariant result.claimed == |claims|
      decreases claims - done
    {
      var claim :| claim in claims && claim !in done;
      SameEvents(claims, done + {claim});
      result := SettleOne(queue, options, claim, attempts, result, leased, done);
      done := done + {claim};
    }
  }

  lemma SameEvents(claims: set<Claim>, some: set<Claim>)
    requires OneClaimPerEvent(claims) && some <= claims
    ensures OneClaimPerEvent(some)
  {
  }

  lemma NothingSettled(options: RunnerOptions, leased: Table, attempts: Claim -> Attempt, result: RunResult)
    requires result.delivered == result.deadLettered == result.failed == 0
    ensures IsSettled(options, leased, leased, {}, attempts)
    ensures IsReport(options, leased, {}, attempts, result)
  {
    assert DeliveredClaims(options, leased, {}, attempts) == {} == BuriedClaims(options, leased, {}, attempts);
  }
}

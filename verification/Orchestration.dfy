/** One matching attempt and the absolute time of the next one. */
module Orchestration {
  import opened Common
  import opened RatingTypes
  import opened MatchTypes
  import opened Selector

  datatype AttemptTrigger = TicketAccepted | RoomChanged | PeriodicRetry

  /** One bounded view of a ticket and its compatible rooms. */
  datatype MatchAttempt = MatchAttempt(
    trigger: AttemptTrigger,
    evaluatedAt: Time,
    candidate: Candidate,
    policy: Policy,
    rooms: seq<RoomView>)
  {
    function Deadline(): Time {
      candidate.joinedAt + policy.fillTimeout
    }
  }

  datatype MatchAttemptResult =
    | Matched(deadline: Time, selection: RoomSelection)
    | RetryScheduled(deadline: Time, retryAt: Time)
    | TimedOut(deadline: Time)

  ghost predicate AttemptValid(a: MatchAttempt) {
    && a.evaluatedAt != 0
    && a.policy.Valid()
    && a.candidate.Valid()
    && a.candidate.joinedAt <= a.evaluatedAt && a.candidate.snapshotAt <= a.evaluatedAt
    && a.candidate.rating.modelVersion == a.policy.ratingModelVersion
    && |a.rooms| <= a.policy.roomLimit
    && (|a.rooms| > 0 ==> ScopeValid(a.rooms, |a.rooms|) && a.rooms[0].policy == a.policy)
    && (forall k :: 0 <= k < |a.rooms| ==> a.rooms[k].createdAt <= a.evaluatedAt)
  }

  /** Remainder of a division that truncates toward zero. */
  function TruncatedRemainder(a: int, b: int): int
    requires b > 0
  {
    if a >= 0 then a % b else -((-a) % b)
  }

  function NextPeriodicBoundary(anchor: Time, interval: Duration, after: Time): Time
    requires interval > 0
  {
    after + (interval - TruncatedRemainder(after - anchor, interval))
  }

  /** The moment at which a live room's verdict can change next. */
  function RoomBoundary(room: RoomView, evaluatedAt: Time): Time
    requires room.policy.expansionInterval > 0
  {
    if room.policy.initialSkillGap < room.policy.maxSkillGap then
      Min(NextPeriodicBoundary(room.createdAt, room.policy.expansionInterval, evaluatedAt), room.deadline)
    else room.deadline
  }

  ghost function RetryBoundary(a: MatchAttempt, k: nat): Time
    requires AttemptValid(a) && k <= |a.rooms|
  {
    if k == 0 then
      Min(NextPeriodicBoundary(a.candidate.joinedAt, a.policy.expansionInterval, a.evaluatedAt), a.Deadline())
    else if a.evaluatedAt >= a.rooms[k - 1].deadline then RetryBoundary(a, k - 1)
    else Min(RetryBoundary(a, k - 1), RoomBoundary(a.rooms[k - 1], a.evaluatedAt))
  }

  lemma BoundaryAhead(anchor: Time, interval: Duration, after: Time)
    requires interval > 0 && anchor <= after
    ensures after < NextPeriodicBoundary(anchor, interval, after)
  {
  }

  /** The retry time lies after the evaluation, not after the deadline, and not
      after the next change of any live room. */
  lemma {:induction false} RetryBoundaryBounds(a: MatchAttempt, k: nat)
    requires AttemptValid(a) && k <= |a.rooms| && a.evaluatedAt < a.Deadline()
    ensures a.evaluatedAt < RetryBoundary(a, k) <= a.Deadline()
    ensures RetryBoundary(a, k)
         <= NextPeriodicBoundary(a.candidate.joinedAt, a.policy.expansionInterval, a.evaluatedAt)
    ensures forall i :: 0 <= i < k && a.evaluatedAt < a.rooms[i].deadline ==>
      RetryBoundary(a, k) <= RoomBoundary(a.rooms[i], a.evaluatedAt)
  {
    hide NextPeriodicBoundary;
    BoundaryAhead(a.candidate.joinedAt, a.policy.expansionInterval, a.evaluatedAt);
    if k > 0 {
      RetryBoundaryBounds(a, k - 1);
      BoundaryAhead(a.rooms[k - 1].createdAt, a.policy.expansionInterval, a.evaluatedAt);
    }
  }

  /** The instants at which the view can look different: the ticket's deadline and
      its next step, and the next step or the end of each live room. */
  ghost predicate IsBoundary(a: MatchAttempt, k: nat, t: Time)
    requires AttemptValid(a) && k <= |a.rooms|
  {
    || t == a.Deadline()
    || t == NextPeriodicBoundary(a.candidate.joinedAt, a.policy.expansionInterval, a.evaluatedAt)
    || exists i :: 0 <= i < k && a.evaluatedAt < a.rooms[i].deadline && t == RoomBoundary(a.rooms[i], a.evaluatedAt)
  }

  lemma {:induction false} RetryBoundaryIsLeast(a: MatchAttempt, k: nat)
    requires AttemptValid(a) && k <= |a.rooms|
    ensures IsBoundary(a, k, RetryBoundary(a, k))
    ensures forall t :: IsBoundary(a, k, t) ==> RetryBoundary(a, k) <= t
  {
    hide NextPeriodicBoundary, RoomBoundary;
    if k > 0 {
      RetryBoundaryIsLeast(a, k - 1);
      forall t | IsBoundary(a, k, t) ensures RetryBoundary(a, k) <= t {
        assert IsBoundary(a, k - 1, t)
          || (a.evaluatedAt < a.rooms[k - 1].deadline && t == RoomBoundary(a.rooms[k - 1], a.evaluatedAt));
      }
    }
  }

  ghost function Attempt(predict: Predictor, a: MatchAttempt): Result<MatchAttemptResult> {
    if !AttemptValid(a) then Err(InvalidInput)
    else if a.Deadline() < a.evaluatedAt then Ok(TimedOut(a.Deadline()))
    else
      var selection := Selection(predict, a.rooms, a.candidate, a.evaluatedAt);
      if selection.Err? then Err(selection.error)
      else if selection.value.Some? then Ok(Matched(a.Deadline(), selection.value.value))
      else if a.evaluatedAt >= a.Deadline() then Ok(TimedOut(a.Deadline()))
      else Ok(RetryScheduled(a.Deadline(), RetryBoundary(a, |a.rooms|)))
  }

  method ValidateMatchAttempt(a: MatchAttempt) returns (valid: bool)
    ensures valid == AttemptValid(a)
  {
    if a.evaluatedAt == 0 || !a.policy.Valid() || !a.candidate.Valid()
       || a.evaluatedAt < a.candidate.joinedAt || a.evaluatedAt < a.candidate.snapshotAt
       || a.candidate.rating.modelVersion != a.policy.ratingModelVersion
       || |a.rooms| > a.policy.roomLimit {
      return false;
    }
    if |a.rooms| > 0 {
      var scopeValid := ValidateSelectionScope(a.rooms);
      if !scopeValid || a.rooms[0].policy != a.policy {
        return false;
      }
    }
    for k := 0 to |a.rooms|
      invariant forall i :: 0 <= i < k ==> a.rooms[i].createdAt <= a.evaluatedAt
    {
      if a.evaluatedAt < a.rooms[k].createdAt {
        return false;
      }
    }
    valid := true;
  }

  method NextRetryBoundary(a: MatchAttempt) returns (next: Time)
    requires AttemptValid(a)
    ensures next == RetryBoundary(a, |a.rooms|)
    ensures IsBoundary(a, |a.rooms|, next) && forall t :: IsBoundary(a, |a.rooms|, t) ==> next <= t
    ensures a.evaluatedAt < a.Deadline() ==> a.evaluatedAt < next <= a.Deadline()
  {
    RetryBoundaryIsLeast(a, |a.rooms|);
    if a.evaluatedAt < a.Deadline() {
      RetryBoundaryBounds(a, |a.rooms|);
    }
    hide IsBoundary;
    var deadline := a.Deadline();
    next := NextPeriodicBoundary(a.candidate.joinedAt, a.policy.expansionInterval, a.evaluatedAt);
    if deadline < next {
      next := deadline;
    }
    for k := 0 to |a.rooms|
      invariant next == RetryBoundary(a, k)
    {
      var room := a.rooms[k];
      if a.evaluatedAt >= room.deadline {
        continue;
      }
      var roomNext := room.deadline;
      if room.policy.initialSkillGap < room.policy.maxSkillGap {
        var expansion := NextPeriodicBoundary(room.createdAt, room.policy.expansionInterval, a.evaluatedAt);
        if expansion < roomNext {
          roomNext := expansion;
        }
      }
      if roomNext < next {
        next := roomNext;
      }
    }
  }

  method AttemptMatch(predict: Predictor, a: MatchAttempt) returns (result: Result<MatchAttemptResult>)
    ensures result == Attempt(predict, a)
  {
    var valid := ValidateMatchAttempt(a);
    if !valid {
      return Err(InvalidInput);
    }
    var deadline := a.candidate.joinedAt + a.policy.fillTimeout;
    if deadline < a.evaluatedAt {
      return Ok(TimedOut(deadline));
    }
    var selection := SelectRoom(predict, a.rooms, a.candidate, a.evaluatedAt);
    if selection.Err? {
      return Err(selection.error);
    }
    if selection.value.Some? {
      return Ok(Matched(deadline, selection.value.value));
    }
    if a.evaluatedAt >= deadline {
      return Ok(TimedOut(deadline));
    }
    var retryAt := NextRetryBoundary(a);
    result := Ok(RetryScheduled(deadline, retryAt));
  }
}

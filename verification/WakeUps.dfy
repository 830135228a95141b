/** The retry schedule misses no match: between an attempt and its retry time
    the same view gives the same answer at every instant. */
module WakeUps {
  import opened Common
  import opened RatingTypes
  import opened MatchTypes
  import opened Eligibility
  import opened Selector
  import opened Orchestration

  /** A prediction that exists stays the same at every later generation time. */
  ghost predicate TimeInvariant(predict: Predictor) {
    forall request: PredictionRequest, later: Time ::
      request.generatedAt <= later && later != 0 && predict(request).Ok? ==>
        predict(request.(generatedAt := later)) == Ok(predict(request).value.(generatedAt := later))
  }

  // ---------------------------------------------------------------------
  // Step arithmetic
  // ---------------------------------------------------------------------

  /** The boundary is the first instant of the next step, and it does not move
      while the current step lasts. */
  lemma PeriodicBoundary(anchor: Time, interval: Duration, after: Time, later: Time)
    requires interval > 0 && anchor <= after <= later < NextPeriodicBoundary(anchor, interval, after)
    ensures after < NextPeriodicBoundary(anchor, interval, after) <= after + interval
    ensures (later - anchor) / interval == (after - anchor) / interval
    ensures NextPeriodicBoundary(anchor, interval, later) == NextPeriodicBoundary(anchor, interval, after)
  {
    var q, x := (after - anchor) / interval, after - anchor;
    assert x == q * interval + x % interval;
    var y := later - anchor;
    SameQuotient(y, q, interval);
  }

  lemma SameQuotient(y: int, q: int, d: int)
    requires d > 0 && q * d <= y < q * d + d
    ensures y / d == q && y % d == y - q * d
  {
    var p := y / d;
    assert y == p * d + y % d;
    QuotientOrder(p, q, d);
    QuotientOrder(q, p, d);
  }

  // ---------------------------------------------------------------------
  // One room
  // ---------------------------------------------------------------------

  /** Nothing about the room changes from `now` to `later`, except that a room at
      or past its deadline may only get older. */
  ghost predicate RoomQuiet(room: RoomView, now: Time, later: Time) {
    && now <= later
    && (now < room.deadline ==>
      && later < room.deadline
      && (room.policy.initialSkillGap < room.policy.maxSkillGap && room.policy.expansionInterval > 0 ==>
        (later - room.createdAt) / room.policy.expansionInterval
          == (now - room.createdAt) / room.policy.expansionInterval))
  }

  lemma WindowUnchanged(room: RoomView, now: Time, later: Time)
    requires room.Valid() && room.createdAt <= now < room.deadline && RoomQuiet(room, now, later)
    ensures room.policy.AllowedSkillGap(later - room.createdAt) == room.policy.AllowedSkillGap(now - room.createdAt)
  {
  }

  lemma FairnessUnchanged(predict: Predictor, room: RoomView, now: Time, later: Time)
    requires TimeInvariant(predict) && Fairness(predict, room, now).Ok?
    requires now <= later <= room.deadline
    requires later != 0
    ensures Fairness(predict, room, later) == Fairness(predict, room, now)
  {
    hide SkillGap, FirstPlaceTotal, MinFirstPlace, MaxFirstPlace, EstimatesOf;
    var request := RoomRequest(room, now);
    assert request.(generatedAt := later) == RoomRequest(room, later);
    assert predict(request).Ok?;
    var before := predict(request).value;
    assert predict(RoomRequest(room, later)) == Ok(before.(generatedAt := later));
  }

  /** A room that refuses the candidate keeps refusing it while it is quiet. */
  lemma StillIneligible(predict: Predictor, room: RoomView, candidate: Candidate, now: Time, later: Time)
    requires TimeInvariant(predict) && RoomQuiet(room, now, later) && later != 0
    requires candidate.Valid() && candidate.joinedAt <= now && candidate.snapshotAt <= now
    requires Decide(predict, room, candidate, now).Ok? && !Decide(predict, room, candidate, now).value.eligible
    ensures Decide(predict, room, candidate, later).Ok? && !Decide(predict, room, candidate, later).value.eligible
  {
    hide Fairness, SkillGap, Clash;
    if now < room.deadline {
      WindowUnchanged(room, now, later);
      var filled := room.(members := room.members + [candidate]);
      if Fairness(predict, filled, now).Ok? {
        FairnessUnchanged(predict, filled, now, later);
      }
    }
  }

  // ---------------------------------------------------------------------
  // One attempt
  // ---------------------------------------------------------------------

  lemma {:induction false} StillNoOption(predict: Predictor, a: MatchAttempt, later: Time, k: nat)
    requires TimeInvariant(predict) && AttemptValid(a) && k <= |a.rooms| && later != 0
    requires forall i :: 0 <= i < |a.rooms| ==> RoomQuiet(a.rooms[i], a.evaluatedAt, later)
    requires OptionsOf(predict, a.rooms, a.candidate, a.evaluatedAt, k) == Ok([])
    ensures OptionsOf(predict, a.rooms, a.candidate, later, k) == Ok([])
  {
    hide Decide;
    if k > 0 {
      StillNoOption(predict, a, later, k - 1);
      StillIneligible(predict, a.rooms[k - 1], a.candidate, a.evaluatedAt, later);
    }
  }

  lemma RoomsQuiet(a: MatchAttempt, later: Time, i: nat)
    requires AttemptValid(a) && a.evaluatedAt < a.Deadline() && i < |a.rooms|
    requires a.evaluatedAt <= later < RetryBoundary(a, |a.rooms|)
    ensures RoomQuiet(a.rooms[i], a.evaluatedAt, later)
    ensures a.evaluatedAt < a.rooms[i].deadline ==>
      RoomBoundary(a.rooms[i], later) == RoomBoundary(a.rooms[i], a.evaluatedAt)
  {
    RetryBoundaryBounds(a, |a.rooms|);
    hide RetryBoundary;
    var room := a.rooms[i];
    if a.evaluatedAt < room.deadline && room.policy.initialSkillGap < room.policy.maxSkillGap {
      PeriodicBoundary(room.createdAt, room.policy.expansionInterval, a.evaluatedAt, later);
    }
  }

  lemma {:induction false} SameRetryBoundary(a: MatchAttempt, later: Time, k: nat)
    requires AttemptValid(a) && AttemptValid(a.(evaluatedAt := later)) && a.evaluatedAt < a.Deadline() && k <= |a.rooms|
    requires a.evaluatedAt <= later < RetryBoundary(a, |a.rooms|)
    ensures RetryBoundary(a.(evaluatedAt := later), k) == RetryBoundary(a, k)
  {
    if k == 0 {
      RetryBoundaryBounds(a, |a.rooms|);
      hide RetryBoundary;
      PeriodicBoundary(a.candidate.joinedAt, a.policy.expansionInterval, a.evaluatedAt, later);
      FirstBoundary(a);
      FirstBoundary(a.(evaluatedAt := later));
    } else {
      SameRetryBoundary(a, later, k - 1);
      RoomsQuiet(a, later, k - 1);
      hide NextPeriodicBoundary, RoomBoundary;
    }
  }

  lemma FirstBoundary(a: MatchAttempt)
    requires AttemptValid(a)
    ensures RetryBoundary(a, 0)
      == Min(NextPeriodicBoundary(a.candidate.joinedAt, a.policy.expansionInterval, a.evaluatedAt), a.Deadline())
  {
  }

  ghost predicate Retries(result: Result<MatchAttemptResult>) {
    result.Ok? && result.value.RetryScheduled?
  }

  /** Sleeping until the retry time misses nothing: every evaluation of the same
      view before that time finds no room either and asks for the same time. */
  lemma SleepingMissesNothing(predict: Predictor, a: MatchAttempt, later: Time)
    requires TimeInvariant(predict) && Retries(Attempt(predict, a)) && later != 0
    requires a.evaluatedAt <= later < Attempt(predict, a).value.retryAt
    ensures Attempt(predict, a.(evaluatedAt := later)) == Attempt(predict, a)
  {
    RetryBoundaryBounds(a, |a.rooms|);
    SameRetryBoundary(a, later, |a.rooms|);
    forall i | 0 <= i < |a.rooms| ensures RoomQuiet(a.rooms[i], a.evaluatedAt, later) {
      RoomsQuiet(a, later, i);
    }
    hide RetryBoundary, Least;
    if |a.rooms| > 0 {
      StillNoOption(predict, a, later, |a.rooms|);
    }
  }

  /** A retry is always in the future and never past the ticket's deadline. */
  lemma RetryIsAhead(predict: Predictor, a: MatchAttempt)
    requires Retries(Attempt(predict, a))
    ensures a.evaluatedAt < Attempt(predict, a).value.retryAt <= a.Deadline()
  {
    RetryBoundaryBounds(a, |a.rooms|);
  }

  /** The instant at which a ticket that always sleeps until its retry time gets
      its first answer other than another retry. */
  ghost function FinalWakeUp(predict: Predictor, a: MatchAttempt): Time
    decreases if Retries(Attempt(predict, a)) then a.Deadline() - a.evaluatedAt + 1 else 0
  {
    if Retries(Attempt(predict, a)) then
      RetryIsAhead(predict, a);
      FinalWakeUp(predict, a.(evaluatedAt := Attempt(predict, a).value.retryAt))
    else a.evaluatedAt
  }

  /** Following the schedule over a fixed view ends by the deadline, and it ends
      at the earliest instant at which any evaluation would have ended it: the
      schedule finds a match exactly when and as early as continuous evaluation
      does. Only the zero time, at which no evaluation is accepted, is passed over. */
  lemma {:induction false} ScheduleIsExact(predict: Predictor, a: MatchAttempt)
    requires TimeInvariant(predict)
    ensures a.evaluatedAt <= FinalWakeUp(predict, a)
    ensures Retries(Attempt(predict, a)) ==> FinalWakeUp(predict, a) <= a.Deadline()
    ensures !Retries(Attempt(predict, a.(evaluatedAt := FinalWakeUp(predict, a))))
    ensures forall t :: a.evaluatedAt <= t < FinalWakeUp(predict, a) && t != 0 ==>
      Retries(Attempt(predict, a.(evaluatedAt := t)))
    decreases if Retries(Attempt(predict, a)) then a.Deadline() - a.evaluatedAt + 1 else 0
  {
    hide Attempt;
    if Retries(Attempt(predict, a)) {
      RetryIsAhead(predict, a);
      var woken := a.(evaluatedAt := Attempt(predict, a).value.retryAt);
      ScheduleIsExact(predict, woken);
      forall t | a.evaluatedAt <= t < FinalWakeUp(predict, a) && t != 0
        ensures Retries(Attempt(predict, a.(evaluatedAt := t)))
      {
        if t < woken.evaluatedAt {
          SleepingMissesNothing(predict, a, t);
        } else {
          assert woken.(evaluatedAt := t) == a.(evaluatedAt := t);
        }
      }
      assert woken.(evaluatedAt := FinalWakeUp(predict, woken)) == a.(evaluatedAt := FinalWakeUp(predict, a));
    } else {
      assert a.(evaluatedAt := FinalWakeUp(predict, a)) == a;
    }
  }

  ghost predicate Matches(result: Result<MatchAttemptResult>) {
    result.Ok? && result.value.Matched?
  }

  lemma MatchesInTime(predict: Predictor, a: MatchAttempt)
    requires Matches(Attempt(predict, a))
    ensures a.evaluatedAt <= a.Deadline()
  {
  }

  /** A view that gives up has reached its deadline. */
  lemma TimesOutLate(predict: Predictor, a: MatchAttempt)
    requires Attempt(predict, a).Ok? && Attempt(predict, a).value.TimedOut?
    ensures a.Deadline() <= a.evaluatedAt
  {
  }

  /** Unless its last evaluation fails with an error, following the schedule ends in
      a match or a time-out, and in a match exactly if evaluating at every instant
      up to the deadline would have found one. */
  lemma ScheduleMatchesIff(predict: Predictor, a: MatchAttempt)
    requires TimeInvariant(predict)
    requires Attempt(predict, a.(evaluatedAt := FinalWakeUp(predict, a))).Ok?
    ensures var last := Attempt(predict, a.(evaluatedAt := FinalWakeUp(predict, a)));
      && (last.value.Matched? || last.value.TimedOut?)
      && (last.value.Matched? <==>
        exists t :: a.evaluatedAt <= t <= a.Deadline() && Matches(Attempt(predict, a.(evaluatedAt := t))))
  {
    ScheduleIsExact(predict, a);
    hide Attempt, FinalWakeUp;
    var end := FinalWakeUp(predict, a);
    var final := a.(evaluatedAt := end);
    if Attempt(predict, final).value.Matched? {
      MatchesInTime(predict, final);
      assert Matches(Attempt(predict, a.(evaluatedAt := end)));
    } else {
      TimesOutLate(predict, final);
      hide Matches, Retries;
      forall t | a.evaluatedAt <= t <= a.Deadline() ensures !Matches(Attempt(predict, a.(evaluatedAt := t))) {
        NoMatchBefore(predict, a, end, t);
      }
    }
  }

  lemma NoMatchBefore(predict: Predictor, a: MatchAttempt, end: Time, t: Time)
    requires a.evaluatedAt <= t <= end && !Matches(Attempt(predict, a.(evaluatedAt := end)))
    requires t < end && t != 0 ==> Retries(Attempt(predict, a.(evaluatedAt := t)))
    ensures !Matches(Attempt(predict, a.(evaluatedAt := t)))
  {
  }
}

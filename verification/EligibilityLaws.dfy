/** Who is eligible for a room, exactly, and why somebody is not. */
module EligibilityLaws {
  import opened Common
  import opened RatingTypes
  import opened MatchTypes
  import opened Eligibility

  // ---------------------------------------------------------------------
  // The stepped window
  // ---------------------------------------------------------------------

  /** The number of steps is the fill timeout in intervals, rounded up. */
  lemma StepsCoverTimeout(policy: Policy)
    requires policy.Valid()
    ensures var n := policy.TotalSteps();
      (n - 1) * policy.expansionInterval < policy.fillTimeout <= n * policy.expansionInterval
  {
    var q, r := policy.fillTimeout / policy.expansionInterval, policy.fillTimeout % policy.expansionInterval;
    assert policy.fillTimeout == q * policy.expansionInterval + r;
  }

  /** A new room starts with the initial gap; every full interval before the fill
      timeout adds the same share of the way to the hard limit, and nothing changes
      inside an interval. */
  lemma WindowSteps(policy: Policy, age: Duration, later: Duration)
    requires policy.Valid() && policy.initialSkillGap < policy.maxSkillGap && 0 <= age
    ensures policy.AllowedSkillGap(0) == Ok(policy.initialSkillGap)
    ensures age + policy.expansionInterval < policy.fillTimeout ==>
      policy.AllowedSkillGap(age + policy.expansionInterval).value
        == policy.AllowedSkillGap(age).value
           + (policy.maxSkillGap - policy.initialSkillGap) / policy.TotalSteps() as real
    ensures age <= later < policy.fillTimeout && later / policy.expansionInterval == age / policy.expansionInterval ==>
      policy.AllowedSkillGap(later) == policy.AllowedSkillGap(age)
  {
    var d, n := policy.expansionInterval, policy.TotalSteps();
    StepsCoverTimeout(policy);
    if age + d < policy.fillTimeout {
      var k := age / d;
      NextQuotient(age, d);
      StepsReached(age + d, d, n);
      assert (age + d) / d == k + 1 <= n;
      OneStep(policy, k);
    }
    WindowStart(policy);
  }

  lemma NextQuotient(a: int, d: int)
    requires a >= 0 && d > 0
    ensures (a + d) / d == a / d + 1
  {
    var q := a / d;
    assert a == q * d + a % d;
    QuotientIs(a + d, q + 1, d);
  }

  lemma QuotientIs(y: int, q: int, d: int)
    requires d > 0 && q * d <= y < q * d + d
    ensures y / d == q
  {
    var p := y / d;
    assert y == p * d + y % d;
    QuotientOrder(p, q, d);
    QuotientOrder(q, p, d);
  }

  lemma StepsReached(a: int, d: int, n: int)
    requires d > 0 && 0 <= a < n * d
    ensures a / d < n
  {
    var q := a / d;
    assert q * d <= a;
    assert (n - 1) * d + d == n * d;
    QuotientOrder(q, n - 1, d);
  }

  lemma OneStep(policy: Policy, k: int)
    requires policy.Valid()
    ensures policy.Window(k + 1)
      == policy.Window(k) + (policy.maxSkillGap - policy.initialSkillGap) / policy.TotalSteps() as real
  {
    var total, span := policy.TotalSteps() as real, policy.maxSkillGap - policy.initialSkillGap;
    Shares(k as real, total, span);
    hide policy.TotalSteps;
    assert (k + 1) as real == k as real + 1.0;
  }

  lemma Shares(k: real, total: real, span: real)
    requires total > 0.0
    ensures span * ((k + 1.0) / total) == span * (k / total) + span / total
  {
    assert (k + 1.0) / total == k / total + 1.0 / total;
  }

  lemma WindowStart(policy: Policy)
    requires policy.Valid() && policy.initialSkillGap < policy.maxSkillGap
    ensures policy.AllowedSkillGap(0) == Ok(policy.initialSkillGap)
  {
    assert 0 / policy.expansionInterval == 0;
    assert policy.Window(0) == policy.initialSkillGap;
  }

  // ---------------------------------------------------------------------
  // Fairness of a complete room
  // ---------------------------------------------------------------------

  /** No two players' chances to win are further apart than that. */
  ghost predicate ChancesWithin(ps: seq<PlacementPrediction>, limit: real) {
    forall i, j :: 0 <= i < |ps| && 0 <= j < |ps| ==>
      ps[i].firstPlaceProbability - ps[j].firstPlaceProbability <= limit
  }

  lemma {:induction false} ChanceBounds(ps: seq<PlacementPrediction>, k: nat)
    requires 0 < k <= |ps|
    ensures forall i :: 0 <= i < k ==> MinFirstPlace(ps, k) <= ps[i].firstPlaceProbability <= MaxFirstPlace(ps, k)
    ensures exists i :: 0 <= i < k && ps[i].firstPlaceProbability == MinFirstPlace(ps, k)
    ensures exists i :: 0 <= i < k && ps[i].firstPlaceProbability == MaxFirstPlace(ps, k)
  {
    if k > 1 {
      ChanceBounds(ps, k - 1);
      var low :| 0 <= low < k - 1 && ps[low].firstPlaceProbability == MinFirstPlace(ps, k - 1);
      var high :| 0 <= high < k - 1 && ps[high].firstPlaceProbability == MaxFirstPlace(ps, k - 1);
      assert ps[k - 1].firstPlaceProbability == MinFirstPlace(ps, k)
        || ps[low].firstPlaceProbability == MinFirstPlace(ps, k);
      assert ps[k - 1].firstPlaceProbability == MaxFirstPlace(ps, k)
        || ps[high].firstPlaceProbability == MaxFirstPlace(ps, k);
    } else {
      assert ps[0].firstPlaceProbability == MinFirstPlace(ps, k) == MaxFirstPlace(ps, k);
    }
  }

  lemma SpreadIsPairwise(ps: seq<PlacementPrediction>, limit: real)
    requires |ps| > 0
    ensures MaxFirstPlace(ps, |ps|) - MinFirstPlace(ps, |ps|) <= limit <==> ChancesWithin(ps, limit)
  {
    ChanceBounds(ps, |ps|);
    var low :| 0 <= low < |ps| && ps[low].firstPlaceProbability == MinFirstPlace(ps, |ps|);
    var high :| 0 <= high < |ps| && ps[high].firstPlaceProbability == MaxFirstPlace(ps, |ps|);
    if ChancesWithin(ps, limit) {
      assert ps[high].firstPlaceProbability - ps[low].firstPlaceProbability <= limit;
    }
  }

  /** A decided complete room is inside its hard limits exactly if every two members
      are within the skill limit and every two players' predicted chances to win
      within the probability limit; the prediction was asked for these members at
      this time and is one of them. */
  lemma FairIff(predict: Predictor, room: RoomView, evaluatedAt: Time)
    requires Fairness(predict, room, evaluatedAt).Ok?
    ensures predict(RoomRequest(room, evaluatedAt)).Ok?
    ensures var ps := predict(RoomRequest(room, evaluatedAt)).value.participants;
      && |ps| == |room.members| && ParticipantsValid(ps, room, |ps|)
      && (Fairness(predict, room, evaluatedAt).value.withinHardLimits <==>
        PairwiseWithin(room.members, room.policy.maxSkillGap)
        && ChancesWithin(ps, room.policy.maxWinProbabilitySpread))
  {
    var ps := predict(RoomRequest(room, evaluatedAt)).value.participants;
    assert room.policy.Valid();
    SkillGapIsPairwise(room.members, room.policy.maxSkillGap);
    SpreadIsPairwise(ps, room.policy.maxWinProbabilitySpread);
    hide RoomView.Valid, RoomRequest, SkillGap, MaxFirstPlace, MinFirstPlace, FirstPlaceTotal, ParticipantValid;
    hide PairwiseWithin, ChancesWithin;
  }

  // ---------------------------------------------------------------------
  // The decision
  // ---------------------------------------------------------------------

  /** The candidate is well formed and known by the time of the decision. */
  ghost predicate Present(candidate: Candidate, evaluatedAt: Time) {
    candidate.Valid() && candidate.joinedAt <= evaluatedAt && candidate.snapshotAt <= evaluatedAt
  }

  ghost predicate NobodyClashes(room: RoomView, candidate: Candidate) {
    forall m :: m in room.members ==> m.ticketId != candidate.ticketId && m.playerId != candidate.playerId
  }

  /** The room with the candidate is close enough for a room of its age. */
  ghost predicate CloseEnough(room: RoomView, candidate: Candidate, evaluatedAt: Time)
    requires room.policy.Valid() && room.createdAt <= evaluatedAt
  {
    && PairwiseWithin(room.members + [candidate], room.policy.maxSkillGap)
    && PairwiseWithin(
      room.members + [candidate], room.policy.AllowedSkillGap(evaluatedAt - room.createdAt).value)
  }

  /** If the candidate completes the room, the complete room is fair. */
  ghost predicate FairIfComplete(predict: Predictor, room: RoomView, candidate: Candidate, evaluatedAt: Time) {
    var full := room.(members := room.members + [candidate]);
    |full.members| == full.capacity ==>
      && Fairness(predict, full, evaluatedAt).Ok? && predict(RoomRequest(full, evaluatedAt)).Ok?
      && ChancesWithin(
        predict(RoomRequest(full, evaluatedAt)).value.participants, room.policy.maxWinProbabilitySpread)
  }

  ghost predicate Fits(predict: Predictor, room: RoomView, candidate: Candidate, evaluatedAt: Time)
    requires room.policy.Valid() && room.createdAt <= evaluatedAt
  {
    && Present(candidate, evaluatedAt) && evaluatedAt <= room.deadline && |room.members| < room.capacity
    && NobodyClashes(room, candidate) && candidate.rating.modelVersion == room.policy.ratingModelVersion
    && CloseEnough(room, candidate, evaluatedAt)
    && FairIfComplete(predict, room, candidate, evaluatedAt)
  }

  lemma WindowNonNegative(policy: Policy, age: Duration)
    requires policy.Valid() && age >= 0
    ensures policy.AllowedSkillGap(age).Ok? && policy.AllowedSkillGap(age).value >= 0.0
  {
    AllowedSkillGapMonotone(policy, age, age);
  }

  lemma CloseIff(room: RoomView, candidate: Candidate, evaluatedAt: Time)
    requires room.policy.Valid() && room.createdAt <= evaluatedAt
    ensures var gap, allowed := SkillGap(room.members + [candidate]),
      room.policy.AllowedSkillGap(evaluatedAt - room.createdAt);
      && allowed.Ok?
      && (gap <= room.policy.maxSkillGap <==> PairwiseWithin(room.members + [candidate], room.policy.maxSkillGap))
      && (gap <= allowed.value <==> PairwiseWithin(room.members + [candidate], allowed.value))
  {
    WindowNonNegative(room.policy, evaluatedAt - room.createdAt);
    SkillGapIsPairwise(room.members + [candidate], room.policy.maxSkillGap);
    SkillGapIsPairwise(
      room.members + [candidate], room.policy.AllowedSkillGap(evaluatedAt - room.createdAt).value);
    hide SkillGap, PairwiseWithin, Policy.AllowedSkillGap;
  }

  /** A decided candidate is eligible exactly if it fits the room. */
  lemma EligibleIff(predict: Predictor, room: RoomView, candidate: Candidate, evaluatedAt: Time)
    requires Decide(predict, room, candidate, evaluatedAt).Ok?
    ensures room.policy.Valid() && room.createdAt <= evaluatedAt
    ensures Decide(predict, room, candidate, evaluatedAt).value.eligible
      <==> Fits(predict, room, candidate, evaluatedAt)
    ensures Decide(predict, room, candidate, evaluatedAt).value.eligible
      <==> Decide(predict, room, candidate, evaluatedAt).value.rejection.None?
  {
    hide Clash, SkillGap, PairwiseWithin, Candidate.Valid, Policy.AllowedSkillGap, Policy.Valid, Fairness;
    CloseIff(room, candidate, evaluatedAt);
    var full := room.(members := room.members + [candidate]);
    if Fairness(predict, full, evaluatedAt).Ok? {
      FairIff(predict, full, evaluatedAt);
    }
    hide ChancesWithin, RoomRequest, ParticipantsValid;
  }

  /** The reason of a rejection is true. */
  lemma RejectionIsTrue(predict: Predictor, room: RoomView, candidate: Candidate, evaluatedAt: Time)
    requires Decide(predict, room, candidate, evaluatedAt).Ok?
    requires !Decide(predict, room, candidate, evaluatedAt).value.eligible
    ensures room.policy.Valid() && room.createdAt <= evaluatedAt
    ensures Decide(predict, room, candidate, evaluatedAt).value.rejection.Some?
    ensures match Decide(predict, room, candidate, evaluatedAt).value.rejection.value
      case InvalidCandidate => !Present(candidate, evaluatedAt)
      case RoomExpired => room.deadline < evaluatedAt
      case RoomFull => |room.members| == room.capacity
      case DuplicateTicket => exists m :: m in room.members && m.ticketId == candidate.ticketId
      case DuplicatePlayer => exists m :: m in room.members && m.playerId == candidate.playerId
      case RatingModelMismatch => candidate.rating.modelVersion != room.policy.ratingModelVersion
      case SkillGapExceeded => !PairwiseWithin(room.members + [candidate], room.policy.maxSkillGap)
      case SkillWindowExceeded =>
        && PairwiseWithin(room.members + [candidate], room.policy.maxSkillGap)
        && !CloseEnough(room, candidate, evaluatedAt)
      case ProbabilityGapExceeded =>
        CloseEnough(room, candidate, evaluatedAt) && !FairIfComplete(predict, room, candidate, evaluatedAt)
  {
    hide SkillGap, PairwiseWithin, Candidate.Valid, Policy.AllowedSkillGap, Policy.Valid, Fairness, Clash;
    ClashIsTrue(room.members, candidate);
    CloseIff(room, candidate, evaluatedAt);
    var full := room.(members := room.members + [candidate]);
    if Fairness(predict, full, evaluatedAt).Ok? {
      FairIff(predict, full, evaluatedAt);
    }
    hide ChancesWithin, RoomRequest, ParticipantsValid;
  }

  lemma {:induction false} ClashIsTrue(members: seq<Candidate>, candidate: Candidate)
    ensures Clash(members, candidate) == Some(DuplicateTicket) ==>
      exists m :: m in members && m.ticketId == candidate.ticketId
    ensures Clash(members, candidate) == Some(DuplicatePlayer) ==>
      exists m :: m in members && m.playerId == candidate.playerId
    ensures Clash(members, candidate).Some? ==>
      Clash(members, candidate).value == DuplicateTicket || Clash(members, candidate).value == DuplicatePlayer
  {
    if members != [] {
      assert members[0] in members;
      ClashIsTrue(members[1..], candidate);
    }
  }

  /** The gap in an eligible decision is the largest difference in the room with the
      candidate. */
  lemma EligibleGap(predict: Predictor, room: RoomView, candidate: Candidate, evaluatedAt: Time, limit: real)
    requires Decide(predict, room, candidate, evaluatedAt).Ok? && limit >= 0.0
    requires Decide(predict, room, candidate, evaluatedAt).value.eligible
    ensures Decide(predict, room, candidate, evaluatedAt).value.skillGap <= limit
      <==> PairwiseWithin(room.members + [candidate], limit)
    ensures Decide(predict, room, candidate, evaluatedAt).value.ticketId == candidate.ticketId
  {
    SkillGapIsPairwise(room.members + [candidate], limit);
    hide Clash, PairwiseWithin, SkillGap, Candidate.Valid, Policy.AllowedSkillGap, Policy.Valid, ValidatedSpread;
  }
}

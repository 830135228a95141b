/** Policies, candidates and room views of the matcher. */
module MatchTypes {
  import opened Common
  import opened RatingTypes

  /** Immutable matching policy. */
  datatype Policy = Policy(
    version: Id,
    ratingModelVersion: Id,
    initialSkillGap: real,
    maxSkillGap: real,
    maxWinProbabilitySpread: real,
    expansionInterval: Duration,
    fillTimeout: Duration,
    agePriorityAfter: Duration,
    candidateLimit: int,
    roomLimit: int,
    preferNearlyFull: bool)
  {
    predicate Valid() {
      && version != 0 && ratingModelVersion != 0
      && 0.0 <= initialSkillGap <= maxSkillGap
      && 0.0 <= maxWinProbabilitySpread <= 1.0
      && 0 < expansionInterval <= fillTimeout
      && 0 <= agePriorityAfter <= fillTimeout
      && candidateLimit > 0 && roomLimit > 0
    }

    /** The step window for a forming room of the given age. */
    function AllowedSkillGap(roomAge: Duration): (gap: Result<real>)
      ensures gap.Ok? <==> Valid() && roomAge >= 0
    {
      if !Valid() || roomAge < 0 then Err(InvalidInput)
      else if roomAge >= fillTimeout || initialSkillGap == maxSkillGap then Ok(maxSkillGap)
      else Ok(Window(Min(roomAge / expansionInterval, TotalSteps())))
    }

    /** The window after the given number of expansion steps. */
    function Window(elapsedSteps: int): real
      requires Valid()
    {
      var progress := elapsedSteps as real / TotalSteps() as real;
      initialSkillGap + (maxSkillGap - initialSkillGap) * progress
    }

    function TotalSteps(): (steps: int)
      requires Valid()
      ensures steps >= 1
    {
      if fillTimeout % expansionInterval != 0 then fillTimeout / expansionInterval + 1
      else fillTimeout / expansionInterval
    }
  }

  datatype Candidate = Candidate(
    ticketId: Id,
    playerId: Id,
    joinedAt: Time,
    snapshotAt: Time,
    rating: Estimate)
  {
    predicate Valid() {
      && ticketId != 0 && playerId != 0
      && joinedAt != 0 && snapshotAt != 0 && snapshotAt <= joinedAt
      && rating.Valid()
      && rating.updatedAt <= snapshotAt
    }
  }

  datatype RoomView = RoomView(
    roomId: Id,
    modeId: Id,
    aggregateVersion: int,
    capacity: int,
    createdAt: Time,
    deadline: Time,
    policy: Policy,
    members: seq<Candidate>)
  {
    predicate Valid() {
      && roomId != 0 && modeId != 0
      && aggregateVersion >= 0
      && MIN_ROOM_SIZE <= capacity <= MAX_ROOM_SIZE
      && createdAt != 0 && deadline != 0 && createdAt < deadline
      && |members| <= capacity
      && policy.Valid()
      && deadline <= createdAt + policy.fillTimeout
      && (forall m :: m in members ==>
        && m.Valid()
        && m.snapshotAt <= deadline
        && m.rating.modelVersion == policy.ratingModelVersion)
      && (forall i, j :: 0 <= i < j < |members| ==>
        && members[i].ticketId != members[j].ticketId
        && members[i].playerId != members[j].playerId)
    }
  }

  /** The window never leaves the policy's limits and never narrows with age. */
  lemma AllowedSkillGapMonotone(policy: Policy, age: Duration, later: Duration)
    requires policy.Valid() && 0 <= age <= later
    ensures policy.initialSkillGap
         <= policy.AllowedSkillGap(age).value
         <= policy.AllowedSkillGap(later).value
         <= policy.maxSkillGap
  {
    hide policy.Window, policy.TotalSteps;
    DivisionMonotone(age, later, policy.expansionInterval);
    var few := Min(age / policy.expansionInterval, policy.TotalSteps());
    var many := Min(later / policy.expansionInterval, policy.TotalSteps());
    WindowMonotone(policy, few, many);
  }

  lemma DivisionMonotone(a: int, b: int, d: int)
    requires 0 <= a <= b && d > 0
    ensures 0 <= a / d <= b / d
  {
    var x, y := a / d, b / d;
    assert x * d <= a && b < y * d + d;
    QuotientOrder(x, y, d);
  }

  lemma QuotientOrder(x: int, y: int, d: int)
    requires d > 0 && x * d < y * d + d
    ensures x <= y
  {
    if x >= y + 1 {
      ProductOrder(x - y - 1, d);
      assert false;
    }
  }

  lemma ProductOrder(x: int, d: int)
    requires x >= 0 && d > 0
    ensures x * d >= 0
  {
  }

  lemma WindowMonotone(policy: Policy, few: int, many: int)
    requires policy.Valid() && 0 <= few <= many <= policy.TotalSteps()
    ensures policy.initialSkillGap <= policy.Window(few) <= policy.Window(many) <= policy.maxSkillGap
  {
    var span, total := policy.maxSkillGap - policy.initialSkillGap, policy.TotalSteps() as real;
    ShareMonotone(few as real, many as real, total);
    ScaleMonotone(span, few as real / total, many as real / total);
    ScaleMonotone(span, many as real / total, 1.0);
    ScaleMonotone(span, 0.0, few as real / total);
  }

  lemma ShareMonotone(a: real, b: real, total: real)
    requires 0.0 <= a <= b <= total && total > 0.0
    ensures 0.0 <= a / total <= b / total <= 1.0
  {
  }

  lemma ScaleMonotone(c: real, a: real, b: real)
    requires c >= 0.0 && a <= b
    ensures c * a <= c * b
  {
    assert c * (b - a) >= 0.0;
  }

  /** At the fill timeout the window is the hard limit. */
  lemma AllowedSkillGapReachesMaximum(policy: Policy, age: Duration)
    requires policy.Valid() && age >= policy.fillTimeout
    ensures policy.AllowedSkillGap(age) == Ok(policy.maxSkillGap)
  {
  }
}

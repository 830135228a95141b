/** Synthetic outcomes: a room's players ranked by latent skill plus noise that
    depends only on stable identifiers. */
module OutcomeGenerator {
  import opened Common
  import opened RatingTypes
  import opened Simulator
  import opened SimulatorLaws

  datatype Ranked = Ranked(playerId: Id, performance: real)

  /** Noise of a room, deck and player. */
  type Noise = (Id, Id, Id) -> real

  const NO_FEATURES := Features(None, None, None, None, None, None)

  /** Better performance first, then the lower identifier. */
  predicate Ahead(a: Ranked, b: Ranked) {
    a.performance > b.performance || (a.performance == b.performance && a.playerId < b.playerId)
  }

  function InsertRanked(ranked: seq<Ranked>, x: Ranked): (r: seq<Ranked>)
    ensures |r| == |ranked| + 1
  {
    if ranked == [] || Ahead(x, ranked[0]) then [x] + ranked else [ranked[0]] + InsertRanked(ranked[1..], x)
  }

  function SortRanked(xs: seq<Ranked>): (r: seq<Ranked>)
    ensures |r| == |xs|
  {
    if xs == [] then [] else InsertRanked(SortRanked(xs[..|xs| - 1]), xs[|xs| - 1])
  }

  lemma {:induction false} InsertKeeps(ranked: seq<Ranked>, x: Ranked)
    ensures multiset(InsertRanked(ranked, x)) == multiset(ranked) + multiset{x}
  {
    if ranked != [] && !Ahead(x, ranked[0]) {
      InsertKeeps(ranked[1..], x);
      assert ranked == [ranked[0]] + ranked[1..];
    }
  }

  lemma {:induction false} SortKeeps(xs: seq<Ranked>)
    ensures multiset(SortRanked(xs)) == multiset(xs)
  {
    if xs != [] {
      SortKeeps(xs[..|xs| - 1]);
      InsertKeeps(SortRanked(xs[..|xs| - 1]), xs[|xs| - 1]);
      assert xs == xs[..|xs| - 1] + [xs[|xs| - 1]];
    }
  }

  ghost predicate RankOrdered(ranked: seq<Ranked>) {
    forall i, j :: 0 <= i < j < |ranked| ==> !Ahead(ranked[j], ranked[i])
  }

  lemma {:induction false} InsertOrders(ranked: seq<Ranked>, x: Ranked)
    requires RankOrdered(ranked)
    ensures RankOrdered(InsertRanked(ranked, x))
  {
    if ranked != [] && !Ahead(x, ranked[0]) {
      var rest := InsertRanked(ranked[1..], x);
      InsertOrders(ranked[1..], x);
      InsertKeeps(ranked[1..], x);
      forall j | 0 <= j < |rest| ensures !Ahead(rest[j], ranked[0]) {
        assert rest[j] in multiset(rest);
        assert rest[j] == x || rest[j] in ranked[1..];
      }
    }
  }

  lemma {:induction false} SortOrders(xs: seq<Ranked>)
    ensures RankOrdered(SortRanked(xs))
  {
    if xs != [] {
      SortOrders(xs[..|xs| - 1]);
      InsertOrders(SortRanked(xs[..|xs| - 1]), xs[|xs| - 1]);
    }
  }

  // ---------------------------------------------------------------------
  // Generation
  // ---------------------------------------------------------------------

  function Performances(noise: Noise, request: OutcomeRequest): seq<Ranked> {
    seq(|request.participants|, i requires 0 <= i < |request.participants| =>
      Ranked(request.participants[i].0,
             request.participants[i].1 + noise(request.roomId, request.deckId, request.participants[i].0)))
  }

  function PlaceAll(ranked: seq<Ranked>): seq<ParticipantResult> {
    seq(|ranked|, i requires 0 <= i < |ranked| => ParticipantResult(ranked[i].playerId, i + 1, NO_FEATURES))
  }

  function PartitionFor(ps: seq<Partition>, id: Id): Option<Partition> {
    if ps == [] then None else if ps[0].id == id then Some(ps[0]) else PartitionFor(ps[1..], id)
  }

  ghost predicate RequestValid(p: Partition, request: OutcomeRequest) {
    var xs := request.participants;
    && |xs| == p.capacity && (forall i :: 0 <= i < |xs| ==> xs[i].0 != 0)
    && (forall i, j :: 0 <= i < j < |xs| ==> xs[i].0 != xs[j].0)
  }

  function ResultFor(noise: Noise, p: Partition, request: OutcomeRequest): MatchResult {
    MatchResult(request.eventId, request.roomId, p.modeId, request.deckId, request.scoringRulesVersion,
                request.finishedAt, request.availableAt, PlaceAll(SortRanked(Performances(noise, request))))
  }

  ghost function Generated(ps: seq<Partition>, noise: Noise, request: OutcomeRequest): Result<MatchResult> {
    var p := PartitionFor(ps, request.partitionId);
    if p.None? || !RequestValid(p.value, request) then Err(InvalidInput)
    else if !ResultFor(noise, p.value, request).Valid() then Err(InvalidInput)
    else Ok(ResultFor(noise, p.value, request))
  }

  method GenerateOutcome(ps: seq<Partition>, noise: Noise, request: OutcomeRequest) returns (r: Result<MatchResult>)
    ensures r == Generated(ps, noise, request)
  {
    hide SortRanked, MatchResult.Valid;
    var found := PartitionFor(ps, request.partitionId);
    if found.None? || |request.participants| != found.value.capacity {
      return Err(InvalidInput);
    }
    var p, xs := found.value, request.participants;
    var ranked: seq<Ranked> := [];
    var seen: set<Id> := {};
    NothingRanked();
    for i := 0 to |xs|
      invariant ranked == SortRanked(Performances(noise, request)[..i])
      invariant seen == set j | 0 <= j < i :: xs[j].0
      invariant forall j :: 0 <= j < i ==> xs[j].0 != 0
      invariant forall j, k :: 0 <= j < k < i ==> xs[j].0 != xs[k].0
    {
      if xs[i].0 == 0 || xs[i].0 in seen {
        return Err(InvalidInput);
      }
      seen := seen + {xs[i].0};
      var entry := Ranked(xs[i].0, xs[i].1 + noise(request.roomId, request.deckId, xs[i].0));
      OneMoreRanked(Performances(noise, request), i);
      ranked := InsertRanked(ranked, entry);
    }
    assert Performances(noise, request)[..|xs|] == Performances(noise, request);
    var result := MatchResult(request.eventId, request.roomId, p.modeId, request.deckId, request.scoringRulesVersion,
                              request.finishedAt, request.availableAt, PlaceAll(ranked));
    var valid := result.Valid();
    r := if valid then Ok(result) else Err(InvalidInput);
  }

  lemma NothingRanked()
    ensures SortRanked([]) == []
  {
  }

  lemma OneMoreRanked(xs: seq<Ranked>, i: nat)
    requires i < |xs|
    ensures SortRanked(xs[..i + 1]) == InsertRanked(SortRanked(xs[..i]), xs[i])
  {
    assert xs[..i + 1][..i] == xs[..i];
    hide InsertRanked;
  }

  /** Places follow performance. */
  lemma PlacesFollowPerformance(ps: seq<Partition>, noise: Noise, request: OutcomeRequest, i: nat, j: nat)
    requires Generated(ps, noise, request).Ok? && i < j < |request.participants|
    ensures var result, ranked := Generated(ps, noise, request).value, SortRanked(Performances(noise, request));
      && |result.participants| == |ranked| == |request.participants|
      && multiset(ranked) == multiset(Performances(noise, request))
      && result.participants[i] == ParticipantResult(ranked[i].playerId, i + 1, NO_FEATURES)
      && ranked[i].performance >= ranked[j].performance
  {
    hide MatchResult.Valid;
    SortOrders(Performances(noise, request));
    SortKeeps(Performances(noise, request));
    hide SortRanked;
  }

  /** What decides: with the same noise the more skilled player gets the better place. */
  lemma SkillDecides(ps: seq<Partition>, noise: Noise, request: OutcomeRequest, a: nat, b: nat, i: nat, j: nat)
    requires Generated(ps, noise, request).Ok?
    requires a < |request.participants| && b < |request.participants|
    requires noise(request.roomId, request.deckId, request.participants[a].0)
      == noise(request.roomId, request.deckId, request.participants[b].0)
    requires request.participants[a].1 > request.participants[b].1
    requires i < |Generated(ps, noise, request).value.participants|
      && j < |Generated(ps, noise, request).value.participants|
    requires Generated(ps, noise, request).value.participants[i].playerId == request.participants[a].0
    requires Generated(ps, noise, request).value.participants[j].playerId == request.participants[b].0
    ensures Generated(ps, noise, request).value.participants[i].place
      < Generated(ps, noise, request).value.participants[j].place
  {
    hide MatchResult.Valid, SortRanked;
    var performances := Performances(noise, request);
    var ranked := SortRanked(performances);
    SortOrders(performances);
    SortKeeps(performances);
    RankedIs(performances, ranked, i, a);
    RankedIs(performances, ranked, j, b);
  }

  /** The result of a room: it ends the result delay after the fill, becomes available
      the availability delay later, and is decided by the arrivals' latent skills. */
  lemma RoomResult(
    ps: seq<Partition>, noise: Noise, config: RunConfig, room: SimulatedRoom, at: Time, a: nat, b: nat, i: nat, j: nat)
    requires Generated(ps, noise, OutcomeRequestOf(config, room, at)).Ok?
    ensures var result := Generated(ps, noise, OutcomeRequestOf(config, room, at)).value;
      && result.finishedAt == at + config.resultDelay
      && result.availableAt == at + config.resultDelay + config.availabilityDelay
      && result.roomId == room.view.roomId && result.scoringRulesVersion == config.scoringRulesVersion
      && |result.participants| == |room.arrivals|
      && (a < |room.arrivals| && b < |room.arrivals| && i < |result.participants| && j < |result.participants|
          && result.participants[i].playerId == room.arrivals[a].playerId
          && result.participants[j].playerId == room.arrivals[b].playerId
          && room.arrivals[a].latentSkill > room.arrivals[b].latentSkill
          && noise(room.view.roomId, result.deckId, room.arrivals[a].playerId)
            == noise(room.view.roomId, result.deckId, room.arrivals[b].playerId)
          ==> result.participants[i].place < result.participants[j].place)
  {
    hide MatchResult.Valid, SortRanked;
    var request := OutcomeRequestOf(config, room, at);
    var result := Generated(ps, noise, request).value;
    if a < |room.arrivals| && b < |room.arrivals| && i < |result.participants| && j < |result.participants|
       && result.participants[i].playerId == room.arrivals[a].playerId
       && result.participants[j].playerId == room.arrivals[b].playerId
       && room.arrivals[a].latentSkill > room.arrivals[b].latentSkill
       && noise(room.view.roomId, result.deckId, room.arrivals[a].playerId)
          == noise(room.view.roomId, result.deckId, room.arrivals[b].playerId) {
      SkillDecides(ps, noise, request, a, b, i, j);
    }
  }

  lemma RankedIs(performances: seq<Ranked>, ranked: seq<Ranked>, i: nat, a: nat)
    requires multiset(ranked) == multiset(performances) && i < |ranked| && a < |performances|
    requires forall k, l :: 0 <= k < l < |performances| ==> performances[k].playerId != performances[l].playerId
    requires ranked[i].playerId == performances[a].playerId
    ensures ranked[i] == performances[a]
  {
    assert ranked[i] in multiset(ranked);
    assert ranked[i] in performances;
    var k :| 0 <= k < |performances| && performances[k] == ranked[i];
  }

  // ---------------------------------------------------------------------
  // The generator answers every full room of a run
  // ---------------------------------------------------------------------

  ghost function AsOutcomes(ps: seq<Partition>, noise: Noise): Outcomes {
    request => Generated(ps, noise, request)
  }

  lemma {:induction false} PartitionFound(ps: seq<Partition>, p: Partition)
    requires p in ps && forall i, j :: 0 <= i < j < |ps| ==> ps[i].id != ps[j].id
    ensures PartitionFor(ps, p.id) == Some(p)
  {
    var k :| 0 <= k < |ps| && ps[k] == p;
    if ps[0] != p {
      assert ps[1..][k - 1] == p;
      PartitionFound(ps[1..], p);
    }
  }

  lemma RankedPlayers(xs: seq<Ranked>, i: nat)
    requires i < |xs|
    ensures exists j :: 0 <= j < |xs| && SortRanked(xs)[j].playerId == xs[i].playerId
  {
    SortKeeps(xs);
    hide SortRanked;
    assert xs[i] in multiset(SortRanked(xs));
    assert xs[i] in SortRanked(xs);
    var j :| 0 <= j < |SortRanked(xs)| && SortRanked(xs)[j] == xs[i];
  }

  ghost predicate DistinctRanked(xs: seq<Ranked>) {
    forall i, j :: 0 <= i < j < |xs| ==> xs[i].playerId != xs[j].playerId
  }

  lemma {:induction false} InsertDistinct(ranked: seq<Ranked>, x: Ranked)
    requires DistinctRanked(ranked) && forall y :: y in ranked ==> y.playerId != x.playerId
    ensures DistinctRanked(InsertRanked(ranked, x))
  {
    if ranked != [] && !Ahead(x, ranked[0]) {
      var rest := InsertRanked(ranked[1..], x);
      InsertDistinct(ranked[1..], x);
      InsertKeeps(ranked[1..], x);
      forall j | 0 <= j < |rest| ensures rest[j].playerId != ranked[0].playerId {
        assert rest[j] in multiset(rest);
        if rest[j] != x {
          assert rest[j] in ranked[1..];
          var k :| 0 <= k < |ranked[1..]| && ranked[1..][k] == rest[j];
          assert ranked[k + 1] == rest[j];
        }
      }
    }
  }

  lemma {:induction false} SortDistinct(xs: seq<Ranked>)
    requires DistinctRanked(xs)
    ensures DistinctRanked(SortRanked(xs))
    ensures forall y :: y in SortRanked(xs) <==> y in xs
  {
    if xs != [] {
      var front, last := xs[..|xs| - 1], xs[|xs| - 1];
      SortDistinct(front);
      assert xs == front + [last];
      InsertDistinct(SortRanked(front), last);
      InsertKeeps(SortRanked(front), last);
      forall y ensures y in SortRanked(xs) <==> y in xs {
        assert y in SortRanked(xs) <==> y in multiset(SortRanked(xs));
        assert y in SortRanked(front) <==> y in multiset(SortRanked(front));
      }
    }
  }

  lemma ResultIsValid(noise: Noise, p: Partition, request: OutcomeRequest)
    requires RequestValid(p, request) && MIN_ROOM_SIZE <= p.capacity <= MAX_ROOM_SIZE && p.modeId != 0
    requires request.eventId != 0 && request.roomId != 0 && request.deckId != 0 && request.scoringRulesVersion != 0
    requires request.finishedAt != 0 && request.availableAt != 0 && request.finishedAt <= request.availableAt
    ensures ResultFor(noise, p, request).Valid()
  {
    var xs := Performances(noise, request);
    SortDistinct(xs);
    hide SortRanked;
    var ranked, result := SortRanked(xs), ResultFor(noise, p, request);
    forall i | 0 <= i < |ranked| ensures ranked[i].playerId != 0 {
      assert ranked[i] in xs;
    }
    assert result.participants[0] in result.participants;
    forall q | q in result.participants ensures q.playerId != 0 && 1 <= q.place <= |ranked| && q.features.Valid() {
      var i :| 0 <= i < |ranked| && result.participants[i] == q;
    }
  }

  /** The generator decides every full room of a valid workload, with a result of
      exactly that room. */
  lemma GeneratorAnswers(w: Workload, config: RunConfig, noise: Noise)
    requires config.Valid() && WorkloadValid(w, config.policy.ratingModelVersion)
    ensures OutcomesAnswer(AsOutcomes(w.config.partitions, noise), w, config)
  {
    hide WorkloadValid, RunConfig.Valid, Askable, Answers, Generated, OutcomeRequestOf;
    forall room: SimulatedRoom, at: Time | Askable(w, config, room, at)
      ensures Generated(w.config.partitions, noise, OutcomeRequestOf(config, room, at)).Ok?
      ensures Answers(config, room, at, Generated(w.config.partitions, noise, OutcomeRequestOf(config, room, at)).value)
    {
      RoomAnswered(w, config, noise, room, at);
    }
  }

  lemma RoomAnswered(w: Workload, config: RunConfig, noise: Noise, room: SimulatedRoom, at: Time)
    requires config.Valid() && WorkloadValid(w, config.policy.ratingModelVersion) && Askable(w, config, room, at)
    ensures Generated(w.config.partitions, noise, OutcomeRequestOf(config, room, at)).Ok?
    ensures Answers(config, room, at, Generated(w.config.partitions, noise, OutcomeRequestOf(config, room, at)).value)
  {
    hide ArrivalValid, SortRanked, MatchResult.Valid;
    var request := OutcomeRequestOf(config, room, at);
    var p :| p in w.config.partitions && p.id == room.partitionId
      && p.modeId == room.view.modeId && p.capacity == room.view.capacity;
    var k :| 0 <= k < |w.config.partitions| && w.config.partitions[k] == p;
    PartitionFound(w.config.partitions, p);
    ResultIsValid(noise, p, request);
    var result := ResultFor(noise, p, request);
    forall i | 0 <= i < |room.arrivals| ensures HasResult(result, room.arrivals[i].playerId) {
      RankedPlayers(Performances(noise, request), i);
      var j :| 0 <= j < |request.participants|
        && SortRanked(Performances(noise, request))[j].playerId == Performances(noise, request)[i].playerId;
      assert result.participants[j].playerId == room.arrivals[i].playerId;
    }
  }
}

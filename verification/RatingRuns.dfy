/** Whole runs of the rating queue. */
module RatingRuns {
  import opened Common
  import opened RatingTypes
  import opened Canonical
  import opened BaselineModel
  import opened BaselineUpdate
  import opened RatingQueue

  datatype Step =
    | StoreResult(row: ResultRow)
    | Claim(eventId: Id, token: Id, now: Time, until: Time)
    | Run(eventId: Id, token: Id, at: Time, clock: Time)
    | Postpone(eventId: Id, token: Id, retryAt: Time, clock: Time)

  const START := Store(map[], map[], [], {})

  ghost predicate Enabled(s: Store, step: Step) {
    match step
    case StoreResult(row) =>
      && row.result.eventId !in s.results && row.result.Valid()
      && row.lease.None? && row.attempts == 0 && row.processedAt.None?
    case Claim(e, _, _, _) => IsHead(s.results, e)
    case Run(_, _, _, _) => true
    case Postpone(_, _, _, _) => true
  }

  ghost function Apply(models: Models, s: Store, step: Step): Store
    requires ModelsValid(models) && Enabled(s, step)
  {
    match step
    case StoreResult(row) => s.(results := s.results[row.result.eventId := row])
    case Claim(e, token, now, until) => ClaimHead(s, e, token, now, until)
    case Run(e, token, at, clock) => Process(models, s, e, token, at, clock).store
    case Postpone(e, token, retryAt, clock) => Retry(s, e, token, retryAt, clock).store
  }

  ghost predicate CanRun(models: Models, s: Store, steps: seq<Step>)
    requires ModelsValid(models)
    decreases |steps|
  {
    steps == [] || (Enabled(s, steps[0]) && CanRun(models, Apply(models, s, steps[0]), steps[1..]))
  }

  ghost function After(models: Models, s: Store, steps: seq<Step>): Store
    requires ModelsValid(models) && CanRun(models, s, steps)
    decreases |steps|
  {
    if steps == [] then s else After(models, Apply(models, s, steps[0]), steps[1..])
  }

  // ---------------------------------------------------------------------
  // One player's history
  // ---------------------------------------------------------------------

  /** The history of one player under one model, in the order it was written. */
  ghost function Of(history: seq<HistoryRow>, key: RatingKey): seq<HistoryRow>
    decreases |history|
  {
    if history == [] then []
    else
      var last := history[|history| - 1];
      var before := Of(history[..|history| - 1], key);
      if last.key == key then before + [last] else before
  }

  lemma OfAppend(history: seq<HistoryRow>, row: HistoryRow, key: RatingKey)
    ensures Of(history + [row], key) == Of(history, key) + (if row.key == key then [row] else [])
  {
    assert (history + [row])[..|history|] == history;
  }

  /** Every rating starts where the one before it ended, and counts one more game. */
  ghost predicate IsChain(rows: seq<HistoryRow>) {
    && (forall i :: 0 <= i < |rows| ==> rows[i].after.games == rows[i].before.games + 1)
    && (forall i :: 0 < i < |rows| ==> rows[i].before == rows[i - 1].after)
  }

  lemma {:induction false} ChainGames(rows: seq<HistoryRow>)
    requires IsChain(rows) && rows != []
    ensures rows[|rows| - 1].after.games == rows[0].before.games + |rows|
  {
    if |rows| > 1 {
      var shorter := rows[..|rows| - 1];
      assert IsChain(shorter);
      ChainGames(shorter);
    }
  }

  /** The current rating is the end of its history. */
  ghost predicate CurrentIsLast(s: Store, key: RatingKey) {
    var rows := Of(s.history, key);
    && IsChain(rows)
    && (key in s.ratings <==> rows != [])
    && (key in s.ratings ==>
      && s.ratings[key].estimate == rows[|rows| - 1].after
      && s.ratings[key].revision == |rows|)
  }

  ghost predicate ChainsOk(s: Store) {
    forall key :: CurrentIsLast(s, key)
  }

  lemma PersistKeepsChains(s: Store, modeId: Id, u: RatingUpdate)
    requires ChainsOk(s) && u.after.games == u.before.games + 1
    requires var key := RatingKey(u.playerId, modeId, u.modelVersion);
      key in s.ratings ==> s.ratings[key].estimate == u.before
    ensures ChainsOk(Persist(s, modeId, u))
  {
    var after := Persist(s, modeId, u);
    var key := RatingKey(u.playerId, modeId, u.modelVersion);
    var row := after.history[|s.history|];
    forall other ensures CurrentIsLast(after, other) {
      assert CurrentIsLast(s, other);
      OfAppend(s.history, row, other);
      hide Of;
    }
  }

  /** Each update starts from the current rating of its player. */
  ghost predicate StartsFromCurrent(s: Store, modeId: Id, u: RatingUpdate) {
    var key := RatingKey(u.playerId, modeId, u.modelVersion);
    u.after.games == u.before.games + 1 && (key in s.ratings ==> s.ratings[key].estimate == u.before)
  }

  lemma {:induction false} PersistAllKeepsChains(s: Store, modeId: Id, updates: seq<RatingUpdate>)
    requires ChainsOk(s) && DistinctUpdates(updates)
    requires forall u :: u in updates ==> StartsFromCurrent(s, modeId, u)
    ensures ChainsOk(PersistAll(s, modeId, updates))
    decreases |updates|
  {
    hide ChainsOk;
    if updates != [] {
      assert updates[0] in updates;
      PersistKeepsChains(s, modeId, updates[0]);
      var next := Persist(s, modeId, updates[0]);
      forall u | u in updates[1..] ensures StartsFromCurrent(next, modeId, u) {
        var i :| 0 <= i < |updates[1..]| && updates[1..][i] == u;
        assert updates[i + 1] == u && u in updates;
        assert updates[0].playerId != updates[i + 1].playerId;
      }
      PersistAllKeepsChains(next, modeId, updates[1..]);
    }
  }

  // ---------------------------------------------------------------------
  // Exactly once
  // ---------------------------------------------------------------------

  /** The players of an event have exactly one history row each once it is rated,
      and none before. */
  ghost predicate HistoryExact(s: Store) {
    && (forall i :: 0 <= i < |s.history| ==> s.history[i].sourceEventId in s.rated)
    && (forall i, j :: 0 <= i < j < |s.history| ==>
      s.history[i].sourceEventId != s.history[j].sourceEventId
        || s.history[i].key.playerId != s.history[j].key.playerId)
    && (forall e :: e in s.rated <==> e in s.results && s.results[e].processedAt.Some?)
    && (forall e :: e in s.results ==> s.results[e].result.eventId == e && s.results[e].result.Valid())
  }

  ghost predicate EveryoneRated(s: Store) {
    forall e :: e in s.rated && e in s.results ==>
      forall p :: p in s.results[e].result.participants ==> HasRow(s.history, e, p.playerId)
  }

  ghost predicate HasRow(history: seq<HistoryRow>, e: Id, playerId: Id) {
    exists i :: 0 <= i < |history| && history[i].sourceEventId == e && history[i].key.playerId == playerId
  }

  /** What the loop over the updates appends. */
  lemma {:induction false} PersistAllAppends(s: Store, modeId: Id, updates: seq<RatingUpdate>)
    ensures var after := PersistAll(s, modeId, updates);
      && |after.history| == |s.history| + |updates|
      && (forall i :: 0 <= i < |s.history| ==> after.history[i] == s.history[i])
      && (forall i :: 0 <= i < |updates| ==>
        && after.history[|s.history| + i].sourceEventId == updates[i].sourceEventId
        && after.history[|s.history| + i].key.playerId == updates[i].playerId)
      && after.results == s.results && after.rated == s.rated
    decreases |updates|
  {
    if updates != [] {
      PersistAllAppends(Persist(s, modeId, updates[0]), modeId, updates[1..]);
    }
  }

  lemma AppendKeepsExact(s: Store, history: seq<HistoryRow>, e: Id, n: nat, at: Time, after: Store)
    requires HistoryExact(s) && e in s.results && e !in s.rated && n <= |history|
    requires |s.history| == n && forall i :: 0 <= i < n ==> history[i] == s.history[i]
    requires forall i :: n <= i < |history| ==> history[i].sourceEventId == e
    requires forall i, j :: n <= i < j < |history| ==> history[i].key.playerId != history[j].key.playerId
    requires after.history == history && after.rated == s.rated + {e}
    requires after.results == s.results[e := s.results[e].(processedAt := Some(at), lease := None)]
    ensures HistoryExact(after)
  {
  }

  lemma AppendKeepsEveryone(s: Store, e: Id, after: Store)
    requires EveryoneRated(s) && e in s.results && after.rated == s.rated + {e}
    requires |s.history| <= |after.history| && forall i :: 0 <= i < |s.history| ==> after.history[i] == s.history[i]
    requires forall o :: o in after.results && o != e ==>
      o in s.results && after.results[o].result == s.results[o].result
    requires e in after.results && forall p :: p in after.results[e].result.participants ==>
      HasRow(after.history, e, p.playerId)
    ensures EveryoneRated(after)
  {
    forall o, p: ParticipantResult |
      o in after.rated && o in after.results && p in after.results[o].result.participants
      ensures HasRow(after.history, o, p.playerId)
    {
      if o != e {
        assert HasRow(s.history, o, p.playerId);
        var i :| 0 <= i < |s.history| && s.history[i].sourceEventId == o && s.history[i].key.playerId == p.playerId;
        assert after.history[i] == s.history[i];
      }
    }
  }

  // ---------------------------------------------------------------------
  // What one rating writes
  // ---------------------------------------------------------------------

  /** The updates of a result: one per participant, each from the rating that the
      participant brought, each counting one game. */
  ghost predicate CoverResult(
      result: MatchResult, version: Id, estimates: map<Id, Estimate>, updates: seq<RatingUpdate>) {
    && DistinctUpdates(updates)
    && (forall i :: 0 <= i < |updates| ==>
      && updates[i].sourceEventId == result.eventId && updates[i].modelVersion == version
      && updates[i].playerId in estimates && updates[i].before == estimates[updates[i].playerId]
      && updates[i].after.games == updates[i].before.games + 1)
    && (forall p :: p in result.participants ==> exists i :: 0 <= i < |updates| && updates[i].playerId == p.playerId)
  }

  /** One update, field by field. */
  lemma UpdateShape(
    model: Baseline, eventId: Id, sorted: seq<ParticipantResult>, estimates: map<Id, Estimate>, at: Time, i: nat)
    requires model.Valid() && i < |sorted|
    requires forall p :: p in sorted ==> BaselineUpdate.Rated(model, estimates, p.playerId)
    ensures var updates := UpdatesOf(model, eventId, RoomOf(model, sorted, estimates), at);
      && |updates| == |sorted|
      && updates[i].playerId == sorted[i].playerId && updates[i].sourceEventId == eventId
      && updates[i].modelVersion == model.config.version
      && updates[i].playerId in estimates && updates[i].before == estimates[updates[i].playerId]
      && updates[i].after.games == updates[i].before.games + 1
  {
    hide Gradient, Information, PosteriorVariance, Baseline.Valid;
    assert BaselineUpdate.Rated(model, estimates, sorted[i].playerId);
  }

  lemma EveryoneSorted(result: MatchResult, p: ParticipantResult) returns (i: nat)
    requires result.Valid() && p in result.participants
    ensures i < |SortBy(ByPlayer, result.participants)| && SortBy(ByPlayer, result.participants)[i] == p
  {
    SortByLaws(ByPlayer, result.participants);
    hide AscendingBy, MatchResult.Valid;
    var sorted := SortBy(ByPlayer, result.participants);
    assert p in sorted;
    i :| i < |sorted| && sorted[i] == p;
  }

  lemma UpdatedShape(model: Baseline, result: MatchResult, estimates: map<Id, Estimate>, at: Time)
    requires model.Valid() && Updated(model, result, estimates, at).Ok?
    ensures Updatable(model, result, estimates, at) && result.Valid()
    ensures var sorted := SortBy(ByPlayer, result.participants);
      && (forall p :: p in sorted ==> BaselineUpdate.Rated(model, estimates, p.playerId))
      && Updated(model, result, estimates, at).value
        == UpdatesOf(model, result.eventId, RoomOf(model, sorted, estimates), at)
      && |Updated(model, result, estimates, at).value| == |sorted|
  {
    hide UpdatesOf, RoomOf, BaselineUpdate.Rated, MatchResult.Valid, Baseline.Valid;
  }

  lemma UpdatesCover(model: Baseline, result: MatchResult, estimates: map<Id, Estimate>, at: Time)
    requires model.Valid() && Updated(model, result, estimates, at).Ok?
    ensures CoverResult(result, model.config.version, estimates, Updated(model, result, estimates, at).value)
  {
    hide Updated, Updatable, UpdatesOf, RoomOf, SortBy, DistinctUpdates, BaselineUpdate.Rated, MatchResult.Valid,
         Baseline.Valid;
    UpdatedShape(model, result, estimates, at);
    UpdatesFit(model, result, estimates, at);
    var sorted, updates := SortBy(ByPlayer, result.participants), Updated(model, result, estimates, at).value;
    forall i | 0 <= i < |updates|
      ensures updates[i].playerId == sorted[i].playerId && updates[i].sourceEventId == result.eventId
      ensures updates[i].modelVersion == model.config.version
      ensures updates[i].playerId in estimates && updates[i].before == estimates[updates[i].playerId]
      ensures updates[i].after.games == updates[i].before.games + 1
    {
      UpdateShape(model, result.eventId, sorted, estimates, at, i);
    }
    forall p | p in result.participants
      ensures exists i :: 0 <= i < |updates| && updates[i].playerId == p.playerId
    {
      var i := EveryoneSorted(result, p);
      UpdateShape(model, result.eventId, sorted, estimates, at, i);
    }
  }

  lemma BroughtIsCurrent(s: Store, row: ResultRow, p: Id)
    requires p in BroughtRatings(s, row)
    ensures var key := RatingKey(p, row.result.modeId, row.modelVersion);
      key in s.ratings ==> s.ratings[key].estimate == BroughtRatings(s, row)[p]
  {
  }

  lemma CoveredStartFromCurrent(s: Store, row: ResultRow, updates: seq<RatingUpdate>)
    requires CoverResult(row.result, row.modelVersion, BroughtRatings(s, row), updates)
    ensures forall u :: u in updates ==> StartsFromCurrent(s, row.result.modeId, u)
  {
    hide BroughtRatings, DistinctUpdates;
    forall u | u in updates ensures StartsFromCurrent(s, row.result.modeId, u) {
      var i :| 0 <= i < |updates| && updates[i] == u;
      BroughtIsCurrent(s, row, updates[i].playerId);
    }
  }

  ghost predicate Inv(s: Store) {
    ChainsOk(s) && HistoryExact(s) && EveryoneRated(s)
  }

  /** A transaction that rates a result, in terms of its updates. */
  lemma RatedShape(
      models: Models, s: Store, e: Id, token: Id, at: Time, clock: Time) returns (updates: seq<RatingUpdate>)
    requires ModelsValid(models) && Process(models, s, e, token, at, clock).outcome.Rated?
    ensures Owns(s.results, e, token, clock) && e !in s.rated
    ensures CoverResult(s.results[e].result, s.results[e].modelVersion, BroughtRatings(s, s.results[e]), updates)
    ensures Process(models, s, e, token, at, clock).store
      == Finish(PersistAll(s, s.results[e].result.modeId, updates), e, at)
  {
    hide Updated, BroughtRatings, PersistAll, Finish, CoverResult, Baseline.Valid;
    var row := s.results[e];
    updates := Updated(models(row.modelVersion), row.result, BroughtRatings(s, row), at).value;
    UpdatesCover(models(row.modelVersion), row.result, BroughtRatings(s, row), at);
  }

  lemma NotRatedNothing(models: Models, s: Store, e: Id, token: Id, at: Time, clock: Time)
    requires ModelsValid(models) && !Process(models, s, e, token, at, clock).outcome.Rated?
    ensures Process(models, s, e, token, at, clock).store == s
  {
    hide Updated, BroughtRatings, PersistAll, Finish;
  }

  lemma RatedKeepsInv(s: Store, e: Id, updates: seq<RatingUpdate>, at: Time)
    requires Inv(s) && Unrated(s.results, e) && e !in s.rated
    requires CoverResult(s.results[e].result, s.results[e].modelVersion, BroughtRatings(s, s.results[e]), updates)
    ensures Inv(Finish(PersistAll(s, s.results[e].result.modeId, updates), e, at))
  {
    hide ChainsOk, HistoryExact, EveryoneRated, BroughtRatings, PersistAll, StartsFromCurrent, CoverResult;
    var row := s.results[e];
    var persisted := PersistAll(s, row.result.modeId, updates);
    CoveredStartFromCurrent(s, row, updates);
    CoverParts(row.result, row.modelVersion, BroughtRatings(s, row), updates);
    PersistAllKeepsChains(s, row.result.modeId, updates);
    PersistAllAppends(s, row.result.modeId, updates);
    EventKnown(s, e);
    RatedRecords(s, e, updates, at, persisted);
    ChainsFollow(persisted, Finish(persisted, e, at));
  }

  lemma CoverParts(result: MatchResult, version: Id, estimates: map<Id, Estimate>, updates: seq<RatingUpdate>)
    requires CoverResult(result, version, estimates, updates)
    ensures DistinctUpdates(updates)
    ensures forall i :: 0 <= i < |updates| ==> updates[i].sourceEventId == result.eventId
    ensures forall p :: p in result.participants ==> exists i :: 0 <= i < |updates| && updates[i].playerId == p.playerId
  {
    hide DistinctUpdates;
  }

  lemma EventKnown(s: Store, e: Id)
    requires HistoryExact(s) && e in s.results
    ensures s.results[e].result.eventId == e
  {
  }

  lemma ChainsFollow(s: Store, after: Store)
    requires ChainsOk(s) && after.history == s.history && after.ratings == s.ratings
    ensures ChainsOk(after)
  {
    hide Of, IsChain;
    forall key ensures CurrentIsLast(after, key) {
      assert CurrentIsLast(s, key);
    }
  }

  lemma RatedRecords(s: Store, e: Id, updates: seq<RatingUpdate>, at: Time, persisted: Store)
    requires HistoryExact(s) && EveryoneRated(s) && e in s.results && e !in s.rated && s.results[e].result.eventId == e
    requires DistinctUpdates(updates)
    requires forall i :: 0 <= i < |updates| ==> updates[i].sourceEventId == e
    requires forall p :: p in s.results[e].result.participants ==>
      exists i :: 0 <= i < |updates| && updates[i].playerId == p.playerId
    requires |persisted.history| == |s.history| + |updates|
    requires forall i :: 0 <= i < |s.history| ==> persisted.history[i] == s.history[i]
    requires forall i :: 0 <= i < |updates| ==>
      && persisted.history[|s.history| + i].sourceEventId == updates[i].sourceEventId
      && persisted.history[|s.history| + i].key.playerId == updates[i].playerId
    requires persisted.results == s.results && persisted.rated == s.rated
    ensures HistoryExact(Finish(persisted, e, at)) && EveryoneRated(Finish(persisted, e, at))
  {
    hide HistoryExact, EveryoneRated;
    var after, n := Finish(persisted, e, at), |s.history|;
    forall i | n <= i < |persisted.history|
      ensures persisted.history[i].sourceEventId == e
      ensures persisted.history[i].key.playerId == updates[i - n].playerId
    {
      var k := i - n;
      assert persisted.history[n + k].sourceEventId == updates[k].sourceEventId;
      assert persisted.history[n + k].key.playerId == updates[k].playerId;
    }
    AppendKeepsExact(s, persisted.history, e, n, at, after);
    forall p | p in after.results[e].result.participants ensures HasRow(after.history, e, p.playerId) {
      var i :| 0 <= i < |updates| && updates[i].playerId == p.playerId;
      assert after.history[n + i].sourceEventId == e;
    }
    AppendKeepsEveryone(s, e, after);
  }

  // ---------------------------------------------------------------------
  // Runs
  // ---------------------------------------------------------------------

  lemma ScheduleKeepsExact(s: Store, e: Id, row: ResultRow)
    requires HistoryExact(s) && e in s.results
    requires row.result == s.results[e].result && row.processedAt == s.results[e].processedAt
    ensures HistoryExact(s.(results := s.results[e := row]))
  {
    hide MatchResult.Valid;
  }

  lemma ScheduleKeepsEveryone(s: Store, e: Id, row: ResultRow)
    requires EveryoneRated(s) && e in s.results && row.result == s.results[e].result
    ensures EveryoneRated(s.(results := s.results[e := row]))
  {
    hide HasRow;
  }

  /** Only schedules and leases move. */
  lemma ScheduleKeepsInv(s: Store, e: Id, row: ResultRow)
    requires Inv(s) && e in s.results && row.result == s.results[e].result
      && row.processedAt == s.results[e].processedAt
    ensures Inv(s.(results := s.results[e := row]))
  {
    hide ChainsOk, HistoryExact, EveryoneRated;
    ChainsFollow(s, s.(results := s.results[e := row]));
    ScheduleKeepsExact(s, e, row);
    ScheduleKeepsEveryone(s, e, row);
  }

  lemma StoreKeepsInv(s: Store, row: ResultRow)
    requires Inv(s) && Enabled(s, StoreResult(row))
    ensures Inv(s.(results := s.results[row.result.eventId := row]))
  {
    hide ChainsOk, HasRow, MatchResult.Valid;
    ChainsFollow(s, s.(results := s.results[row.result.eventId := row]));
  }

  lemma StepKeepsInv(models: Models, s: Store, step: Step)
    requires ModelsValid(models) && Inv(s) && Enabled(s, step)
    ensures Inv(Apply(models, s, step))
  {
    hide Inv, Process, Baseline.Valid, IsHead;
    match step
    case StoreResult(row) => StoreKeepsInv(s, row);
    case Claim(e, token, now, until) =>
      HeadStored(s.results, e);
      if ClaimHead(s, e, token, now, until) != s {
        ScheduleKeepsInv(s, e, ClaimHead(s, e, token, now, until).results[e]);
      }
    case Run(e, token, at, clock) =>
      if Process(models, s, e, token, at, clock).outcome.Rated? {
        var updates := RatedShape(models, s, e, token, at, clock);
        RatedKeepsInv(s, e, updates, at);
      } else {
        NotRatedNothing(models, s, e, token, at, clock);
      }
    case Postpone(e, token, retryAt, clock) =>
      if Retry(s, e, token, retryAt, clock).store != s {
        ScheduleKeepsInv(s, e, Retry(s, e, token, retryAt, clock).store.results[e]);
      }
  }

  lemma HeadStored(results: map<Id, ResultRow>, e: Id)
    requires IsHead(results, e)
    ensures e in results
  {
  }

  lemma {:induction false} RunKeepsInv(models: Models, s: Store, steps: seq<Step>)
    requires ModelsValid(models) && Inv(s) && CanRun(models, s, steps)
    ensures Inv(After(models, s, steps))
    decreases |steps|
  {
    hide Inv, Enabled, Apply, ModelsValid;
    if steps != [] {
      StepKeepsInv(models, s, steps[0]);
      RunKeepsInv(models, Apply(models, s, steps[0]), steps[1..]);
    }
  }

  lemma StartIsInv()
    ensures Inv(START)
  {
  }

  lemma Reachable(models: Models, steps: seq<Step>)
    requires ModelsValid(models) && CanRun(models, START, steps)
    ensures Inv(After(models, START, steps))
  {
    hide Inv, CanRun, After, ModelsValid;
    StartIsInv();
    RunKeepsInv(models, START, steps);
  }

  /** In every run each player's history under a model is a chain: every rating
      starts where the previous one ended, the current rating is the end of the
      last, the revision is the length of the chain, and the game count has grown
      by exactly that length. */
  lemma HistoryIsChain(models: Models, steps: seq<Step>, key: RatingKey)
    requires ModelsValid(models) && CanRun(models, START, steps)
    ensures var s := After(models, START, steps);
      var rows := Of(s.history, key);
      && IsChain(rows)
      && (key in s.ratings <==> rows != [])
      && (key in s.ratings ==>
        && s.ratings[key].estimate == rows[|rows| - 1].after
        && s.ratings[key].revision == |rows|
        && s.ratings[key].estimate.games == rows[0].before.games + |rows|)
  {
    hide CanRun, After, ModelsValid, HistoryExact, EveryoneRated, Of, IsChain;
    Reachable(models, steps);
    var s := After(models, START, steps);
    assert CurrentIsLast(s, key);
    if key in s.ratings {
      ChainGames(Of(s.history, key));
    }
  }

  /** In every run a stored result has a history row for each of its participants
      once it is processed and for nobody before, and never two for one player. */
  lemma RatedExactlyOnce(models: Models, steps: seq<Step>, e: Id, p: ParticipantResult)
    requires ModelsValid(models) && CanRun(models, START, steps)
    requires e in After(models, START, steps).results && p in After(models, START, steps).results[e].result.participants
    ensures var s := After(models, START, steps);
      && (HasRow(s.history, e, p.playerId) <==> s.results[e].processedAt.Some?)
      && (forall i, j :: 0 <= i < j < |s.history| && s.history[i].sourceEventId == e == s.history[j].sourceEventId ==>
        s.history[i].key.playerId != s.history[j].key.playerId)
  {
    hide CanRun, After, ModelsValid, ChainsOk;
    Reachable(models, steps);
  }

  lemma StepKeepsRated(models: Models, s: Store, step: Step, o: Id)
    requires ModelsValid(models) && Enabled(s, step) && o in s.rated
    ensures o in Apply(models, s, step).rated
  {
    hide ModelsValid, Process;
    if step.Run? {
      if Process(models, s, step.eventId, step.token, step.at, step.clock).outcome.Rated? {
        var updates := RatedShape(models, s, step.eventId, step.token, step.at, step.clock);
        PersistAllAppends(s, s.results[step.eventId].result.modeId, updates);
      } else {
        NotRatedNothing(models, s, step.eventId, step.token, step.at, step.clock);
      }
    }
  }

  // ---------------------------------------------------------------------
  // The order of ratings
  // ---------------------------------------------------------------------

  lemma {:induction false} LastStep(models: Models, s: Store, steps: seq<Step>)
    requires ModelsValid(models) && CanRun(models, s, steps) && steps != []
    ensures var front, last := steps[..|steps| - 1], steps[|steps| - 1];
      && CanRun(models, s, front)
      && Enabled(After(models, s, front), last)
      && After(models, s, steps) == Apply(models, After(models, s, front), last)
    decreases |steps|
  {
    hide ModelsValid, Enabled, Apply;
    var front := steps[..|steps| - 1];
    if |steps| > 1 {
      LastStep(models, Apply(models, s, steps[0]), steps[1..]);
      assert steps[1..][..|steps| - 2] == front[1..];
    }
  }

  /** Step `k` of the run claims the result under the token, and everything stored
      and sooner at that moment is among the rated. */
  ghost predicate ClaimedInOrder(models: Models, steps: seq<Step>, k: nat, e: Id, token: Id, rated: set<Id>)
    requires ModelsValid(models)
  {
    && k < |steps| && steps[k].Claim? && steps[k].eventId == e && steps[k].token == token
    && CanRun(models, START, steps[..k])
    && var atClaim := After(models, START, steps[..k]).results;
      && e in atClaim
      && forall o :: o in atClaim && Sooner(atClaim[o], atClaim[e]) ==> o in rated
  }

  ghost predicate LeasedTo(s: Store, e: Id, token: Id) {
    e in s.results && s.results[e].lease.Some? && s.results[e].lease.value.token == token
  }

  lemma ClaimIsInOrder(s: Store, e: Id)
    requires HistoryExact(s) && IsHead(s.results, e)
    ensures e in s.results && forall o :: o in s.results && Sooner(s.results[o], s.results[e]) ==> o in s.rated
  {
  }

  /** A lease changes hands only through a claim. */
  lemma LeaseComesFromClaim(models: Models, s: Store, step: Step, e: Id, token: Id)
    requires ModelsValid(models) && Enabled(s, step) && LeasedTo(Apply(models, s, step), e, token)
    ensures LeasedTo(s, e, token) || (step.Claim? && step.eventId == e && step.token == token)
  {
    hide ModelsValid, Process, IsHead;
    if step.Run? {
      if Process(models, s, step.eventId, step.token, step.at, step.clock).outcome.Rated? {
        var updates := RatedShape(models, s, step.eventId, step.token, step.at, step.clock);
        PersistAllAppends(s, s.results[step.eventId].result.modeId, updates);
      } else {
        NotRatedNothing(models, s, step.eventId, step.token, step.at, step.clock);
      }
    }
  }

  lemma {:induction false} LeaseHasOrderedClaim(models: Models, steps: seq<Step>, e: Id, token: Id)
    requires ModelsValid(models) && CanRun(models, START, steps) && LeasedTo(After(models, START, steps), e, token)
    ensures exists k: nat :: ClaimedInOrder(models, steps, k, e, token, After(models, START, steps).rated)
    decreases |steps|
  {
    hide ModelsValid, CanRun, After, Apply, LeasedTo, Inv, Enabled, ClaimedInOrder;
    RunStarts(models, steps, e, token);
    LastStep(models, START, steps);
    var front, last := steps[..|steps| - 1], steps[|steps| - 1];
    var s := After(models, START, front);
    Reachable(models, front);
    LeaseComesFromClaim(models, s, last, e, token);
    forall o | o in s.rated ensures o in Apply(models, s, last).rated {
      StepKeepsRated(models, s, last, o);
    }
    if LeasedTo(s, e, token) {
      LeaseHasOrderedClaim(models, front, e, token);
      var k: nat :| ClaimedInOrder(models, front, k, e, token, s.rated);
      LongerRun(models, steps, k, e, token, s.rated, Apply(models, s, last).rated);
    } else {
      LastClaims(models, steps, e, token, Apply(models, s, last).rated);
    }
  }

  lemma RunStarts(models: Models, steps: seq<Step>, e: Id, token: Id)
    requires ModelsValid(models) && CanRun(models, START, steps) && LeasedTo(After(models, START, steps), e, token)
    ensures steps != []
  {
    hide ModelsValid, Enabled, Apply;
  }

  lemma LongerRun(models: Models, steps: seq<Step>, k: nat, e: Id, token: Id, rated: set<Id>, more: set<Id>)
    requires ModelsValid(models) && steps != [] && ClaimedInOrder(models, steps[..|steps| - 1], k, e, token, rated)
    requires forall o :: o in rated ==> o in more
    ensures ClaimedInOrder(models, steps, k, e, token, more)
  {
    hide ModelsValid, CanRun, After, Sooner;
    assert steps[..|steps| - 1][..k] == steps[..k];
  }

  lemma LastClaims(models: Models, steps: seq<Step>, e: Id, token: Id, rated: set<Id>)
    requires ModelsValid(models) && steps != [] && CanRun(models, START, steps[..|steps| - 1])
    requires var s, last := After(models, START, steps[..|steps| - 1]), steps[|steps| - 1];
      && Inv(s) && Enabled(s, last) && last.Claim? && last.eventId == e && last.token == token
      && forall o :: o in s.rated ==> o in rated
    ensures ClaimedInOrder(models, steps, |steps| - 1, e, token, rated)
  {
    hide ModelsValid, CanRun, After, Sooner, IsHead, ChainsOk, EveryoneRated, HistoryExact;
    ClaimIsInOrder(After(models, START, steps[..|steps| - 1]), e);
  }

  /** Whenever a run comes to rate a result, it claimed that result earlier under
      the same token, and everything that was stored and available sooner at that
      claim has been rated in the meantime or before. */
  lemma RatedInOrder(models: Models, steps: seq<Step>, e: Id, token: Id, at: Time, clock: Time)
    requires ModelsValid(models) && CanRun(models, START, steps)
    requires Process(models, After(models, START, steps), e, token, at, clock).outcome.Rated?
    ensures exists k: nat :: ClaimedInOrder(models, steps, k, e, token, After(models, START, steps).rated)
  {
    hide ModelsValid, CanRun, After, Process, ClaimedInOrder;
    var updates := RatedShape(models, After(models, START, steps), e, token, at, clock);
    LeaseHasOrderedClaim(models, steps, e, token);
  }
}

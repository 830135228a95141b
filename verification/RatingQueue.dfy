/** The rating queue: each stored result updates its players' ratings once, in
    the order of availability. */
module RatingQueue {
  import opened Common
  import opened RatingTypes
  import opened BaselineModel
  import opened BaselineUpdate

  datatype Lease = Lease(token: Id, until: Time)

  /** A stored result with its room's model version and the ratings its players
      held when they asked for the room. */
  datatype ResultRow = ResultRow(
    result: MatchResult,
    modelVersion: Id,
    snapshots: map<Id, Estimate>,
    nextAttemptAt: Time,
    lease: Option<Lease>,
    attempts: nat,
    processedAt: Option<Time>)

  datatype RatingKey = RatingKey(playerId: Id, modeId: Id, modelVersion: Id)

  datatype CurrentRating = CurrentRating(estimate: Estimate, revision: nat)

  /** One row of the append-only history. */
  datatype HistoryRow = HistoryRow(
      key: RatingKey, sourceEventId: Id, before: Estimate, after: Estimate, processedAt: Time)

  datatype Store = Store(
    results: map<Id, ResultRow>,
    ratings: map<RatingKey, CurrentRating>,
    history: seq<HistoryRow>,
    rated: set<Id>)

  datatype Outcome = Rated | ClaimLost | Refused | InvalidCall

  datatype Effect = Effect(store: Store, outcome: Outcome)

  /** The baseline of a model version. */
  type Models = Id -> Baseline

  ghost predicate ModelsValid(models: Models) {
    forall v :: models(v).Valid() && models(v).config.version == v
  }

  // ---------------------------------------------------------------------
  // Claims
  // ---------------------------------------------------------------------

  predicate Unrated(results: map<Id, ResultRow>, e: Id) {
    e in results && results[e].processedAt.None?
  }

  predicate Sooner(a: ResultRow, b: ResultRow) {
    || a.result.availableAt < b.result.availableAt
    || (a.result.availableAt == b.result.availableAt && a.result.eventId < b.result.eventId)
  }

  predicate IsHead(results: map<Id, ResultRow>, e: Id) {
    && Unrated(results, e)
    && forall o :: o in results && Unrated(results, o) ==> o == e || Sooner(results[e], results[o])
  }

  function ClaimHead(s: Store, e: Id, token: Id, now: Time, until: Time): Store
    requires e in s.results
  {
    var row := s.results[e];
    if row.nextAttemptAt > now || (row.lease.Some? && row.lease.value.until > now) then s
    else s.(results := s.results[e := row.(lease := Some(Lease(token, until)), attempts := row.attempts + 1)])
  }

  predicate Owns(results: map<Id, ResultRow>, e: Id, token: Id, clock: Time) {
    Unrated(results, e) && results[e].lease.Some? && results[e].lease.value.token == token
    && results[e].lease.value.until > clock
  }

  function Retry(s: Store, e: Id, token: Id, retryAt: Time, clock: Time): Effect {
    if e == 0 || token == 0 || retryAt == 0 then Effect(s, InvalidCall)
    else if !Owns(s.results, e, token, clock) then Effect(s, ClaimLost)
    else Effect(s.(results := s.results[e := s.results[e].(nextAttemptAt := retryAt, lease := None)]), Rated)
  }

  // ---------------------------------------------------------------------
  // Processing
  // ---------------------------------------------------------------------

  /** The rating a player brings to the result: the current one, or else the
      snapshot taken with the ticket. */
  function BroughtRatings(s: Store, row: ResultRow): map<Id, Estimate> {
    var result := row.result;
    map p | p in PlayerIds(result.participants)
      && (RatingKey(p, result.modeId, row.modelVersion) in s.ratings || p in row.snapshots) ::
      if RatingKey(p, result.modeId, row.modelVersion) in s.ratings
      then s.ratings[RatingKey(p, result.modeId, row.modelVersion)].estimate
      else row.snapshots[p]
  }

  function PlayerIds(participants: seq<ParticipantResult>): set<Id> {
    set p | p in participants :: p.playerId
  }

  function Persist(s: Store, modeId: Id, u: RatingUpdate): Store {
    var key := RatingKey(u.playerId, modeId, u.modelVersion);
    var revision := if key in s.ratings then s.ratings[key].revision + 1 else 1;
    s.(history := s.history + [HistoryRow(key, u.sourceEventId, u.before, u.after, u.processedAt)],
       ratings := s.ratings[key := CurrentRating(u.after, revision)])
  }

  function PersistAll(s: Store, modeId: Id, updates: seq<RatingUpdate>): Store
    decreases |updates|
  {
    if updates == [] then s else PersistAll(Persist(s, modeId, updates[0]), modeId, updates[1..])
  }

  function Finish(s: Store, e: Id, at: Time): Store {
    if e !in s.results then s
    else s.(results := s.results[e := s.results[e].(processedAt := Some(at), lease := None)], rated := s.rated + {e})
  }

  /** One transaction: the claim check, the update of every participant, the
      processed marker and the result's one event. */
  ghost function Process(models: Models, s: Store, e: Id, token: Id, at: Time, clock: Time): Effect
    requires ModelsValid(models)
  {
    if e == 0 || token == 0 || at == 0 then Effect(s, InvalidCall)
    else if !Owns(s.results, e, token, clock) then Effect(s, ClaimLost)
    else
      var row := s.results[e];
      var updates := Updated(models(row.modelVersion), row.result, BroughtRatings(s, row), at);
      if updates.Err? || e in s.rated then Effect(s, Refused)
      else Effect(Finish(PersistAll(s, row.result.modeId, updates.value), e, at), Rated)
  }

  // ---------------------------------------------------------------------
  // The queue
  // ---------------------------------------------------------------------

  class Queue {
    var store: Store

    constructor ()
      ensures store == Store(map[], map[], [], {})
    {
      store := Store(map[], map[], [], {});
    }

    method ClaimNextRatingResult(token: Id, now: Time, until: Time) returns (claimed: Option<Id>)
      requires token != 0 && now < until
      requires forall e :: e in store.results ==> store.results[e].result.eventId == e
      modifies this
      ensures claimed.Some? ==>
        && IsHead(old(store.results), claimed.value)
        && store == ClaimHead(old(store), claimed.value, token, now, until) != old(store)
      ensures claimed.None? ==>
        && store == old(store)
        && forall e :: IsHead(store.results, e) ==> ClaimHead(store, e, token, now, until) == store
    {
      var head := Head(store.results);
      if head.None? {
        return None;
      }
      var e := head.value;
      var row := store.results[e];
      HeadIsUnique(store.results, e);
      if row.nextAttemptAt > now || (row.lease.Some? && row.lease.value.until > now) {
        return None;
      }
      var claimedRow := row.(lease := Some(Lease(token, until)), attempts := row.attempts + 1);
      assert store.results[e := claimedRow][e] != store.results[e];
      store := store.(results := store.results[e := claimedRow]);
      claimed := Some(e);
    }

    method ProcessRatingResult(models: Models, e: Id, token: Id, at: Time, clock: Time) returns (outcome: Outcome)
      requires ModelsValid(models)
      modifies this
      ensures Effect(store, outcome) == Process(models, old(store), e, token, at, clock)
    {
      if e == 0 || token == 0 || at == 0 {
        return InvalidCall;
      }
      if !Owns(store.results, e, token, clock) {
        return ClaimLost;
      }
      var row := store.results[e];
      var updates := Update(models(row.modelVersion), row.result, BroughtRatings(store, row), at);
      if updates.Err? || e in store.rated {
        return Refused;
      }
      var tx := PersistUpdates(store, row.result.modeId, updates.value);
      store := Finish(tx, e, at);
      outcome := Rated;
    }

    method ScheduleRatingRetry(e: Id, token: Id, retryAt: Time, clock: Time) returns (outcome: Outcome)
      modifies this
      ensures Effect(store, outcome) == Retry(old(store), e, token, retryAt, clock)
    {
      if e == 0 || token == 0 || retryAt == 0 {
        return InvalidCall;
      }
      if !Owns(store.results, e, token, clock) {
        return ClaimLost;
      }
      store := store.(results := store.results[e := store.results[e].(nextAttemptAt := retryAt, lease := None)]);
      outcome := Rated;
    }
  }

  /** The loop over the updates; it leaves the results alone. */
  method PersistUpdates(s: Store, modeId: Id, updates: seq<RatingUpdate>) returns (after: Store)
    ensures after == PersistAll(s, modeId, updates) && after.results == s.results && after.rated == s.rated
  {
    after := s;
    for k := 0 to |updates|
      invariant PersistAll(after, modeId, updates[k..]) == PersistAll(s, modeId, updates)
      invariant after.results == s.results && after.rated == s.rated
    {
      assert updates[k..][0] == updates[k] && updates[k..][1..] == updates[k + 1..];
      after := Persist(after, modeId, updates[k]);
    }
    assert updates[|updates|..] == [];
  }

  lemma HeadIsUnique(results: map<Id, ResultRow>, e: Id)
    requires IsHead(results, e)
    ensures forall o :: IsHead(results, o) ==> o == e
  {
  }

  method Head(results: map<Id, ResultRow>) returns (head: Option<Id>)
    requires forall e :: e in results ==> results[e].result.eventId == e
    ensures head.Some? ==> IsHead(results, head.value)
    ensures head.None? ==> forall e :: !Unrated(results, e)
  {
    var open := set e | e in results && Unrated(results, e);
    if open == {} {
      assert forall e :: Unrated(results, e) ==> e in open;
      return None;
    }
    var first :| first in open;
    var rest := open - {first};
    while rest != {}
      invariant first in open && rest <= open - {first}
      invariant forall o :: o in open - rest && o != first ==> Sooner(results[first], results[o])
      decreases rest
    {
      var next :| next in rest;
      rest := rest - {next};
      if Sooner(results[next], results[first]) {
        first := next;
      }
    }
    assert forall e :: Unrated(results, e) ==> e in open;
    head := Some(first);
  }
}

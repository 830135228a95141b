/** What the two ordered rating queues do with one call: who may claim, retry and
    process, and what becomes of the item. */
module QueueLaws {
  import opened Common
  import opened RatingTypes
  import opened BaselineModel
  import opened Database
  import BaselineUpdate
  import RatingQueue
  import RatingRuns
  import ShadowTimeline

  // ---------------------------------------------------------------------
  // Ratings
  // ---------------------------------------------------------------------

  /** The worker's lease on a result that is not rated yet is alive. */
  ghost predicate HoldsResult(s: RatingQueue.Store, e: Id, token: Id, clock: Time) {
    && e in s.results && s.results[e].processedAt.None?
    && s.results[e].lease.Some? && s.results[e].lease.value.token == token && clock < s.results[e].lease.value.until
  }

  /** The head is the unrated result that became available first. */
  lemma HeadIsFirstAvailable(s: RatingQueue.Store, e: Id, o: Id)
    requires RatingQueue.IsHead(s.results, e)
    requires o in s.results && s.results[o].processedAt.None?
    ensures e in s.results && s.results[e].processedAt.None?
    ensures s.results[e].result.availableAt <= s.results[o].result.availableAt
    ensures o != e && s.results[e].result.availableAt == s.results[o].result.availableAt ==>
      s.results[e].result.eventId < s.results[o].result.eventId
  {
  }

  /** A claim takes the head exactly if it is due and not leased to somebody else at
      that time; the worker then holds it until the lease ends. */
  lemma ClaimTakesHead(s: RatingQueue.Store, e: Id, token: Id, now: Time, until: Time, clock: Time)
    requires RatingQueue.IsHead(s.results, e) && now < until
    ensures var after := RatingQueue.ClaimHead(s, e, token, now, until);
      && (after != s <==>
        s.results[e].nextAttemptAt <= now && (s.results[e].lease.Some? ==> s.results[e].lease.value.until <= now))
      && (after != s ==>
        && (HoldsResult(after, e, token, clock) <==> clock < until)
        && after == s.(results := s.results[e := after.results[e]])
        && after.results[e].attempts == s.results[e].attempts + 1
        && after.results[e].result == s.results[e].result)
  {
    hide RatingQueue.Sooner;
    var after := RatingQueue.ClaimHead(s, e, token, now, until);
    if after.results == s.results {
      assert after.results[e].attempts == s.results[e].attempts;
    }
  }

  /** A retry succeeds exactly for the holder; the result can be claimed again from
      the new time on, by anybody, and not earlier. */
  lemma RatingRetryIff(
      s: RatingQueue.Store, e: Id, token: Id, retryAt: Time, clock: Time, next: Id, now: Time, until: Time)
    requires e != 0 && token != 0 && retryAt != 0
    ensures var effect := RatingQueue.Retry(s, e, token, retryAt, clock);
      && (effect.outcome.Rated? <==> HoldsResult(s, e, token, clock))
      && (!effect.outcome.Rated? ==> effect.store == s)
      && (effect.outcome.Rated? ==>
        && effect.store.ratings == s.ratings && effect.store.history == s.history
        && e in effect.store.results && effect.store.results[e].processedAt.None?
        && (RatingQueue.ClaimHead(effect.store, e, next, now, until) != effect.store <==> retryAt <= now))
  {
    var after := RatingQueue.Retry(s, e, token, retryAt, clock).store;
    if HoldsResult(s, e, token, clock) && retryAt <= now {
      assert RatingQueue.ClaimHead(after, e, next, now, until).results[e].attempts == after.results[e].attempts + 1;
    }
  }

  /** The rating a player brings: the current one under the room's model, or else the
      one on the ticket. */
  lemma BroughtIs(s: RatingQueue.Store, row: RatingQueue.ResultRow, p: ParticipantResult)
    requires p in row.result.participants
    ensures var key := RatingQueue.RatingKey(p.playerId, row.result.modeId, row.modelVersion);
      var brought := RatingQueue.BroughtRatings(s, row);
      && (key in s.ratings ==> p.playerId in brought && brought[p.playerId] == s.ratings[key].estimate)
      && (key !in s.ratings && p.playerId in row.snapshots ==>
        p.playerId in brought && brought[p.playerId] == row.snapshots[p.playerId])
      && (key !in s.ratings && p.playerId !in row.snapshots ==> p.playerId !in brought)
  {
    assert p.playerId in RatingQueue.PlayerIds(row.result.participants);
  }

  /** A result is rated exactly by the holder of its lease, once, and if the model can
      update everybody with the rating they bring. */
  lemma RatedIff(models: RatingQueue.Models, s: RatingQueue.Store, e: Id, token: Id, at: Time, clock: Time)
    requires RatingQueue.ModelsValid(models) && e != 0 && token != 0 && at != 0
    ensures var effect := RatingQueue.Process(models, s, e, token, at, clock);
      && (effect.outcome.Rated? <==>
        && HoldsResult(s, e, token, clock) && e !in s.rated
        && BaselineUpdate.Updatable(
          models(s.results[e].modelVersion), s.results[e].result,
          RatingQueue.BroughtRatings(s, s.results[e]), at))
      && (!effect.outcome.Rated? ==> effect.store == s)
  {
    hide BaselineUpdate.Updatable, RatingQueue.BroughtRatings, RatingQueue.PersistAll, RatingQueue.Finish;
  }

  /** And then its item is closed and the current ratings of its players, and only
      they, are the posteriors of the update, each with one more history row. */
  lemma RatedWrites(models: RatingQueue.Models, s: RatingQueue.Store, e: Id, token: Id, at: Time, clock: Time)
    requires RatingQueue.ModelsValid(models)
    requires RatingQueue.Process(models, s, e, token, at, clock).outcome.Rated?
    ensures e in s.results
    ensures var row := s.results[e];
      var updated := BaselineUpdate.Updated(
        models(row.modelVersion), row.result, RatingQueue.BroughtRatings(s, row), at);
      var after := RatingQueue.Process(models, s, e, token, at, clock).store;
      && updated.Ok?
      && after.results == s.results[e := row.(processedAt := Some(at), lease := None)]
      && after.rated == s.rated + {e}
      && after.history == s.history + RowsOf(updated.value, row.result.modeId)
      && (forall key :: !(exists u :: u in updated.value && KeyOf(u, row.result.modeId) == key) ==>
        (key in after.ratings <==> key in s.ratings)
        && (key in s.ratings ==> after.ratings[key] == s.ratings[key]))
      && forall u :: u in updated.value ==>
        && var key := KeyOf(u, row.result.modeId);
          key in after.ratings && after.ratings[key] == RatingQueue.CurrentRating(u.after, NextRevision(s, key))
  {
    var row := s.results[e];
    var updates := BaselineUpdate.Updated(
      models(row.modelVersion), row.result, RatingQueue.BroughtRatings(s, row), at).value;
    hide BaselineUpdate.Updated, RatingQueue.BroughtRatings;
    PersistedAll(s, row.result.modeId, updates);
    RatingRuns.UpdatesCover(models(row.modelVersion), row.result, RatingQueue.BroughtRatings(s, row), at);
    hide RatingQueue.PersistAll, KeyOf, NextRevision;
    forall u | u in updates
      ensures var key := KeyOf(u, row.result.modeId);
        var persisted := RatingQueue.PersistAll(s, row.result.modeId, updates);
        key in persisted.ratings
        && persisted.ratings[key] == RatingQueue.CurrentRating(u.after, NextRevision(s, key))
    {
      PersistedOne(s, row.result.modeId, updates, u);
    }
  }

  function KeyOf(u: BaselineUpdate.RatingUpdate, modeId: Id): RatingQueue.RatingKey {
    RatingQueue.RatingKey(u.playerId, modeId, u.modelVersion)
  }

  function RowsOf(updates: seq<BaselineUpdate.RatingUpdate>, modeId: Id): seq<RatingQueue.HistoryRow> {
    seq(|updates|, i requires 0 <= i < |updates| =>
      RatingQueue.HistoryRow(
        KeyOf(updates[i], modeId), updates[i].sourceEventId, updates[i].before, updates[i].after,
        updates[i].processedAt))
  }

  function NextRevision(s: RatingQueue.Store, key: RatingQueue.RatingKey): nat {
    if key in s.ratings then s.ratings[key].revision + 1 else 1
  }

  lemma {:induction false} PersistedOne(
    s: RatingQueue.Store, modeId: Id, updates: seq<BaselineUpdate.RatingUpdate>, u: BaselineUpdate.RatingUpdate)
    requires BaselineUpdate.DistinctUpdates(updates) && u in updates
    ensures var after, key := RatingQueue.PersistAll(s, modeId, updates), KeyOf(u, modeId);
      key in after.ratings && after.ratings[key] == RatingQueue.CurrentRating(u.after, NextRevision(s, key))
    decreases |updates|
  {
    var first, rest := updates[0], updates[1..];
    assert updates == [first] + rest;
    assert forall i :: 0 <= i < |rest| ==> rest[i] == updates[i + 1];
    if u == first {
      PersistedAll(RatingQueue.Persist(s, modeId, first), modeId, rest);
    } else {
      PersistedOne(RatingQueue.Persist(s, modeId, first), modeId, rest, u);
    }
  }

  lemma {:induction false} PersistedAll(s: RatingQueue.Store, modeId: Id, updates: seq<BaselineUpdate.RatingUpdate>)
    ensures var after := RatingQueue.PersistAll(s, modeId, updates);
      && after.results == s.results && after.rated == s.rated
      && after.history == s.history + RowsOf(updates, modeId)
      && (forall key :: !(exists u :: u in updates && KeyOf(u, modeId) == key) ==>
        (key in after.ratings <==> key in s.ratings)
        && (key in s.ratings ==> after.ratings[key] == s.ratings[key]))
      && (forall u :: u in updates ==> KeyOf(u, modeId) in after.ratings)
      && (forall key :: key in s.ratings ==> key in after.ratings)
    decreases |updates|
  {
    if updates == [] {
      assert RowsOf(updates, modeId) == [];
    } else {
      var first, rest := updates[0], updates[1..];
      assert updates == [first] + rest;
      PersistedAll(RatingQueue.Persist(s, modeId, first), modeId, rest);
      assert RowsOf(updates, modeId) == RowsOf([first], modeId) + RowsOf(rest, modeId);
      assert first in updates;
      forall u | u in rest ensures u in updates {
      }
    }
  }

  // ---------------------------------------------------------------------
  // Shadow timeline
  // ---------------------------------------------------------------------

  ghost predicate HoldsItem(t: ShadowTimeline.Timeline, k: ShadowKey, token: Id, clock: Time) {
    && k in t.work && t.work[k].processedAt.None?
    && t.work[k].lease.Some? && t.work[k].lease.value.token == token && clock < t.work[k].lease.value.until
  }

  /** The head of the timeline is the open item at the earliest position, a room before
      a result. */
  lemma HeadIsEarliestItem(t: ShadowTimeline.Timeline, k: ShadowKey, o: ShadowKey)
    requires ShadowTimeline.IsHead(t.work, k) && o in t.work && t.work[o].processedAt.None?
    ensures k in t.work && t.work[k].processedAt.None? && t.work[k].position <= t.work[o].position
    ensures t.work[k].position == t.work[o].position ==>
      && (o.kind.RoomWork? ==> k.kind.RoomWork?)
      && (o != k && o.kind == k.kind ==> k.sourceId < o.sourceId)
  {
  }

  /** The same for the head of the timeline. */
  lemma ClaimTakesItem(t: ShadowTimeline.Timeline, k: ShadowKey, token: Id, now: Time, until: Time, clock: Time)
    requires ShadowTimeline.IsHead(t.work, k) && now < until
    ensures var after := ShadowTimeline.ClaimHead(t, k, token, now, until);
      && (after != t <==>
        t.work[k].nextAttemptAt <= now && (t.work[k].lease.Some? ==> t.work[k].lease.value.until <= now))
      && (after != t ==>
        && (HoldsItem(after, k, token, clock) <==> clock < until)
        && after == t.(work := t.work[k := after.work[k]])
        && after.work[k].attempts == t.work[k].attempts + 1 && after.work[k].position == t.work[k].position)
  {
    hide ShadowTimeline.Earlier;
    var after := ShadowTimeline.ClaimHead(t, k, token, now, until);
    if after.work == t.work {
      assert after.work[k].attempts == t.work[k].attempts;
    }
  }

  lemma ShadowRetryIff(
    t: ShadowTimeline.Timeline, k: ShadowKey, token: Id, retryAt: Time, clock: Time, next: Id, now: Time, until: Time)
    requires token != 0 && retryAt != 0
    ensures var effect := ShadowTimeline.Retry(t, k, token, retryAt, clock);
      && (effect.outcome.Processed? <==> HoldsItem(t, k, token, clock))
      && (!effect.outcome.Processed? ==> effect.timeline == t)
      && (effect.outcome.Processed? ==>
        && effect.timeline == t.(work := effect.timeline.work)
        && k in effect.timeline.work && effect.timeline.work[k].processedAt.None?
        && (ShadowTimeline.ClaimHead(effect.timeline, k, next, now, until) != effect.timeline <==> retryAt <= now))
  {
    var after := ShadowTimeline.Retry(t, k, token, retryAt, clock).timeline;
    if HoldsItem(t, k, token, clock) && retryAt <= now {
      assert ShadowTimeline.ClaimHead(after, k, next, now, until).work[k].attempts == after.work[k].attempts + 1;
    }
  }

  /** Only the holder of a live lease changes anything, and not before the item's
      position in time. */
  lemma ShadowNeedsLease(t: ShadowTimeline.Timeline, k: ShadowKey, token: Id, at: Time, clock: Time)
    ensures ShadowTimeline.Process(t, k, token, at, clock).timeline != t ==>
      token != 0 && at != 0 && HoldsItem(t, k, token, clock) && t.work[k].position <= at
  {
    hide ShadowTimeline.ProcessRoom, ShadowTimeline.ProcessResult;
  }

  /** A closed room item has been skipped exactly if the room is unknown or has no
      candidate, and a closed result exactly if its room was not predicted; otherwise
      a room leaves a prediction at its fill time from the states then stored, and a
      result dates all its players' states at its availability. */
  lemma ShadowWrites(t: ShadowTimeline.Timeline, k: ShadowKey, token: Id, at: Time, clock: Time)
    requires
      var outcome := ShadowTimeline.Process(t, k, token, at, clock).outcome;
      outcome.Processed? || outcome.Skipped?
    ensures var effect := ShadowTimeline.Process(t, k, token, at, clock);
      && k in t.work
      && effect.timeline.work == t.work[k := t.work[k].(processedAt := Some(at), lease := None)]
      && (k.kind.RoomWork? ==>
        && effect.timeline.states == t.states
        && (effect.outcome.Processed? <==> k.sourceId in t.rooms && t.rooms[k.sourceId].candidate.Some?)
        && (effect.outcome.Processed? ==>
          && k.sourceId in effect.timeline.predictions
          && var p, room := effect.timeline.predictions[k.sourceId], t.rooms[k.sourceId];
            && effect.timeline.predictions == t.predictions[k.sourceId := p]
            && p.generatedAt == room.filledAt && Some(p.candidate) == room.candidate
            && (forall q :: q in p.read <==> q in room.players && (q, p.candidate) in t.states)
            && (forall q :: q in p.read ==> p.read[q] == t.states[(q, p.candidate)])))
      && (k.kind.ResultWork? ==>
        && effect.timeline.predictions == t.predictions
        && (effect.outcome.Processed? <==>
          && k.sourceId in t.results && t.results[k.sourceId].roomId in t.rooms
          && t.results[k.sourceId].roomId in t.predictions)
        && (effect.outcome.Processed? ==>
          var result := t.results[k.sourceId];
          var candidate := t.predictions[result.roomId].candidate;
          && (forall p :: p in t.rooms[result.roomId].players ==>
            (p, candidate) in effect.timeline.states && effect.timeline.states[(p, candidate)] == result.availableAt)
          && (forall s :: s in t.states && !(s.1 == candidate && s.0 in t.rooms[result.roomId].players) ==>
            s in effect.timeline.states && effect.timeline.states[s] == t.states[s])))
  {
    hide ShadowTimeline.AnyNewer;
  }
}

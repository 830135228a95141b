/** Running feature profiles of the extended candidate model. */
module Profiles {
  import opened Common
  import opened Statistics
  import opened FeatureData

  const MAX_COUNT: nat := 0xFFFF_FFFF_FFFF_FFFF

  datatype Schema = Schema(version: Id, names: seq<Id>)

  /** Count zero is distinct from an observed zero. */
  datatype ProfileObservation = ProfileObservation(name: Id, mean: real, count: nat)

  datatype Profile = Profile(schemaVersion: Id, observations: seq<ProfileObservation>)

  type ProfileTable = map<Id, Profile>

  predicate ProfileValid(schema: Schema, p: Profile) {
    && p.schemaVersion == schema.version && |p.observations| == |schema.names|
    && forall f :: 0 <= f < |schema.names| ==>
      p.observations[f].name == schema.names[f] && (p.observations[f].count == 0 ==> p.observations[f].mean == 0.0)
  }

  function EmptyProfile(schema: Schema): Profile {
    Profile(schema.version, seq(|schema.names|, f requires 0 <= f < |schema.names| =>
              ProfileObservation(schema.names[f], 0.0, 0)))
  }

  /** The profile a player brings to a result. */
  function Brought(schema: Schema, profiles: ProfileTable, playerId: Id): Profile {
    if playerId in profiles then profiles[playerId] else EmptyProfile(schema)
  }

  function ObserveOne(o: ProfileObservation, x: FeatureObservation): ProfileObservation {
    if !x.present then o
    else ProfileObservation(o.name, o.mean + (x.value - o.mean) / (o.count + 1) as real, o.count + 1)
  }

  predicate Observable(schema: Schema, p: Profile, v: PlayerVector) {
    && ProfileValid(schema, p) && |v.observations| == |schema.names|
    && forall f :: 0 <= f < |schema.names| ==> v.observations[f].present ==> p.observations[f].count != MAX_COUNT
  }

  function UpdatedProfile(schema: Schema, p: Profile, v: PlayerVector): Profile
    requires Observable(schema, p, v)
  {
    p.(observations := seq(|schema.names|, f requires 0 <= f < |schema.names| =>
         ObserveOne(p.observations[f], v.observations[f])))
  }

  ghost predicate GameObservable(schema: Schema, players: seq<PlayerVector>, profiles: ProfileTable, k: nat)
    requires k <= |players|
  {
    forall i :: 0 <= i < k ==> Observable(schema, Brought(schema, profiles, players[i].playerId), players[i])
  }

  ghost function UpdatedUpTo(schema: Schema, players: seq<PlayerVector>, profiles: ProfileTable, k: nat): ProfileTable
    requires k <= |players| && GameObservable(schema, players, profiles, k)
  {
    if k == 0 then map[]
    else
      var v := players[k - 1];
      UpdatedUpTo(schema, players, profiles, k - 1)[
        v.playerId := UpdatedProfile(schema, Brought(schema, profiles, v.playerId), v)]
  }

  ghost function Observed(schema: Schema, players: seq<PlayerVector>, profiles: ProfileTable): Result<ProfileTable> {
    if GameObservable(schema, players, profiles, |players|)
    then Ok(UpdatedUpTo(schema, players, profiles, |players|)) else Err(InvalidInput)
  }

  /** The observation loop over the players of one result. */
  method Observe(schema: Schema, players: seq<PlayerVector>, profiles: ProfileTable) returns (r: Result<ProfileTable>)
    requires RowsFit(players, |schema.names|)
    ensures r == Observed(schema, players, profiles)
  {
    hide ProfileValid, ObserveOne;
    var updated: ProfileTable := map[];
    for k := 0 to |players|
      invariant GameObservable(schema, players, profiles, k) && updated == UpdatedUpTo(schema, players, profiles, k)
    {
      var v := players[k];
      assert v in players;
      var profile := Brought(schema, profiles, v.playerId);
      if !ProfileValid(schema, profile) {
        assert !Observable(schema, profile, v);
        return Err(InvalidInput);
      }
      ProfileSized(schema, profile);
      var observations := profile.observations;
      for f := 0 to |v.observations|
        invariant |observations| == |schema.names|
        invariant forall g :: 0 <= g < f ==> v.observations[g].present ==> profile.observations[g].count != MAX_COUNT
        invariant forall g :: 0 <= g < f ==> observations[g] == ObserveOne(profile.observations[g], v.observations[g])
        invariant forall g :: f <= g < |observations| ==> observations[g] == profile.observations[g]
      {
        if v.observations[f].present && observations[f].count == MAX_COUNT {
          assert !Observable(schema, profile, v);
          return Err(InvalidInput);
        }
        observations := observations[f := ObserveOne(observations[f], v.observations[f])];
      }
      assert profile.(observations := observations) == UpdatedProfile(schema, profile, v);
      updated := updated[v.playerId := profile.(observations := observations)];
    }
    r := Ok(updated);
  }

  lemma ProfileSized(schema: Schema, p: Profile)
    requires ProfileValid(schema, p)
    ensures |p.observations| == |schema.names|
  {
  }

  // ---------------------------------------------------------------------
  // Sequences of results
  // ---------------------------------------------------------------------

  ghost predicate DistinctPlayers(players: seq<PlayerVector>) {
    forall i, j :: 0 <= i < j < |players| ==> players[i].playerId != players[j].playerId
  }

  /** Profiles after a sequence of results; each result stores its own players. */
  ghost function After(schema: Schema, games: seq<seq<PlayerVector>>): Result<ProfileTable> {
    if games == [] then Ok(map[])
    else
      var before := After(schema, games[..|games| - 1]);
      if before.Err? then before
      else
        var updated := Observed(schema, games[|games| - 1], before.value);
        if updated.Err? then updated else Ok(before.value + updated.value)
  }

  /** A player's vectors in the order of the results. */
  ghost function VectorsIn(players: seq<PlayerVector>, playerId: Id): seq<PlayerVector> {
    if players == [] then []
    else
      var last := players[|players| - 1];
      VectorsIn(players[..|players| - 1], playerId) + if last.playerId == playerId then [last] else []
  }

  ghost function VectorsOf(games: seq<seq<PlayerVector>>, playerId: Id): seq<PlayerVector> {
    if games == [] then [] else VectorsOf(games[..|games| - 1], playerId) + VectorsIn(games[|games| - 1], playerId)
  }

  lemma {:induction false} NoVectors(players: seq<PlayerVector>, playerId: Id)
    requires forall i :: 0 <= i < |players| ==> players[i].playerId != playerId
    ensures VectorsIn(players, playerId) == []
  {
    if players != [] {
      NoVectors(players[..|players| - 1], playerId);
    }
  }

  lemma {:induction false} OneVector(players: seq<PlayerVector>, i: nat)
    requires DistinctPlayers(players) && i < |players|
    ensures VectorsIn(players, players[i].playerId) == [players[i]]
  {
    if i < |players| - 1 {
      OneVector(players[..|players| - 1], i);
    } else {
      NoVectors(players[..|players| - 1], players[i].playerId);
    }
  }

  lemma {:induction false} UpdatedEntry(
      schema: Schema, players: seq<PlayerVector>, profiles: ProfileTable, k: nat, i: nat)
    requires i < k <= |players| && GameObservable(schema, players, profiles, k) && DistinctPlayers(players)
    ensures players[i].playerId in UpdatedUpTo(schema, players, profiles, k)
    ensures UpdatedUpTo(schema, players, profiles, k)[players[i].playerId]
      == UpdatedProfile(schema, Brought(schema, profiles, players[i].playerId), players[i])
  {
    hide Observable, UpdatedProfile, Brought;
    if i < k - 1 {
      UpdatedEntry(schema, players, profiles, k - 1, i);
    }
  }

  lemma {:induction false} UpdatedKeys(
      schema: Schema, players: seq<PlayerVector>, profiles: ProfileTable, k: nat, id: Id)
    requires k <= |players| && GameObservable(schema, players, profiles, k)
    ensures id in UpdatedUpTo(schema, players, profiles, k) <==> exists i :: 0 <= i < k && players[i].playerId == id
  {
    hide Observable, UpdatedProfile, Brought;
    if k > 0 {
      UpdatedKeys(schema, players, profiles, k - 1, id);
      assert players[k - 1].playerId == id ==> exists i :: 0 <= i < k && players[i].playerId == id;
    }
  }

  /** A profile entry that is the mean and count of the values. */
  ghost predicate IsMeanOf(o: ProfileObservation, name: Id, values: seq<real>) {
    o == ProfileObservation(name, Mean(values), |values|)
  }

  lemma ObserveKeepsMean(o: ProfileObservation, name: Id, values: seq<real>, x: FeatureObservation)
    requires IsMeanOf(o, name, values)
    ensures IsMeanOf(ObserveOne(o, x), name, values + if x.present then [x.value] else [])
  {
    hide Mean, SquaredDeviations;
    ObserveIsSummary(values, x.value);
    assert values + [] == values;
  }

  ghost predicate ProfileExact(schema: Schema, p: Profile, vectors: seq<PlayerVector>)
    requires RowsFit(vectors, |schema.names|)
  {
    && p.schemaVersion == schema.version && |p.observations| == |schema.names|
    && forall f :: 0 <= f < |schema.names| ==> IsMeanOf(p.observations[f], schema.names[f], Column(vectors, f))
  }

  lemma UpdateKeepsExact(schema: Schema, p: Profile, vectors: seq<PlayerVector>, v: PlayerVector)
    requires RowsFit(vectors, |schema.names|) && ProfileExact(schema, p, vectors) && Observable(schema, p, v)
    ensures RowsFit(vectors + [v], |schema.names|)
    ensures ProfileExact(schema, UpdatedProfile(schema, p, v), vectors + [v])
  {
    hide ProfileValid, ObserveOne, IsMeanOf, Column;
    forall f | 0 <= f < |schema.names|
      ensures IsMeanOf(ObserveOne(p.observations[f], v.observations[f]), schema.names[f], Column(vectors + [v], f))
    {
      ObserveKeepsMean(p.observations[f], schema.names[f], Column(vectors, f), v.observations[f]);
      ColumnStep(vectors, v, f);
    }
  }

  lemma EmptyIsExact(schema: Schema)
    ensures RowsFit([], |schema.names|) && ProfileExact(schema, EmptyProfile(schema), [])
  {
  }

  ghost predicate GamesFit(schema: Schema, games: seq<seq<PlayerVector>>) {
    forall g :: 0 <= g < |games| ==> RowsFit(games[g], |schema.names|) && DistinctPlayers(games[g])
  }

  lemma {:induction false} VectorsFit(schema: Schema, games: seq<seq<PlayerVector>>, playerId: Id)
    requires GamesFit(schema, games)
    ensures RowsFit(VectorsOf(games, playerId), |schema.names|)
  {
    if games != [] {
      VectorsFit(schema, games[..|games| - 1], playerId);
      VectorsInFit(games[|games| - 1], playerId, |schema.names|);
    }
  }

  lemma {:induction false} VectorsInFit(players: seq<PlayerVector>, playerId: Id, n: nat)
    requires RowsFit(players, n)
    ensures RowsFit(VectorsIn(players, playerId), n)
  {
    if players != [] {
      assert players == players[..|players| - 1] + [players[|players| - 1]];
      FitsParts(players[..|players| - 1], [players[|players| - 1]], n);
      VectorsInFit(players[..|players| - 1], playerId, n);
    }
  }

  /** After any sequence of results a player has a profile exactly if one of them had
      the player, and each entry is the count and the arithmetic mean of all present
      observations. */
  lemma {:induction false} ProfileIsMean(schema: Schema, games: seq<seq<PlayerVector>>, playerId: Id)
    requires GamesFit(schema, games) && After(schema, games).Ok?
    ensures RowsFit(VectorsOf(games, playerId), |schema.names|)
    ensures var profiles := After(schema, games).value;
      && (playerId in profiles <==> VectorsOf(games, playerId) != [])
      && ProfileExact(schema, Brought(schema, profiles, playerId), VectorsOf(games, playerId))
    decreases |games|
  {
    hide Observed, VectorsIn, ProfileExact, RowsFit, DistinctPlayers, EmptyProfile;
    if games == [] {
      EmptyIsExact(schema);
    } else {
      var front, last := games[..|games| - 1], games[|games| - 1];
      ProfileIsMean(schema, front, playerId);
      VectorsFit(schema, games, playerId);
      OneGame(schema, last, After(schema, front).value, playerId, VectorsOf(front, playerId));
    }
  }

  lemma OneGame(
      schema: Schema, players: seq<PlayerVector>, profiles: ProfileTable, playerId: Id, vectors: seq<PlayerVector>)
    requires RowsFit(players, |schema.names|) && DistinctPlayers(players) && Observed(schema, players, profiles).Ok?
    requires RowsFit(vectors, |schema.names|) && ProfileExact(schema, Brought(schema, profiles, playerId), vectors)
    requires playerId in profiles <==> vectors != []
    ensures var after := profiles + Observed(schema, players, profiles).value;
      var all := vectors + VectorsIn(players, playerId);
      && RowsFit(all, |schema.names|)
      && (playerId in after <==> all != [])
      && ProfileExact(schema, Brought(schema, after, playerId), all)
  {
    hide Observable, UpdatedProfile, UpdatedUpTo, ProfileExact, EmptyProfile, VectorsIn;
    UpdatedKeys(schema, players, profiles, |players|, playerId);
    if i: nat :| i < |players| && players[i].playerId == playerId {
      UpdatedEntry(schema, players, profiles, |players|, i);
      OneVector(players, i);
      UpdateKeepsExact(schema, Brought(schema, profiles, playerId), vectors, players[i]);
    } else {
      NoVectors(players, playerId);
      assert vectors + [] == vectors;
    }
  }

  /** The order of the results does not matter to a profile. */
  lemma ProfileOrderIrrelevant(schema: Schema, a: seq<PlayerVector>, b: seq<PlayerVector>, p: Profile, q: Profile)
    requires RowsFit(a, |schema.names|) && RowsFit(b, |schema.names|)
    requires ProfileExact(schema, p, a) && ProfileExact(schema, q, b)
    requires forall f :: 0 <= f < |schema.names| ==> multiset(Column(a, f)) == multiset(Column(b, f))
    ensures p == q
  {
    hide Column, Mean;
    forall f | 0 <= f < |schema.names| ensures p.observations[f] == q.observations[f] {
      SameMean(Column(a, f), Column(b, f));
      assert IsMeanOf(p.observations[f], schema.names[f], Column(a, f));
      assert IsMeanOf(q.observations[f], schema.names[f], Column(b, f));
    }
    assert p.observations == q.observations;
  }

  lemma SameMean(a: seq<real>, b: seq<real>)
    requires multiset(a) == multiset(b)
    ensures |a| == |b| && Mean(a) == Mean(b)
  {
    SummaryPermutes(a, b);
    assert |multiset(a)| == |multiset(b)|;
  }
}

/** Time-ordered feature batches: the split at the training cutoff and the
    standardizer fitted on the training part alone. */
module FeatureData {
  import opened Common
  import opened RatingTypes
  import opened Analysis
  import opened Canonical
  import opened Totals
  import opened Statistics

  /** A missing observation has value zero and is not present. */
  datatype FeatureObservation = FeatureObservation(name: Id, value: real, present: bool)

  datatype PlayerVector = PlayerVector(playerId: Id, observations: seq<FeatureObservation>)

  /** What all batches of one set share. */
  datatype Header = Header(schemaVersion: Id, modeId: Id, scoringRulesVersion: Id, deckVersion: Id)

  datatype FeatureBatch = FeatureBatch(
    header: Header,
    eventId: Id,
    roomId: Id,
    deckId: Id,
    finishedAt: Time,
    availableAt: Time,
    players: seq<PlayerVector>)

  datatype FeatureSet = FeatureSet(
    cutoff: Time,
    header: Header,
    featureNames: seq<Id>,
    training: seq<FeatureBatch>,
    holdout: seq<FeatureBatch>)

  datatype Statistic = Statistic(name: Id, observations: nat, mean: real, deviation: real)

  datatype Standardizer = Standardizer(trainedThrough: Time, header: Header, statistics: seq<Statistic>)

  // ---------------------------------------------------------------------
  // Valid batches
  // ---------------------------------------------------------------------

  const SUPPORTED_FEATURES: nat := 6

  function Names(v: PlayerVector): seq<Id> {
    seq(|v.observations|, i requires 0 <= i < |v.observations| => v.observations[i].name)
  }

  predicate LayoutValid(names: seq<Id>) {
    && 1 <= |names| <= SUPPORTED_FEATURES
    && (forall i :: 0 <= i < |names| ==> 1 <= names[i] <= SUPPORTED_FEATURES)
    && (forall i, j :: 0 <= i < j < |names| ==> names[i] != names[j])
  }

  predicate VectorValid(v: PlayerVector, names: seq<Id>) {
    && v.playerId != 0 && |v.observations| == |names|
    && forall i :: 0 <= i < |names| ==>
      v.observations[i].name == names[i] && (!v.observations[i].present ==> v.observations[i].value == 0.0)
  }

  function ByVector(v: PlayerVector): Id {
    v.playerId
  }

  /** The batch with its players in the order of their identifiers. */
  function CanonicalBatch(b: FeatureBatch): FeatureBatch {
    b.(players := SortBy(ByVector, b.players))
  }

  function LayoutOf(b: FeatureBatch): seq<Id> {
    if b.players == [] then [] else Names(CanonicalBatch(b).players[0])
  }

  predicate BatchValid(b: FeatureBatch) {
    && b.header.schemaVersion != 0 && b.eventId != 0 && b.roomId != 0 && b.header.modeId != 0
    && b.header.scoringRulesVersion != 0 && b.header.deckVersion != 0 && b.deckId != 0
    && b.finishedAt != 0 && b.availableAt != 0 && b.finishedAt <= b.availableAt
    && MIN_ROOM_SIZE <= |b.players| <= MAX_ROOM_SIZE
    && LayoutValid(LayoutOf(b))
    && (forall i :: 0 <= i < |b.players| ==> VectorValid(b.players[i], LayoutOf(b)))
    && (forall i, j :: 0 <= i < j < |b.players| ==> b.players[i].playerId != b.players[j].playerId)
  }

  predicate Compatible(a: FeatureBatch, b: FeatureBatch) {
    a.header == b.header && LayoutOf(a) == LayoutOf(b)
  }

  // ---------------------------------------------------------------------
  // Splitting by time
  // ---------------------------------------------------------------------

  ghost predicate BatchesValid(bs: seq<FeatureBatch>, k: nat)
    requires k <= |bs|
  {
    && (forall i :: 0 <= i < k ==> BatchValid(bs[i]) && Compatible(bs[0], bs[i]))
    && (forall i, j :: 0 <= i < j < k ==> bs[i].eventId != bs[j].eventId && bs[i].roomId != bs[j].roomId)
  }

  ghost predicate Splittable(bs: seq<FeatureBatch>, cutoff: Time) {
    && cutoff != 0 && |bs| >= 2 && BatchesValid(bs, |bs|)
    && (exists b :: b in bs && b.availableAt <= cutoff) && (exists b :: b in bs && b.availableAt > cutoff)
  }

  function Canonicals(bs: seq<FeatureBatch>): seq<FeatureBatch> {
    seq(|bs|, i requires 0 <= i < |bs| => CanonicalBatch(bs[i]))
  }

  function StampOf(b: FeatureBatch): Stamp {
    Stamp(b.availableAt, b.eventId)
  }

  /** Nothing is lost, nothing crosses the cutoff, and time order is kept. */
  ghost predicate IsSplit(bs: seq<FeatureBatch>, cutoff: Time, s: FeatureSet) {
    && bs != [] && s.cutoff == cutoff && s.header == bs[0].header && s.featureNames == LayoutOf(bs[0])
    && multiset(s.training) + multiset(s.holdout) == multiset(Canonicals(bs))
    && InOrder(StampOf, s.training + s.holdout)
    && (forall b :: b in s.training ==> b.availableAt <= cutoff)
    && (forall b :: b in s.holdout ==> b.availableAt > cutoff)
    && s.training != [] && s.holdout != []
  }

  /** Sorted batches fall apart at the cutoff. */
  method PartitionBatches(
      sorted: seq<FeatureBatch>, cutoff: Time) returns (training: seq<FeatureBatch>, holdout: seq<FeatureBatch>)
    requires InOrder(StampOf, sorted)
    ensures training + holdout == sorted
    ensures forall b :: b in training ==> b.availableAt <= cutoff
    ensures forall b :: b in holdout ==> b.availableAt > cutoff
  {
    training, holdout := [], [];
    for k := 0 to |sorted|
      invariant training + holdout == sorted[..k]
      invariant forall b :: b in training ==> b.availableAt <= cutoff
      invariant forall b :: b in holdout ==> b.availableAt > cutoff
    {
      if sorted[k].availableAt > cutoff {
        holdout := holdout + [sorted[k]];
      } else {
        if holdout != [] {
          assert sorted[|training|] == holdout[0] && !Precedes(StampOf(sorted[k]), StampOf(sorted[|training|]));
        }
        training := training + [sorted[k]];
      }
    }
  }

  /** Every valid batch set is split; anything else is refused. */
  method SplitFeatureBatches(bs: seq<FeatureBatch>, cutoff: Time) returns (r: Result<FeatureSet>)
    ensures r.Ok? <==> Splittable(bs, cutoff)
    ensures r.Ok? ==> IsSplit(bs, cutoff, r.value)
  {
    hide BatchValid, Compatible, CanonicalBatch, InOrder, LayoutOf;
    if cutoff == 0 || |bs| < 2 {
      return Err(InvalidInput);
    }
    var canonical: seq<FeatureBatch> := [];
    var events: set<Id>, rooms: set<Id> := {}, {};
    for k := 0 to |bs|
      invariant BatchesValid(bs, k) && canonical == Canonicals(bs[..k])
      invariant events == set i | 0 <= i < k :: bs[i].eventId
      invariant rooms == set i | 0 <= i < k :: bs[i].roomId
    {
      if !BatchValid(bs[k]) || bs[k].eventId in events || bs[k].roomId in rooms || !Compatible(bs[0], bs[k]) {
        assert !BatchesValid(bs, |bs|);
        return Err(InvalidInput);
      }
      events, rooms := events + {bs[k].eventId}, rooms + {bs[k].roomId};
      assert bs[..k + 1][..k] == bs[..k];
      canonical := canonical + [CanonicalBatch(bs[k])];
    }
    assert bs[..|bs|] == bs;
    var sorted := SortByStamp(StampOf, canonical);
    var training, holdout := PartitionBatches(sorted, cutoff);
    CutoffCrossed(bs, cutoff, training, holdout);
    if training == [] || holdout == [] {
      return Err(InvalidInput);
    }
    r := Ok(FeatureSet(cutoff, bs[0].header, LayoutOf(bs[0]), training, holdout));
  }

  lemma CutoffCrossed(bs: seq<FeatureBatch>, cutoff: Time, training: seq<FeatureBatch>, holdout: seq<FeatureBatch>)
    requires multiset(training + holdout) == multiset(Canonicals(bs))
    requires forall b :: b in training ==> b.availableAt <= cutoff
    requires forall b :: b in holdout ==> b.availableAt > cutoff
    ensures training != [] <==> exists b :: b in bs && b.availableAt <= cutoff
    ensures holdout != [] <==> exists b :: b in bs && b.availableAt > cutoff
  {
    hide Canonicals, CanonicalBatch;
    var all := training + holdout;
    forall b | b in bs ensures CanonicalBatch(b) in all && CanonicalBatch(b).availableAt == b.availableAt {
      InCanonicals(bs, b);
      assert CanonicalBatch(b) in multiset(Canonicals(bs));
    }
    forall c | c in all ensures exists b :: b in bs && b.availableAt == c.availableAt {
      assert c in multiset(all);
      FromCanonicals(bs, c);
    }
    assert training != [] ==> training[0] in all;
    assert holdout != [] ==> holdout[0] in all;
  }

  lemma InCanonicals(bs: seq<FeatureBatch>, b: FeatureBatch)
    requires b in bs
    ensures CanonicalBatch(b) in Canonicals(bs) && CanonicalBatch(b).availableAt == b.availableAt
  {
    hide SortBy;
    var i :| 0 <= i < |bs| && bs[i] == b;
    assert Canonicals(bs)[i] == CanonicalBatch(b);
  }

  lemma FromCanonicals(bs: seq<FeatureBatch>, c: FeatureBatch)
    requires c in Canonicals(bs)
    ensures exists b :: b in bs && b.availableAt == c.availableAt
  {
    hide SortBy;
    var i :| 0 <= i < |bs| && Canonicals(bs)[i] == c;
    assert bs[i] in bs;
  }

  // ---------------------------------------------------------------------
  // Columns
  // ---------------------------------------------------------------------

  function Rows(bs: seq<FeatureBatch>): seq<PlayerVector> {
    if bs == [] then [] else Rows(bs[..|bs| - 1]) + bs[|bs| - 1].players
  }

  ghost predicate RowsFit(rows: seq<PlayerVector>, n: nat) {
    forall v :: v in rows ==> |v.observations| == n
  }

  /** The present values of one feature. */
  function Column(rows: seq<PlayerVector>, f: nat): seq<real>
    requires forall v :: v in rows ==> f < |v.observations|
  {
    if rows == [] then []
    else
      var last := rows[|rows| - 1];
      Column(rows[..|rows| - 1], f) + if last.observations[f].present then [last.observations[f].value] else []
  }

  lemma ColumnStep(rows: seq<PlayerVector>, v: PlayerVector, f: nat)
    requires forall r :: r in rows + [v] ==> f < |r.observations|
    ensures v in rows + [v]
    ensures (forall r :: r in rows ==> r in rows + [v])
    ensures Column(rows + [v], f)
      == Column(rows, f) + if v.observations[f].present then [v.observations[f].value] else []
  {
    assert (rows + [v])[..|rows|] == rows;
  }

  ghost function Summaries(rows: seq<PlayerVector>, n: nat): seq<Accumulator>
    requires RowsFit(rows, n)
  {
    seq(n, f requires 0 <= f < n => Summary(Column(rows, f)))
  }

  // ---------------------------------------------------------------------
  // Fitting
  // ---------------------------------------------------------------------

  /** The sets that the split produces. */
  ghost predicate SetFits(s: FeatureSet) {
    RowsFit(Rows(s.training), |s.featureNames|) && RowsFit(Rows(s.holdout), |s.featureNames|)
  }

  function StatisticOf(math: Functions, name: Id, a: Accumulator): Statistic
    requires a.count > 0
  {
    Statistic(name, a.count, a.mean, DeviationOf(math, a))
  }

  ghost predicate EveryFeatureSeen(s: FeatureSet)
    requires SetFits(s)
  {
    forall f :: 0 <= f < |s.featureNames| ==> Column(Rows(s.training), f) != []
  }

  ghost function Fitted(math: Functions, s: FeatureSet): Result<Standardizer>
    requires SetFits(s)
  {
    if !EveryFeatureSeen(s) then Err(InvalidInput)
    else
      Ok(Standardizer(s.cutoff, s.header, seq(|s.featureNames|, f requires 0 <= f < |s.featureNames| =>
           StatisticOf(math, s.featureNames[f], Summary(Column(Rows(s.training), f))))))
  }

  /** One player's vector enters every accumulator. */
  method ObserveVector(
      accumulators: seq<Accumulator>, v: PlayerVector, ghost rows: seq<PlayerVector>) returns (after: seq<Accumulator>)
    requires RowsFit(rows + [v], |accumulators|) && RowsFit(rows, |accumulators|)
    requires accumulators == Summaries(rows, |accumulators|)
    ensures |after| == |accumulators| && after == Summaries(rows + [v], |accumulators|)
  {
    hide Summary, Statistics.Observe, Column;
    ghost var n := |accumulators|;
    assert v in rows + [v];
    after := accumulators;
    for f := 0 to |v.observations|
      invariant |after| == n
      invariant forall g :: 0 <= g < f ==> after[g] == Summary(Column(rows + [v], g))
      invariant forall g :: f <= g < n ==> after[g] == Summary(Column(rows, g))
    {
      ColumnStep(rows, v, f);
      if v.observations[f].present {
        ObserveIsSummary(Column(rows, f), v.observations[f].value);
        after := after[f := Statistics.Observe(after[f], v.observations[f].value)];
      } else {
        assert Column(rows, f) + [] == Column(rows, f);
      }
    }
  }

  lemma FitsParts(a: seq<PlayerVector>, b: seq<PlayerVector>, n: nat)
    requires RowsFit(a + b, n)
    ensures RowsFit(a, n) && RowsFit(b, n)
  {
    forall v | v in a || v in b ensures |v.observations| == n {
      assert v in a + b;
    }
  }

  lemma RowsJoin(bs: seq<FeatureBatch>, b: FeatureBatch)
    ensures Rows(bs + [b]) == Rows(bs) + b.players
  {
    assert (bs + [b])[..|bs|] == bs;
  }

  lemma RowsNil()
    ensures Rows([]) == []
  {
  }

  lemma {:induction false} RowsAppend(a: seq<FeatureBatch>, b: seq<FeatureBatch>)
    ensures Rows(a + b) == Rows(a) + Rows(b)
  {
    hide Rows;
    if b == [] {
      assert a + b == a;
      RowsNil();
    } else {
      var front, last := b[..|b| - 1], b[|b| - 1];
      assert b == front + [last];
      assert a + b == (a + front) + [last];
      RowsAppend(a, front);
      RowsJoin(a + front, last);
      RowsJoin(front, last);
    }
  }

  method FitFeatureStandardizer(math: Functions, s: FeatureSet) returns (r: Result<Standardizer>)
    requires SetFits(s)
    ensures r == Fitted(math, s)
  {
    hide *;
    var n := |s.featureNames|;
    TrainingFits(s);
    var accumulators := seq(n, _ => START);
    EmptySummaries(n);
    ghost var rows: seq<PlayerVector> := [];
    for k := 0 to |s.training|
      invariant rows == Rows(s.training[..k]) && RowsFit(rows, n)
      invariant |accumulators| == n && accumulators == Summaries(rows, n)
    {
      var players := s.training[k].players;
      OneBatchMore(s.training, k, n);
      accumulators := ObservePlayers(accumulators, players, rows);
      rows := rows + players;
    }
    assert s.training[..|s.training|] == s.training;
    r := Conclude(math, s, accumulators);
  }

  lemma TrainingFits(s: FeatureSet)
    requires SetFits(s)
    ensures RowsFit(Rows(s.training), |s.featureNames|) && Rows(s.training[..0]) == []
  {
    hide RowsFit;
  }

  lemma OneBatchMore(bs: seq<FeatureBatch>, k: nat, n: nat)
    requires k < |bs| && RowsFit(Rows(bs), n)
    ensures Rows(bs[..k + 1]) == Rows(bs[..k]) + bs[k].players && RowsFit(Rows(bs[..k]) + bs[k].players, n)
  {
    hide Rows, RowsFit;
    assert bs == bs[..k + 1] + bs[k + 1..];
    RowsAppend(bs[..k + 1], bs[k + 1..]);
    RowsJoin(bs[..k], bs[k]);
    assert bs[..k + 1] == bs[..k] + [bs[k]];
    FitsParts(Rows(bs[..k + 1]), Rows(bs[k + 1..]), n);
  }

  /** The players of one batch enter one after the other. */
  method ObservePlayers(accumulators: seq<Accumulator>, players: seq<PlayerVector>, ghost before: seq<PlayerVector>)
    returns (after: seq<Accumulator>)
    requires RowsFit(before + players, |accumulators|) && RowsFit(before, |accumulators|)
    requires accumulators == Summaries(before, |accumulators|)
    ensures |after| == |accumulators| && after == Summaries(before + players, |accumulators|)
  {
    hide Summaries, RowsFit;
    after := accumulators;
    assert before + players[..0] == before;
    for j := 0 to |players|
      invariant RowsFit(before + players[..j], |accumulators|)
      invariant |after| == |accumulators| && after == Summaries(before + players[..j], |accumulators|)
    {
      assert before + players == before + players[..j + 1] + players[j + 1..];
      FitsParts(before + players[..j + 1], players[j + 1..], |accumulators|);
      assert before + players[..j + 1] == before + players[..j] + [players[j]];
      after := ObserveVector(after, players[j], before + players[..j]);
    }
    assert players[..|players|] == players;
  }

  lemma EmptySummaries(n: nat)
    ensures RowsFit([], n) && Summaries([], n) == seq(n, _ => START)
  {
    NothingObserved();
  }

  /** The loop over the features; one without a present value fails the fit. */
  method Conclude(math: Functions, s: FeatureSet, accumulators: seq<Accumulator>) returns (r: Result<Standardizer>)
    requires SetFits(s) && |accumulators| == |s.featureNames|
    requires accumulators == Summaries(Rows(s.training), |accumulators|)
    ensures r == Fitted(math, s)
  {
    hide Rows, DeviationOf, Mean, SquaredDeviations, Column;
    var statistics: seq<Statistic> := [];
    for f := 0 to |s.featureNames|
      invariant |statistics| == f
      invariant forall g :: 0 <= g < f ==> accumulators[g].count > 0
      invariant forall g :: 0 <= g < f ==> statistics[g] == StatisticOf(math, s.featureNames[g], accumulators[g])
    {
      if accumulators[f].count == 0 {
        assert Column(Rows(s.training), f) == [];
        return Err(InvalidInput);
      }
      statistics := statistics + [StatisticOf(math, s.featureNames[f], accumulators[f])];
    }
    forall f | 0 <= f < |s.featureNames|
      ensures accumulators[f] == Summary(Column(Rows(s.training), f)) && Column(Rows(s.training), f) != []
    {
    }
    assert EveryFeatureSeen(s);
    assert statistics == Fitted(math, s).value.statistics;
    r := Ok(Standardizer(s.cutoff, s.header, statistics));
  }

  // ---------------------------------------------------------------------
  // Transforming
  // ---------------------------------------------------------------------

  ghost predicate Usable(z: Standardizer) {
    forall f :: 0 <= f < |z.statistics| ==> z.statistics[f].deviation >= 0.0
  }

  function TransformObservation(z: Standardizer, o: FeatureObservation, f: nat): FeatureObservation
    requires f < |z.statistics| && z.statistics[f].deviation >= 0.0
  {
    if o.present then o.(value := Standardize(z.statistics[f].mean, z.statistics[f].deviation, o.value))
    else o.(value := 0.0)
  }

  ghost function TransformVector(z: Standardizer, v: PlayerVector): PlayerVector
    requires Usable(z) && |v.observations| == |z.statistics|
  {
    v.(observations := seq(|v.observations|, f requires 0 <= f < |v.observations| =>
         TransformObservation(z, v.observations[f], f)))
  }

  ghost function TransformRows(z: Standardizer, rows: seq<PlayerVector>): seq<PlayerVector>
    requires Usable(z) && RowsFit(rows, |z.statistics|)
  {
    seq(|rows|, i requires 0 <= i < |rows| => TransformVector(z, rows[i]))
  }

  predicate Matches(z: Standardizer, s: FeatureSet) {
    && z.trainedThrough == s.cutoff && z.header == s.header && |z.statistics| == |s.featureNames|
    && forall f :: 0 <= f < |s.featureNames| ==> z.statistics[f].name == s.featureNames[f]
  }

  method TransformBatch(z: Standardizer, b: FeatureBatch) returns (t: FeatureBatch)
    requires Usable(z) && RowsFit(b.players, |z.statistics|)
    ensures t == b.(players := TransformRows(z, b.players))
  {
    hide Standardize;
    var players: seq<PlayerVector> := [];
    for i := 0 to |b.players|
      invariant |players| == i && forall j :: 0 <= j < i ==> players[j] == TransformVector(z, b.players[j])
    {
      var v := b.players[i];
      assert v in b.players;
      var observations: seq<FeatureObservation> := [];
      for f := 0 to |v.observations|
        invariant |observations| == f
        invariant forall g :: 0 <= g < f ==> observations[g] == TransformObservation(z, v.observations[g], g)
      {
        observations := observations + [TransformObservation(z, v.observations[f], f)];
      }
      players := players + [v.(observations := observations)];
    }
    t := b.(players := players);
  }

  /** Transforms a partition; a standardizer fitted elsewhere is refused. */
  method Transform(z: Standardizer, s: FeatureSet, bs: seq<FeatureBatch>) returns (r: Result<seq<FeatureBatch>>)
    requires Usable(z) && RowsFit(Rows(bs), |s.featureNames|)
    ensures r.Ok? <==> Matches(z, s)
    ensures r.Ok? ==> Rows(r.value) == TransformRows(z, Rows(bs)) && |r.value| == |bs|
  {
    hide *;
    if !Matches(z, s) {
      return Err(InvalidInput);
    }
    MatchesSize(z, s);
    var transformed: seq<FeatureBatch> := [];
    NoRows(z, bs);
    for k := 0 to |bs|
      invariant |transformed| == k && RowsFit(Rows(bs[..k]), |z.statistics|)
      invariant Rows(transformed) == TransformRows(z, Rows(bs[..k]))
    {
      OneBatchMore(bs, k, |z.statistics|);
      FitsParts(Rows(bs[..k]), bs[k].players, |z.statistics|);
      var t := TransformBatch(z, bs[k]);
      RowsJoin(transformed, t);
      TransformJoin(z, Rows(bs[..k]), bs[k].players);
      transformed := transformed + [t];
    }
    assert bs[..|bs|] == bs;
    r := Ok(transformed);
  }

  lemma MatchesSize(z: Standardizer, s: FeatureSet)
    requires Matches(z, s)
    ensures |z.statistics| == |s.featureNames|
  {
  }

  lemma NoRows(z: Standardizer, bs: seq<FeatureBatch>)
    requires Usable(z)
    ensures RowsFit(Rows(bs[..0]), |z.statistics|) && Rows([]) == TransformRows(z, Rows(bs[..0]))
  {
  }

  lemma TransformJoin(z: Standardizer, a: seq<PlayerVector>, b: seq<PlayerVector>)
    requires Usable(z) && RowsFit(a, |z.statistics|) && RowsFit(b, |z.statistics|)
    ensures RowsFit(a + b, |z.statistics|)
    ensures TransformRows(z, a + b) == TransformRows(z, a) + TransformRows(z, b)
  {
    hide TransformVector;
  }
}

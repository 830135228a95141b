/** What the standardizer guarantees about training and holdout data. */
module FeatureLaws {
  import opened Common
  import opened Analysis
  import opened Canonical
  import opened Totals
  import opened Statistics
  import opened FeatureData

  /** Batches of a valid set have one layout, so their rows fit the feature names. */
  lemma SplitFits(bs: seq<FeatureBatch>, cutoff: Time, s: FeatureSet)
    requires Splittable(bs, cutoff) && IsSplit(bs, cutoff, s)
    ensures SetFits(s)
  {
    hide BatchValid, Compatible, InOrder, Canonicals, RowsFit, Rows;
    forall b | b in s.training || b in s.holdout ensures PlayersFit(b, |s.featureNames|) {
      assert b in multiset(s.training) + multiset(s.holdout);
      assert b in multiset(Canonicals(bs));
      CanonicalFits(bs, cutoff, b);
    }
    FlatFits(s.training, |s.featureNames|);
    FlatFits(s.holdout, |s.featureNames|);
  }

  ghost predicate PlayersFit(b: FeatureBatch, n: nat) {
    forall v :: v in b.players ==> |v.observations| == n
  }

  lemma CanonicalFits(bs: seq<FeatureBatch>, cutoff: Time, b: FeatureBatch)
    requires Splittable(bs, cutoff) && b in Canonicals(bs)
    ensures PlayersFit(b, |LayoutOf(bs[0])|)
  {
    hide LayoutOf, SortBy, LayoutValid;
    var i :| 0 <= i < |bs| && Canonicals(bs)[i] == b;
    assert BatchValid(bs[i]) && Compatible(bs[0], bs[i]);
    assert DistinctBy(ByVector, bs[i].players);
    SortByLaws(ByVector, bs[i].players);
    forall v | v in b.players ensures |v.observations| == |LayoutOf(bs[0])| {
      assert v in bs[i].players;
      var j :| 0 <= j < |bs[i].players| && bs[i].players[j] == v;
      assert VectorValid(bs[i].players[j], LayoutOf(bs[i]));
    }
  }

  lemma {:induction false} FlatFits(bs: seq<FeatureBatch>, n: nat)
    requires forall b :: b in bs ==> PlayersFit(b, n)
    ensures RowsFit(Rows(bs), n)
  {
    if bs != [] {
      FlatFits(bs[..|bs| - 1], n);
      assert bs[|bs| - 1] in bs;
    }
  }

  // ---------------------------------------------------------------------
  // Training data after its own standardizer
  // ---------------------------------------------------------------------

  /** A feature's column holds exactly the values that are present. */
  lemma {:induction false} ColumnIs(rows: seq<PlayerVector>, f: nat)
    requires forall v :: v in rows ==> f < |v.observations|
    ensures forall x :: x in Column(rows, f) <==>
      exists v :: v in rows && v.observations[f].present && v.observations[f].value == x
    ensures |Column(rows, f)| == |rows| <==> forall v :: v in rows ==> v.observations[f].present
    ensures |Column(rows, f)| <= |rows|
  {
    if rows != [] {
      var front, last := rows[..|rows| - 1], rows[|rows| - 1];
      assert rows == front + [last];
      ColumnIs(front, f);
      ColumnStep(front, last, f);
    }
  }

  lemma {:induction false} TransformedColumn(z: Standardizer, rows: seq<PlayerVector>, f: nat)
    requires Usable(z) && RowsFit(rows, |z.statistics|) && f < |z.statistics|
    ensures RowsFit(TransformRows(z, rows), |z.statistics|)
    ensures Column(TransformRows(z, rows), f)
      == Standardized(z.statistics[f].mean, z.statistics[f].deviation, Column(rows, f))
  {
    hide Standardize;
    if rows != [] {
      var front, last := rows[..|rows| - 1], rows[|rows| - 1];
      assert rows == front + [last];
      FitsParts(front, [last], |z.statistics|);
      TransformedColumn(z, front, f);
      TransformJoin(z, front, [last]);
      assert TransformRows(z, [last]) == [TransformVector(z, last)];
      ColumnStep(front, last, f);
      ColumnStep(TransformRows(z, front), TransformVector(z, last), f);
    }
  }

  /** The statistics are those of the present training values, and after their own
      transformation the training values of a feature sum to zero while their
      squares sum to their number, or are all zero if the feature is constant. */
  lemma TrainingIsStandardized(math: Functions, s: FeatureSet, f: nat)
    requires math.Lawful() && SetFits(s) && Fitted(math, s).Ok? && f < |s.featureNames|
    ensures var z, col := Fitted(math, s).value, Column(Rows(s.training), f);
      && Usable(z) && Matches(z, s)
      && z.statistics[f].observations == |col|
      && z.statistics[f].mean * |col| as real == SumBy(Number, col)
      && z.statistics[f].deviation * z.statistics[f].deviation * |col| as real == SquaredDeviations(col)
      && RowsFit(TransformRows(z, Rows(s.training)), |s.featureNames|)
      && var t := Column(TransformRows(z, Rows(s.training)), f);
        && |t| == |col| && SumBy(Number, t) == 0.0
        && if (forall i, j :: 0 <= i < |col| && 0 <= j < |col| ==> col[i] == col[j])
          then forall i :: 0 <= i < |t| ==> t[i] == 0.0
          else SumBy(DeviationFrom(0.0), t) == |t| as real
  {
    hide SumBy, DeviationOf, Mean, SquaredDeviations, Standardized, Column, Rows, TransformRows;
    var z, rows := Fitted(math, s).value, Rows(s.training);
    FittedStatistics(math, s);
    var col := Column(rows, f);
    OwnStandardization(math, col);
    DeviationSquared(math, col);
    MeanTimesCount(col);
    TransformedColumn(z, rows, f);
  }

  /** A missing observation stays missing, with value zero, and no observation changes
      its name or whether it is present. */
  lemma MissingStaysMissing(z: Standardizer, v: PlayerVector, f: nat)
    requires Usable(z) && |v.observations| == |z.statistics| && f < |z.statistics|
    ensures var o, after := v.observations[f], TransformVector(z, v).observations[f];
      && after.name == o.name && after.present == o.present
      && (!o.present ==> after.value == 0.0)
    ensures TransformVector(z, v).playerId == v.playerId
  {
    hide Standardize;
  }

  /** Standardizing keeps the order of the observations of a feature. */
  lemma OrderIsKept(mean: real, deviation: real, x: real, y: real)
    requires deviation >= 0.0 && x < y
    ensures Standardize(mean, deviation, x) < Standardize(mean, deviation, y)
  {
    var s := ScaleOf(deviation);
    var p, q := (x - mean) / s, (y - mean) / s;
    assert p * s == x - mean && q * s == y - mean;
    assert (q - p) * s == y - x;
  }

  lemma DeviationSquared(math: Functions, values: seq<real>)
    requires math.Lawful() && values != []
    ensures var d := DeviationOf(math, Summary(values));
      d * d * |values| as real == SquaredDeviations(values)
  {
    hide SumBy;
    DeviationsNonNegative(values, Mean(values));
    var m2, n := SquaredDeviations(values), |values| as real;
    QuotientNonNegative(m2, n);
    RootLaws(math, m2 / n);
    assert m2 / n * n == m2;
  }

  lemma FittedStatistics(math: Functions, s: FeatureSet)
    requires math.Lawful() && SetFits(s) && Fitted(math, s).Ok?
    ensures var z := Fitted(math, s).value;
      && Usable(z) && Matches(z, s)
      && forall f :: 0 <= f < |s.featureNames| ==>
        && Column(Rows(s.training), f) != []
        && z.statistics[f] == StatisticOf(math, s.featureNames[f], Summary(Column(Rows(s.training), f)))
  {
    hide Column, Rows, Mean, SquaredDeviations, DeviationOf;
    forall f | 0 <= f < |s.featureNames| ensures Fitted(math, s).value.statistics[f].deviation >= 0.0 {
      hide SumBy;
      OwnStandardization(math, Column(Rows(s.training), f));
    }
  }

  // ---------------------------------------------------------------------
  // Holdout data never reaches the statistics
  // ---------------------------------------------------------------------

  lemma {:induction false} ColumnAppend(a: seq<PlayerVector>, b: seq<PlayerVector>, n: nat, f: nat)
    requires RowsFit(a + b, n) && f < n
    ensures RowsFit(a, n) && RowsFit(b, n)
    ensures Column(a + b, f) == Column(a, f) + Column(b, f)
    decreases b
  {
    FitsParts(a, b, n);
    if b == [] {
      assert a + b == a;
    } else {
      var front, last := b[..|b| - 1], b[|b| - 1];
      assert b == front + [last];
      assert a + b == (a + front) + [last];
      FitsParts(a + front, [last], n);
      ColumnAppend(a, front, n, f);
      ColumnStep(a + front, last, f);
      ColumnStep(front, last, f);
    }
  }

  lemma {:induction false} ColumnPermutes(a: seq<FeatureBatch>, b: seq<FeatureBatch>, n: nat, f: nat)
    requires multiset(a) == multiset(b) && RowsFit(Rows(a), n) && RowsFit(Rows(b), n) && f < n
    ensures multiset(Column(Rows(a), f)) == multiset(Column(Rows(b), f))
    decreases |a|
  {
    hide Column, Rows, RowsFit;
    if a == [] {
      assert |multiset(b)| == 0;
    } else {
      var front, last := a[..|a| - 1], a[|a| - 1];
      assert a == front + [last];
      assert last in multiset(b);
      var i :| 0 <= i < |b| && b[i] == last;
      RowsJoin(front, last);
      ColumnAppend(Rows(front), last.players, n, f);
      ColumnWithout(b, i, n, f);
      RemoveOne(b, i);
      ColumnPermutes(front, b[..i] + b[i + 1..], n, f);
    }
  }

  lemma ColumnWithout(b: seq<FeatureBatch>, i: nat, n: nat, f: nat)
    requires i < |b| && RowsFit(Rows(b), n) && f < n
    ensures RowsFit(Rows(b[..i] + b[i + 1..]), n) && RowsFit(b[i].players, n)
    ensures multiset(Column(Rows(b), f))
      == multiset(Column(Rows(b[..i] + b[i + 1..]), f)) + multiset(Column(b[i].players, f))
  {
    hide Column, Rows, RowsFit;
    var before, x, after := b[..i], b[i], b[i + 1..];
    assert b == (before + [x]) + after;
    RowsAppend(before + [x], after);
    RowsJoin(before, x);
    RowsAppend(before, after);
    ColumnAppend(Rows(before) + x.players, Rows(after), n, f);
    ColumnAppend(Rows(before), x.players, n, f);
    FitsJoin(Rows(before), Rows(after), n);
    ColumnAppend(Rows(before), Rows(after), n, f);
  }

  lemma FitsJoin(a: seq<PlayerVector>, b: seq<PlayerVector>, n: nat)
    requires RowsFit(a, n) && RowsFit(b, n)
    ensures RowsFit(a + b, n)
  {
  }

  /** The batches that were available by the cutoff. */
  function ByCutoff(bs: seq<FeatureBatch>, cutoff: Time): seq<FeatureBatch> {
    if bs == [] then []
    else
      ByCutoff(bs[..|bs| - 1], cutoff) + if bs[|bs| - 1].availableAt <= cutoff then [bs[|bs| - 1]] else []
  }

  lemma {:induction false} ByCutoffJoin(a: seq<FeatureBatch>, b: seq<FeatureBatch>, cutoff: Time)
    ensures ByCutoff(a + b, cutoff) == ByCutoff(a, cutoff) + ByCutoff(b, cutoff)
  {
    if b == [] {
      assert a + b == a;
    } else {
      ByCutoffJoin(a, b[..|b| - 1], cutoff);
      assert (a + b)[..|a + b| - 1] == a + b[..|b| - 1];
    }
  }

  lemma ByCutoffWithout(b: seq<FeatureBatch>, i: nat, cutoff: Time)
    requires i < |b|
    ensures multiset(ByCutoff(b, cutoff))
      == multiset(ByCutoff(b[..i] + b[i + 1..], cutoff)) + multiset(ByCutoff([b[i]], cutoff))
  {
    hide ByCutoff;
    assert b == (b[..i] + [b[i]]) + b[i + 1..];
    ByCutoffJoin(b[..i] + [b[i]], b[i + 1..], cutoff);
    ByCutoffJoin(b[..i], [b[i]], cutoff);
    ByCutoffJoin(b[..i], b[i + 1..], cutoff);
  }

  lemma {:induction false} ByCutoffPermutes(a: seq<FeatureBatch>, b: seq<FeatureBatch>, cutoff: Time)
    requires multiset(a) == multiset(b)
    ensures multiset(ByCutoff(a, cutoff)) == multiset(ByCutoff(b, cutoff))
    decreases |a|
  {
    hide ByCutoff;
    if a == [] {
      assert |multiset(b)| == 0;
    } else {
      var front, last := a[..|a| - 1], a[|a| - 1];
      assert a == front + [last];
      assert last in multiset(b);
      var i :| 0 <= i < |b| && b[i] == last;
      RemoveOne(b, i);
      ByCutoffPermutes(front, b[..i] + b[i + 1..], cutoff);
      ByCutoffWithout(b, i, cutoff);
      ByCutoffJoin(front, [last], cutoff);
    }
  }

  lemma ByCutoffOne(front: seq<FeatureBatch>, last: FeatureBatch, cutoff: Time)
    ensures ByCutoff(front + [last], cutoff) == ByCutoff(front, cutoff) + if last.availableAt <= cutoff then [last]
      else []
  {
    assert (front + [last])[..|front|] == front;
  }

  lemma NoneByCutoff(cutoff: Time)
    ensures ByCutoff([], cutoff) == []
  {
  }

  lemma {:induction false} ByCutoffKeeps(bs: seq<FeatureBatch>, cutoff: Time)
    requires forall b :: b in bs ==> b.availableAt <= cutoff
    ensures ByCutoff(bs, cutoff) == bs
  {
    hide ByCutoff;
    if bs != [] {
      var front, last := bs[..|bs| - 1], bs[|bs| - 1];
      assert last in bs && bs == front + [last];
      ByCutoffKeeps(front, cutoff);
      ByCutoffOne(front, last, cutoff);
    } else {
      NoneByCutoff(cutoff);
    }
  }

  lemma {:induction false} ByCutoffDrops(bs: seq<FeatureBatch>, cutoff: Time)
    requires forall b :: b in bs ==> b.availableAt > cutoff
    ensures ByCutoff(bs, cutoff) == []
  {
    hide ByCutoff;
    if bs != [] {
      var front, last := bs[..|bs| - 1], bs[|bs| - 1];
      assert last in bs && bs == front + [last];
      ByCutoffDrops(front, cutoff);
      ByCutoffOne(front, last, cutoff);
    } else {
      NoneByCutoff(cutoff);
    }
  }

  lemma {:induction false} ByCutoffCanonical(bs: seq<FeatureBatch>, cutoff: Time)
    ensures ByCutoff(Canonicals(bs), cutoff) == Canonicals(ByCutoff(bs, cutoff))
  {
    hide SortBy;
    if bs != [] {
      var front, last := bs[..|bs| - 1], bs[|bs| - 1];
      ByCutoffCanonical(front, cutoff);
      assert Canonicals(bs) == Canonicals(front) + [CanonicalBatch(last)];
      assert Canonicals(bs)[..|bs| - 1] == Canonicals(front);
      CanonicalJoin(ByCutoff(front, cutoff), last);
      assert ByCutoff(front, cutoff) + [] == ByCutoff(front, cutoff);
    }
  }

  lemma CanonicalJoin(bs: seq<FeatureBatch>, b: FeatureBatch)
    ensures Canonicals(bs + [b]) == Canonicals(bs) + [CanonicalBatch(b)]
  {
    hide CanonicalBatch;
  }

  lemma CanonicalsWithout(b: seq<FeatureBatch>, i: nat)
    requires i < |b|
    ensures multiset(Canonicals(b)) == multiset(Canonicals(b[..i] + b[i + 1..])) + multiset{CanonicalBatch(b[i])}
  {
    hide CanonicalBatch;
    RemoveOne(Canonicals(b), i);
    assert Canonicals(b)[..i] + Canonicals(b)[i + 1..] == Canonicals(b[..i] + b[i + 1..]);
    assert Canonicals(b)[i] in multiset(Canonicals(b));
  }

  lemma {:induction false} CanonicalsPermute(a: seq<FeatureBatch>, b: seq<FeatureBatch>)
    requires multiset(a) == multiset(b)
    ensures multiset(Canonicals(a)) == multiset(Canonicals(b))
    decreases |a|
  {
    hide CanonicalBatch, Canonicals;
    if a == [] {
      assert |multiset(b)| == 0;
    } else {
      var front, last := a[..|a| - 1], a[|a| - 1];
      assert a == front + [last];
      assert last in multiset(b);
      var i :| 0 <= i < |b| && b[i] == last;
      RemoveOne(b, i);
      CanonicalsPermute(front, b[..i] + b[i + 1..]);
      CanonicalJoin(front, last);
      CanonicalsWithout(b, i);
    }
  }

  /** The training part is what was available by the cutoff. */
  lemma TrainingIsByCutoff(bs: seq<FeatureBatch>, cutoff: Time, s: FeatureSet)
    requires IsSplit(bs, cutoff, s)
    ensures multiset(s.training) == multiset(Canonicals(ByCutoff(bs, cutoff)))
  {
    hide InOrder, Canonicals, LayoutOf, ByCutoff;
    ByCutoffCanonical(bs, cutoff);
    ByCutoffPermutes(s.training + s.holdout, Canonicals(bs), cutoff);
    ByCutoffJoin(s.training, s.holdout, cutoff);
    ByCutoffKeeps(s.training, cutoff);
    ByCutoffDrops(s.holdout, cutoff);
    assert s.training + [] == s.training;
  }

  lemma SameColumns(math: Functions, s: FeatureSet, t: FeatureSet)
    requires SetFits(s) && SetFits(t) && multiset(s.training) == multiset(t.training)
    requires s.cutoff == t.cutoff && s.header == t.header && s.featureNames == t.featureNames
    ensures Fitted(math, s) == Fitted(math, t)
  {
    hide Column, Rows, Summary, DeviationOf;
    forall f | 0 <= f < |s.featureNames|
      ensures Summary(Column(Rows(s.training), f)) == Summary(Column(Rows(t.training), f))
      ensures Column(Rows(s.training), f) == [] <==> Column(Rows(t.training), f) == []
    {
      ColumnPermutes(s.training, t.training, |s.featureNames|, f);
      var a, b := Column(Rows(s.training), f), Column(Rows(t.training), f);
      SummaryPermutes(a, b);
      assert |multiset(a)| == |a| && |multiset(b)| == |b|;
    }
    if Fitted(math, s).Ok? && Fitted(math, t).Ok? {
      CountsPositive(s);
      CountsPositive(t);
      assert Fitted(math, s).value.statistics == Fitted(math, t).value.statistics;
    }
  }

  lemma CountsPositive(s: FeatureSet)
    requires SetFits(s) && EveryFeatureSeen(s)
    ensures forall f :: 0 <= f < |s.featureNames| ==> Summary(Column(Rows(s.training), f)).count > 0
  {
    hide Column, Rows, RowsFit, Mean, SquaredDeviations;
  }

  /** Two data sets that agree on what was available by the cutoff, in any order and
      whatever came later, fit the same standardizer. */
  lemma HoldoutNeverLeaks(
    math: Functions, a: seq<FeatureBatch>, b: seq<FeatureBatch>, cutoff: Time, s: FeatureSet, t: FeatureSet)
    requires Splittable(a, cutoff) && IsSplit(a, cutoff, s)
    requires Splittable(b, cutoff) && IsSplit(b, cutoff, t)
    requires multiset(ByCutoff(a, cutoff)) == multiset(ByCutoff(b, cutoff))
    ensures SetFits(s) && SetFits(t) && Fitted(math, s) == Fitted(math, t)
  {
    hide *;
    SplitFits(a, cutoff, s);
    SplitFits(b, cutoff, t);
    TrainingIsByCutoff(a, cutoff, s);
    TrainingIsByCutoff(b, cutoff, t);
    CanonicalsPermute(ByCutoff(a, cutoff), ByCutoff(b, cutoff));
    SameHeader(a, b, cutoff, s, t);
    SameColumns(math, s, t);
  }

  lemma {:induction false} ByCutoffMember(bs: seq<FeatureBatch>, cutoff: Time, b: FeatureBatch)
    ensures b in ByCutoff(bs, cutoff) <==> b in bs && b.availableAt <= cutoff
  {
    if bs != [] {
      ByCutoffMember(bs[..|bs| - 1], cutoff, b);
      assert bs == bs[..|bs| - 1] + [bs[|bs| - 1]];
    }
  }

  /** Both data sets share a batch, and every batch shares the header and layout. */
  lemma SameHeader(a: seq<FeatureBatch>, b: seq<FeatureBatch>, cutoff: Time, s: FeatureSet, t: FeatureSet)
    requires Splittable(a, cutoff) && IsSplit(a, cutoff, s)
    requires Splittable(b, cutoff) && IsSplit(b, cutoff, t)
    requires multiset(ByCutoff(a, cutoff)) == multiset(ByCutoff(b, cutoff))
    ensures s.cutoff == t.cutoff && s.header == t.header && s.featureNames == t.featureNames
  {
    hide BatchValid, LayoutOf, InOrder, Canonicals, ByCutoff;
    var x :| x in a && x.availableAt <= cutoff;
    ByCutoffMember(a, cutoff, x);
    assert x in multiset(ByCutoff(a, cutoff));
    assert x in multiset(ByCutoff(b, cutoff));
    ByCutoffMember(b, cutoff, x);
    var i, j :| 0 <= i < |a| && a[i] == x && 0 <= j < |b| && b[j] == x;
    assert Compatible(a[0], a[i]) && Compatible(b[0], b[j]);
  }
}

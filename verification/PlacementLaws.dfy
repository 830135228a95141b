/** Laws of the placement distribution for any number of positive weights. */
module PlacementLaws {
  import opened PlackettLuce

  // ---------------------------------------------------------------------
  // Columns: every place is taken by exactly one player
  // ---------------------------------------------------------------------

  /** Chance that one of the players below `m` is drawn after `r` other picks. */
  ghost function Column(w: seq<real>, placed: set<nat>, r: nat, m: nat): real
    requires Positive(w) && m <= |w|
  {
    if m == 0 then 0.0 else Column(w, placed, r, m - 1) + Hit(w, placed, m - 1, r)
  }

  ghost function ColumnUpTo(w: seq<real>, placed: set<nat>, r: nat, m: nat, j: nat): real
    requires Positive(w) && m <= |w| && j <= |w| && r > 0
  {
    if m == 0 then 0.0 else ColumnUpTo(w, placed, r, m - 1, j) + HitUpTo(w, placed, m - 1, r, j)
  }

  lemma {:induction false} ColumnUpToStep(w: seq<real>, placed: set<nat>, r: nat, m: nat, j: nat)
    requires Positive(w) && m <= |w| && 0 < j <= |w| && r > 0
    ensures ColumnUpTo(w, placed, r, m, j) == ColumnUpTo(w, placed, r, m, j - 1)
      + if j - 1 in placed then 0.0 else Choice(w, placed, j - 1) * Column(w, placed + {j - 1}, r - 1, m)
  {
    hide Choice, Hit, HitUpTo;
    if m > 0 {
      ColumnUpToStep(w, placed, r, m - 1, j);
      HitUnfold(w, placed, m - 1, r, j);
    }
  }

  lemma {:induction false} ColumnUpToZero(w: seq<real>, placed: set<nat>, r: nat, m: nat)
    requires Positive(w) && m <= |w| && r > 0
    ensures ColumnUpTo(w, placed, r, m, 0) == 0.0
  {
    if m > 0 {
      ColumnUpToZero(w, placed, r, m - 1);
    }
  }

  lemma {:induction false} ColumnIsColumnUpTo(w: seq<real>, placed: set<nat>, r: nat, m: nat)
    requires Positive(w) && m <= |w| && r > 0
    ensures Column(w, placed, r, m) == ColumnUpTo(w, placed, r, m, |w|)
  {
    if m > 0 {
      ColumnIsColumnUpTo(w, placed, r, m - 1);
    }
  }

  lemma {:induction false} FirstColumn(w: seq<real>, placed: set<nat>, m: nat)
    requires Positive(w) && m <= |w|
    ensures Column(w, placed, 0, m) == ChoiceSum(w, placed, m)
  {
    hide Choice;
    if m > 0 {
      FirstColumn(w, placed, m - 1);
    }
  }

  /** While at least `r + 1` players are left, the pick after `r` others takes
      somebody with certainty. */
  lemma {:induction false} ColumnSumsToOne(w: seq<real>, placed: set<nat>, r: nat)
    requires Positive(w) && |placed| + r < |w|
    ensures Column(w, placed, r, |w|) == 1.0
    decreases r, |w| + 1
  {
    var j := SomebodyLeft(|w|, placed);
    ChoicesSumToOne(w, placed, j);
    if r == 0 {
      FirstColumn(w, placed, |w|);
    } else {
      ColumnIsColumnUpTo(w, placed, r, |w|);
      ColumnSumsUpTo(w, placed, r, |w|);
    }
  }

  lemma {:induction false} ColumnSumsUpTo(w: seq<real>, placed: set<nat>, r: nat, j: nat)
    requires Positive(w) && |placed| + r < |w| && r > 0 && j <= |w|
    ensures ColumnUpTo(w, placed, r, |w|, j) == ChoiceSum(w, placed, j)
    decreases r, j
  {
    hide Choice, ColumnUpTo, Column;
    if j == 0 {
      ColumnUpToZero(w, placed, r, |w|);
    } else {
      ColumnSumsUpTo(w, placed, r, j - 1);
      ColumnUpToStep(w, placed, r, |w|, j);
      if j - 1 !in placed {
        OneMorePlaced(placed, j - 1);
        ColumnSumsToOne(w, placed + {j - 1}, r - 1);
      }
    }
  }

  // ---------------------------------------------------------------------
  // Rows: every player takes exactly one place
  // ---------------------------------------------------------------------

  /** Chance that `i` is not among the next `m` picks. */
  ghost function Unplaced(w: seq<real>, placed: set<nat>, i: nat, m: nat): real
    requires Positive(w) && i < |w| && i !in placed
    decreases m, |w| + 1
  {
    if m == 0 then 1.0 else UnplacedUpTo(w, placed, i, m, |w|)
  }

  ghost function UnplacedUpTo(w: seq<real>, placed: set<nat>, i: nat, m: nat, j: nat): real
    requires Positive(w) && i < |w| && i !in placed && m > 0 && j <= |w|
    decreases m, j
  {
    if j == 0 then 0.0
    else
      UnplacedUpTo(w, placed, i, m, j - 1)
      + if j - 1 in placed || j - 1 == i then 0.0
        else Choice(w, placed, j - 1) * Unplaced(w, placed + {j - 1}, i, m - 1)
  }

  lemma UnplacedUnfold(w: seq<real>, placed: set<nat>, i: nat, m: nat, j: nat)
    requires Positive(w) && i < |w| && i !in placed && m > 0 && j <= |w|
    ensures UnplacedUpTo(w, placed, i, m, 0) == 0.0
    ensures j > 0 ==> (UnplacedUpTo(w, placed, i, m, j) == UnplacedUpTo(w, placed, i, m, j - 1)
      + if j - 1 in placed || j - 1 == i then 0.0
        else Choice(w, placed, j - 1) * Unplaced(w, placed + {j - 1}, i, m - 1))
    ensures Unplaced(w, placed, i, m) == UnplacedUpTo(w, placed, i, m, |w|)
  {
  }

  lemma {:induction false} PlacedNeverHit(w: seq<real>, placed: set<nat>, i: nat, r: nat)
    requires Positive(w) && i < |w| && i in placed
    ensures Hit(w, placed, i, r) == 0.0
    decreases r, |w| + 1
  {
    if r > 0 {
      PlacedNeverHitUpTo(w, placed, i, r, |w|);
    }
  }

  lemma {:induction false} PlacedNeverHitUpTo(w: seq<real>, placed: set<nat>, i: nat, r: nat, j: nat)
    requires Positive(w) && i < |w| && i in placed && r > 0 && j <= |w|
    ensures HitUpTo(w, placed, i, r, j) == 0.0
    decreases r, j
  {
    if j > 0 {
      PlacedNeverHitUpTo(w, placed, i, r, j - 1);
      if j - 1 !in placed {
        PlacedNeverHit(w, placed + {j - 1}, i, r - 1);
      }
    }
  }

  /** Being drawn after exactly `r` picks is what separates `r` picks without
      the player from `r + 1`. */
  lemma {:induction false} HitIsDrop(w: seq<real>, placed: set<nat>, i: nat, r: nat)
    requires Positive(w) && i < |w| && i !in placed
    ensures Hit(w, placed, i, r) == Unplaced(w, placed, i, r) - Unplaced(w, placed, i, r + 1)
    decreases r, |w| + 1
  {
    hide *;
    HitUnfold(w, placed, i, r, i);
    UnplacedUnfold(w, placed, i, r + 1, i);
    UnplacedZero(w, placed, i);
    if r == 0 {
      UnplacedOnce(w, placed, i, |w|);
      ChoicesSumToOne(w, placed, i);
    } else {
      UnplacedUnfold(w, placed, i, r, i);
      HitIsDropUpTo(w, placed, i, r, |w|);
    }
  }

  lemma UnplacedZero(w: seq<real>, placed: set<nat>, i: nat)
    requires Positive(w) && i < |w| && i !in placed
    ensures Unplaced(w, placed, i, 0) == 1.0
  {
  }

  lemma {:induction false} UnplacedOnce(w: seq<real>, placed: set<nat>, i: nat, j: nat)
    requires Positive(w) && i < |w| && i !in placed && j <= |w|
    ensures UnplacedUpTo(w, placed, i, 1, j)
      == ChoiceSum(w, placed, j) - if i < j then Choice(w, placed, i) else 0.0
  {
    hide Choice;
    if j > 0 {
      UnplacedOnce(w, placed, i, j - 1);
    }
  }

  lemma {:induction false} HitIsDropUpTo(w: seq<real>, placed: set<nat>, i: nat, r: nat, j: nat)
    requires Positive(w) && i < |w| && i !in placed && r > 0 && j <= |w|
    ensures HitUpTo(w, placed, i, r, j)
      == UnplacedUpTo(w, placed, i, r, j) - UnplacedUpTo(w, placed, i, r + 1, j)
    decreases r, j
  {
    hide *;
    if j == 0 {
      HitUnfold(w, placed, i, r, i);
      UnplacedUnfold(w, placed, i, r, i);
      UnplacedUnfold(w, placed, i, r + 1, i);
    } else {
      HitIsDropUpTo(w, placed, i, r, j - 1);
      HitUnfold(w, placed, i, r, j);
      UnplacedUnfold(w, placed, i, r, j);
      UnplacedUnfold(w, placed, i, r + 1, j);
      if j - 1 == i {
        PlacedNeverHit(w, placed + {i}, i, r - 1);
      } else if j - 1 !in placed {
        HitIsDrop(w, placed + {j - 1}, i, r - 1);
        ProductDifference(Choice(w, placed, j - 1), Hit(w, placed + {j - 1}, i, r - 1),
                          Unplaced(w, placed + {j - 1}, i, r - 1), Unplaced(w, placed + {j - 1}, i, r));
      }
    }
  }

  lemma ProductDifference(c: real, d: real, x: real, y: real)
    requires d == x - y
    ensures c * d == c * x - c * y
  {
  }

  /** The player cannot stay unplaced once all open places are drawn. */
  lemma {:induction false} EverybodyPlaced(w: seq<real>, placed: set<nat>, i: nat, m: nat)
    requires Positive(w) && i < |w| && i !in placed && placed <= Players(|w|)
    requires m + |placed| >= |w|
    ensures Unplaced(w, placed, i, m) == 0.0
    decreases m, |w| + 1
  {
    hide *;
    if m == 0 {
      PlayersRange(|w|);
      assert placed + {i} <= Players(|w|);
      OneMorePlaced(placed, i);
      SubsetCardinality(placed + {i}, Players(|w|));
      assert false;
    } else {
      UnplacedUnfold(w, placed, i, m, i);
      EverybodyPlacedUpTo(w, placed, i, m, |w|);
    }
  }

  lemma {:induction false} EverybodyPlacedUpTo(w: seq<real>, placed: set<nat>, i: nat, m: nat, j: nat)
    requires Positive(w) && i < |w| && i !in placed && placed <= Players(|w|)
    requires m + |placed| >= |w| && m > 0 && j <= |w|
    ensures UnplacedUpTo(w, placed, i, m, j) == 0.0
    decreases m, j
  {
    hide *;
    if j == 0 {
      UnplacedUnfold(w, placed, i, m, i);
    } else {
      EverybodyPlacedUpTo(w, placed, i, m, j - 1);
      UnplacedUnfold(w, placed, i, m, j);
      if j - 1 !in placed && j - 1 != i {
        OneMorePlaced(placed, j - 1);
        EverybodyPlaced(w, placed + {j - 1}, i, m - 1);
      }
    }
  }

  // ---------------------------------------------------------------------
  // Dominance
  // ---------------------------------------------------------------------

  lemma {:induction false} UnplacedNonNegative(w: seq<real>, placed: set<nat>, i: nat, m: nat)
    requires Positive(w) && i < |w| && i !in placed
    ensures Unplaced(w, placed, i, m) >= 0.0
    decreases m, |w| + 1
  {
    if m > 0 {
      UnplacedNonNegativeUpTo(w, placed, i, m, |w|);
    }
  }

  lemma {:induction false} UnplacedNonNegativeUpTo(w: seq<real>, placed: set<nat>, i: nat, m: nat, j: nat)
    requires Positive(w) && i < |w| && i !in placed && m > 0 && j <= |w|
    ensures UnplacedUpTo(w, placed, i, m, j) >= 0.0
    decreases m, j
  {
    hide *;
    if j == 0 {
      UnplacedUnfold(w, placed, i, m, i);
    } else {
      UnplacedNonNegativeUpTo(w, placed, i, m, j - 1);
      UnplacedUnfold(w, placed, i, m, j);
      if j - 1 !in placed && j - 1 != i {
        UnplacedNonNegative(w, placed + {j - 1}, i, m - 1);
        ProductNonNegative(Choice(w, placed, j - 1), Unplaced(w, placed + {j - 1}, i, m - 1));
      }
    }
  }

  lemma ProductNonNegative(a: real, b: real)
    requires a >= 0.0 && b >= 0.0
    ensures a * b >= 0.0
  {
  }

  lemma ProductMonotone(a: real, b: real, c: real, d: real)
    requires 0.0 <= a <= c && 0.0 <= b <= d
    ensures a * b <= c * d
  {
    ProductNonNegative(a, d - b);
    ProductNonNegative(c - a, d);
  }

  /** Placing a player takes exactly its own weight out of the draw. */
  lemma {:induction false} RemainingWithout(w: seq<real>, placed: set<nat>, i: nat, j: nat)
    requires i < |w| && i !in placed && j <= |w|
    ensures Remaining(w, placed + {i}, j) == Remaining(w, placed, j) - if i < j then w[i] else 0.0
  {
    if j > 0 {
      RemainingWithout(w, placed, i, j - 1);
    }
  }

  /** Placing the heavier player makes every third player's next pick likelier. */
  lemma ChoiceAfterHeavier(w: seq<real>, placed: set<nat>, a: nat, b: nat, t: nat)
    requires Positive(w) && a < |w| && b < |w| && t < |w| && w[a] >= w[b]
    requires a !in placed && b !in placed && t !in placed && t != a && t != b
    ensures Choice(w, placed + {b}, t) <= Choice(w, placed + {a}, t)
  {
    RemainingWithout(w, placed, a, |w|);
    RemainingWithout(w, placed, b, |w|);
    RemainingPositive(w, placed + {a}, t, |w|);
    RemainingPositive(w, placed + {b}, t, |w|);
    hide Remaining;
    QuotientAntitone(w[t], Remaining(w, placed + {a}, |w|), Remaining(w, placed + {b}, |w|));
  }

  lemma QuotientAntitone(x: real, low: real, high: real)
    requires x >= 0.0 && 0.0 < low <= high
    ensures x / high <= x / low
  {
    var q := x / high;
    assert q * high == x;
    assert q >= 0.0;
    ProductNonNegative(q, high - low);
    assert q * low <= x;
    QuotientBound(q, low, x);
  }

  lemma QuotientBound(q: real, low: real, x: real)
    requires 0.0 < low && q * low <= x
    ensures q <= x / low
  {
  }

  /** After the heavier player left, the lighter one is likelier to stay unplaced
      than the heavier would be had the lighter left. */
  lemma {:induction false} UnplacedAfterOther(w: seq<real>, placed: set<nat>, a: nat, b: nat, m: nat)
    requires Positive(w) && a < |w| && b < |w| && a != b && w[a] >= w[b]
    requires a !in placed && b !in placed
    ensures Unplaced(w, placed + {b}, a, m) <= Unplaced(w, placed + {a}, b, m)
    decreases m, |w| + 1
  {
    hide *;
    if m == 0 {
      UnplacedZero(w, placed + {b}, a);
      UnplacedZero(w, placed + {a}, b);
    } else {
      UnplacedUnfold(w, placed + {b}, a, m, a);
      UnplacedUnfold(w, placed + {a}, b, m, b);
      UnplacedAfterOtherUpTo(w, placed, a, b, m, |w|);
    }
  }

  lemma {:induction false} UnplacedAfterOtherUpTo(w: seq<real>, placed: set<nat>, a: nat, b: nat, m: nat, j: nat)
    requires Positive(w) && a < |w| && b < |w| && a != b && w[a] >= w[b]
    requires a !in placed && b !in placed && m > 0 && j <= |w|
    ensures UnplacedUpTo(w, placed + {b}, a, m, j) <= UnplacedUpTo(w, placed + {a}, b, m, j)
    decreases m, j
  {
    hide *;
    if j == 0 {
      UnplacedUnfold(w, placed + {b}, a, m, a);
      UnplacedUnfold(w, placed + {a}, b, m, b);
    } else {
      var t := j - 1;
      UnplacedAfterOtherUpTo(w, placed, a, b, m, t);
      UnplacedUnfold(w, placed + {b}, a, m, j);
      UnplacedUnfold(w, placed + {a}, b, m, j);
      if t !in placed && t != a && t != b {
        ChoiceAfterHeavier(w, placed, a, b, t);
        UnplacedAfterOther(w, placed + {t}, a, b, m - 1);
        assert placed + {b} + {t} == placed + {t} + {b};
        assert placed + {a} + {t} == placed + {t} + {a};
        UnplacedNonNegative(w, placed + {b} + {t}, a, m - 1);
        ProductMonotone(Choice(w, placed + {b}, t), Unplaced(w, placed + {b} + {t}, a, m - 1),
                        Choice(w, placed + {a}, t), Unplaced(w, placed + {a} + {t}, b, m - 1));
      }
    }
  }

  /** The heavier player is at most as likely to be outside the next `m` picks. */
  lemma {:induction false} HeavierPlacedSooner(w: seq<real>, placed: set<nat>, a: nat, b: nat, m: nat)
    requires Positive(w) && a < |w| && b < |w| && w[a] >= w[b]
    requires a !in placed && b !in placed
    ensures Unplaced(w, placed, a, m) <= Unplaced(w, placed, b, m)
    decreases m, |w| + 1
  {
    hide *;
    if a != b {
      if m == 0 {
        UnplacedZero(w, placed, a);
        UnplacedZero(w, placed, b);
      } else {
        UnplacedUnfold(w, placed, a, m, a);
        UnplacedUnfold(w, placed, b, m, b);
        CrossTerm(w, placed, a, b, m);
        HeavierPlacedSoonerUpTo(w, placed, a, b, m, |w|);
      }
    }
  }

  lemma CrossTerm(w: seq<real>, placed: set<nat>, a: nat, b: nat, m: nat)
    requires Positive(w) && a < |w| && b < |w| && a != b && w[a] >= w[b] && m > 0
    requires a !in placed && b !in placed
    ensures Choice(w, placed, b) * Unplaced(w, placed + {b}, a, m - 1)
         <= Choice(w, placed, a) * Unplaced(w, placed + {a}, b, m - 1)
  {
    UnplacedAfterOther(w, placed, a, b, m - 1);
    UnplacedNonNegative(w, placed + {b}, a, m - 1);
    ChoiceMonotone(w, placed, a, b);
    hide *;
    ProductMonotone(Choice(w, placed, b), Unplaced(w, placed + {b}, a, m - 1),
                    Choice(w, placed, a), Unplaced(w, placed + {a}, b, m - 1));
  }

  lemma ChoiceMonotone(w: seq<real>, placed: set<nat>, a: nat, b: nat)
    requires Positive(w) && a < |w| && b < |w| && w[a] >= w[b] && a !in placed && b !in placed
    ensures Choice(w, placed, b) <= Choice(w, placed, a)
  {
    RemainingPositive(w, placed, a, |w|);
    hide Remaining;
    QuotientMonotone(w[b], w[a], Remaining(w, placed, |w|));
  }

  lemma QuotientMonotone(x: real, y: real, d: real)
    requires x <= y && d > 0.0
    ensures x / d <= y / d
  {
    assert (x / d) * d == x;
    QuotientBound(x / d, d, y);
  }

  lemma {:induction false} HeavierPlacedSoonerUpTo(w: seq<real>, placed: set<nat>, a: nat, b: nat, m: nat, j: nat)
    requires Positive(w) && a < |w| && b < |w| && a != b && w[a] >= w[b]
    requires a !in placed && b !in placed && m > 0 && j <= |w|
    ensures UnplacedUpTo(w, placed, a, m, j)
         - (if b < j then Choice(w, placed, b) * Unplaced(w, placed + {b}, a, m - 1) else 0.0)
         <= UnplacedUpTo(w, placed, b, m, j)
         - (if a < j then Choice(w, placed, a) * Unplaced(w, placed + {a}, b, m - 1) else 0.0)
    decreases m, j
  {
    hide *;
    if j == 0 {
      UnplacedUnfold(w, placed, a, m, a);
      UnplacedUnfold(w, placed, b, m, b);
    } else {
      var t := j - 1;
      HeavierPlacedSoonerUpTo(w, placed, a, b, m, t);
      UnplacedUnfold(w, placed, a, m, j);
      UnplacedUnfold(w, placed, b, m, j);
      if t !in placed && t != a && t != b {
        HeavierPlacedSooner(w, placed + {t}, a, b, m - 1);
        UnplacedNonNegative(w, placed + {t}, a, m - 1);
        ProductMonotone(Choice(w, placed, t), Unplaced(w, placed + {t}, a, m - 1),
                        Choice(w, placed, t), Unplaced(w, placed + {t}, b, m - 1));
      }
    }
  }

  // ---------------------------------------------------------------------
  // The laws, stated about the sum over all orderings
  // ---------------------------------------------------------------------

  /** Probability that `i` finishes among the first `m` places. */
  ghost function TopProbability(w: seq<real>, i: nat, m: nat): real
    requires Positive(w) && i < |w| && m <= |w|
  {
    if m == 0 then 0.0 else TopProbability(w, i, m - 1) + PlaceProbability(w, i, m - 1)
  }

  /** Probability that a player below `m` finishes on place `k`. */
  ghost function PlaceTaken(w: seq<real>, k: nat, m: nat): real
    requires Positive(w) && k < |w| && m <= |w|
  {
    if m == 0 then 0.0 else PlaceTaken(w, k, m - 1) + PlaceProbability(w, m - 1, k)
  }

  /** One-based places below `m + 1`, weighted by their probabilities. */
  ghost function ExpectedPlaceUpTo(w: seq<real>, i: nat, m: nat): real
    requires Positive(w) && i < |w| && m <= |w|
  {
    if m == 0 then 0.0
    else ExpectedPlaceUpTo(w, i, m - 1) + (m as real) * PlaceProbability(w, i, m - 1)
  }

  ghost function ExpectedPlace(w: seq<real>, i: nat): real
    requires Positive(w) && i < |w|
  {
    ExpectedPlaceUpTo(w, i, |w|)
  }

  ghost function ExpectedPlaceSum(w: seq<real>, players: nat, m: nat): real
    requires Positive(w) && players <= |w| && m <= |w|
  {
    if players == 0 then 0.0
    else ExpectedPlaceSum(w, players - 1, m) + ExpectedPlaceUpTo(w, players - 1, m)
  }

  /** Finishing in the top `m` is the complement of staying unplaced for `m` picks. */
  lemma {:induction false} TopIsPlaced(w: seq<real>, i: nat, m: nat)
    requires Positive(w) && i < |w| && m <= |w|
    ensures TopProbability(w, i, m) == 1.0 - Unplaced(w, {}, i, m)
  {
    hide PlaceProbability, Hit, Unplaced;
    UnplacedZero(w, {}, i);
    if m > 0 {
      TopIsPlaced(w, i, m - 1);
      PlaceProbabilityIsHit(w, i, m - 1);
      HitIsDrop(w, {}, i, m - 1);
    }
  }

  lemma {:induction false} HitNonNegative(w: seq<real>, placed: set<nat>, i: nat, r: nat)
    requires Positive(w) && i < |w|
    ensures Hit(w, placed, i, r) >= 0.0
    decreases r, |w| + 1
  {
    hide *;
    HitUnfold(w, placed, i, r, 0);
    if r > 0 {
      HitNonNegativeUpTo(w, placed, i, r, |w|);
    }
  }

  lemma {:induction false} HitNonNegativeUpTo(w: seq<real>, placed: set<nat>, i: nat, r: nat, j: nat)
    requires Positive(w) && i < |w| && r > 0 && j <= |w|
    ensures HitUpTo(w, placed, i, r, j) >= 0.0
    decreases r, j
  {
    hide *;
    HitUnfold(w, placed, i, r, j);
    if j > 0 {
      HitNonNegativeUpTo(w, placed, i, r, j - 1);
      if j - 1 !in placed {
        HitNonNegative(w, placed + {j - 1}, i, r - 1);
        ProductNonNegative(Choice(w, placed, j - 1), Hit(w, placed + {j - 1}, i, r - 1));
      }
    }
  }

  lemma {:induction false} TopNonNegative(w: seq<real>, i: nat, m: nat)
    requires Positive(w) && i < |w| && m <= |w|
    ensures TopProbability(w, i, m) >= 0.0
  {
    hide PlaceProbability;
    if m > 0 {
      TopNonNegative(w, i, m - 1);
      PlaceProbabilityIsHit(w, i, m - 1);
      HitNonNegative(w, {}, i, m - 1);
    }
  }

  /** Every entry of the distribution is a probability. */
  lemma EntryIsProbability(w: seq<real>, i: nat, k: nat)
    requires Positive(w) && i < |w| && k < |w|
    ensures 0.0 <= PlaceProbability(w, i, k) <= 1.0
  {
    PlaceProbabilityIsHit(w, i, k);
    HitNonNegative(w, {}, i, k);
    TopIsPlaced(w, i, k + 1);
    UnplacedNonNegative(w, {}, i, k + 1);
    TopNonNegative(w, i, k);
    assert TopProbability(w, i, k + 1) == TopProbability(w, i, k) + PlaceProbability(w, i, k);
    hide PlaceProbability, Unplaced, Hit;
  }

  /** Row law: a player's place probabilities sum to one. */
  lemma PlacesSumToOne(w: seq<real>, i: nat)
    requires Positive(w) && i < |w|
    ensures TopProbability(w, i, |w|) == 1.0
  {
    TopIsPlaced(w, i, |w|);
    EverybodyPlaced(w, {}, i, |w|);
  }

  lemma {:induction false} PlaceTakenIsColumn(w: seq<real>, k: nat, m: nat)
    requires Positive(w) && k < |w| && m <= |w|
    ensures PlaceTaken(w, k, m) == Column(w, {}, k, m)
  {
    hide PlaceProbability, Hit;
    if m > 0 {
      PlaceTakenIsColumn(w, k, m - 1);
      PlaceProbabilityIsHit(w, m - 1, k);
    }
  }

  /** Column law: every place is taken with probability one. */
  lemma PlayersSumToOne(w: seq<real>, k: nat)
    requires Positive(w) && k < |w|
    ensures PlaceTaken(w, k, |w|) == 1.0
  {
    PlaceTakenIsColumn(w, k, |w|);
    ColumnSumsToOne(w, {}, k);
  }

  lemma {:induction false} ExpectedPlaceSumStep(w: seq<real>, players: nat, m: nat)
    requires Positive(w) && players <= |w| && m < |w|
    ensures ExpectedPlaceSum(w, players, m + 1)
      == ExpectedPlaceSum(w, players, m) + ((m + 1) as real) * PlaceTaken(w, m, players)
  {
    hide PlaceProbability;
    if players > 0 {
      ExpectedPlaceSumStep(w, players - 1, m);
    }
  }

  lemma {:induction false} ExpectedPlaceSumZero(w: seq<real>, players: nat)
    requires Positive(w) && players <= |w|
    ensures ExpectedPlaceSum(w, players, 0) == 0.0
  {
    if players > 0 {
      ExpectedPlaceSumZero(w, players - 1);
    }
  }

  lemma {:induction false} ExpectedPlacesUpTo(w: seq<real>, m: nat)
    requires Positive(w) && m <= |w|
    ensures ExpectedPlaceSum(w, |w|, m) == (m * (m + 1) / 2) as real
  {
    hide PlaceProbability, ExpectedPlaceUpTo;
    if m == 0 {
      ExpectedPlaceSumZero(w, |w|);
    } else {
      ExpectedPlacesUpTo(w, m - 1);
      ExpectedPlaceSumStep(w, |w|, m - 1);
      PlayersSumToOne(w, m - 1);
      hide *;
      Triangle(m);
    }
  }

  lemma Triangle(m: nat)
    requires m > 0
    ensures (m * (m + 1) / 2) as real == ((m - 1) * m / 2) as real + m as real
  {
    assert m * (m + 1) == (m - 1) * m + 2 * m;
  }

  /** The expected places of a room of `n` players sum to `n (n + 1) / 2`. */
  lemma ExpectedPlacesSum(w: seq<real>)
    requires Positive(w)
    ensures ExpectedPlaceSum(w, |w|, |w|) == (|w| * (|w| + 1) / 2) as real
  {
    ExpectedPlacesUpTo(w, |w|);
  }

  /** Stochastic dominance: a player with at least another's weight is at least
      as likely to finish in the top `m`, for every `m`. */
  lemma HeavierDominates(w: seq<real>, a: nat, b: nat, m: nat)
    requires Positive(w) && a < |w| && b < |w| && w[a] >= w[b] && m <= |w|
    ensures TopProbability(w, a, m) >= TopProbability(w, b, m)
  {
    TopIsPlaced(w, a, m);
    TopIsPlaced(w, b, m);
    HeavierPlacedSooner(w, {}, a, b, m);
  }

  /** Summation by parts over the places. */
  lemma {:induction false} ExpectedPlaceByParts(w: seq<real>, a: nat, b: nat, m: nat)
    requires Positive(w) && a < |w| && b < |w| && m <= |w|
    requires forall t: nat :: t <= m ==> TopProbability(w, a, t) >= TopProbability(w, b, t)
    ensures ExpectedPlaceUpTo(w, a, m) - ExpectedPlaceUpTo(w, b, m)
         <= (m as real) * (TopProbability(w, a, m) - TopProbability(w, b, m))
  {
    hide PlaceProbability;
    if m > 0 {
      ExpectedPlaceByParts(w, a, b, m - 1);
      var gap := TopProbability(w, a, m - 1) - TopProbability(w, b, m - 1);
      assert gap >= 0.0;
      assert ((m - 1) as real) * gap <= (m as real) * gap;
      var drop := PlaceProbability(w, a, m - 1) - PlaceProbability(w, b, m - 1);
      ProductDifference(m as real, drop, PlaceProbability(w, a, m - 1), PlaceProbability(w, b, m - 1));
    }
  }

  /** A heavier player's expected place is no worse. */
  lemma HeavierExpectsBetter(w: seq<real>, a: nat, b: nat)
    requires Positive(w) && a < |w| && b < |w| && w[a] >= w[b]
    ensures ExpectedPlace(w, a) <= ExpectedPlace(w, b)
  {
    forall t: nat | t <= |w| ensures TopProbability(w, a, t) >= TopProbability(w, b, t) {
      HeavierDominates(w, a, b, t);
    }
    hide PlaceProbability, TopProbability, ExpectedPlaceUpTo;
    ExpectedPlaceByParts(w, a, b, |w|);
    PlacesSumToOne(w, a);
    PlacesSumToOne(w, b);
  }

  lemma EqualWeightsEqualPlaces(w: seq<real>, a: nat, b: nat, k: nat)
    requires Positive(w) && a < |w| && b < |w| && w[a] == w[b] && k < |w|
    ensures PlaceProbability(w, a, k) == PlaceProbability(w, b, k)
  {
    HeavierDominates(w, a, b, k);
    HeavierDominates(w, b, a, k);
    HeavierDominates(w, a, b, k + 1);
    HeavierDominates(w, b, a, k + 1);
  }

  lemma {:induction false} EqualShares(w: seq<real>, i: nat, k: nat, m: nat)
    requires Positive(w) && i < |w| && k < |w| && m <= |w|
    requires forall j :: 0 <= j < |w| ==> w[j] == w[i]
    ensures PlaceTaken(w, k, m) == (m as real) * PlaceProbability(w, i, k)
  {
    hide PlaceProbability;
    if m > 0 {
      EqualShares(w, i, k, m - 1);
      EqualWeightsEqualPlaces(w, m - 1, i, k);
    }
  }

  /** A room of equal players gives everyone `1 / n` for every place. */
  lemma EqualRoomIsUniform(w: seq<real>, i: nat, k: nat)
    requires Positive(w) && i < |w| && k < |w|
    requires forall j :: 0 <= j < |w| ==> w[j] == w[i]
    ensures PlaceProbability(w, i, k) == 1.0 / (|w| as real)
  {
    EqualShares(w, i, k, |w|);
    PlayersSumToOne(w, k);
    hide PlaceProbability, PlaceTaken;
    assert (|w| as real) * PlaceProbability(w, i, k) == 1.0;
  }
}

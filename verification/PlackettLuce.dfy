/** The Plackett-Luce placement model, written twice.

    The first form is the definition: every ordering of the room has the product
    of its sequential choice probabilities, and a placement probability is the
    sum over the orderings that put the player on that place.

    The second form, `Hit`, follows the recursion of the sequential draw over
    the sets of players already placed. `PlaceMassIsHit` proves that both agree,
    so what is proved about either one holds for both. */
module PlackettLuce {

  ghost predicate Positive(w: seq<real>) {
    forall i :: 0 <= i < |w| ==> w[i] > 0.0
  }

  // ---------------------------------------------------------------------
  // Sequential choice
  // ---------------------------------------------------------------------

  /** The weight of the players below `j` that are not placed yet. */
  ghost function Remaining(w: seq<real>, placed: set<nat>, j: nat): real
    requires j <= |w|
  {
    if j == 0 then 0.0
    else Remaining(w, placed, j - 1) + if j - 1 in placed then 0.0 else w[j - 1]
  }

  lemma {:induction false} RemainingNonNegative(w: seq<real>, placed: set<nat>, j: nat)
    requires Positive(w) && j <= |w|
    ensures Remaining(w, placed, j) >= 0.0
  {
    if j > 0 {
      RemainingNonNegative(w, placed, j - 1);
    }
  }

  lemma {:induction false} RemainingPositive(w: seq<real>, placed: set<nat>, i: nat, j: nat)
    requires Positive(w) && i !in placed && i < j <= |w|
    ensures Remaining(w, placed, j) >= w[i] > 0.0
  {
    if i < j - 1 {
      RemainingPositive(w, placed, i, j - 1);
    } else {
      RemainingNonNegative(w, placed, i);
    }
  }

  /** Chance that `j` takes the next place. */
  ghost function Choice(w: seq<real>, placed: set<nat>, j: nat): (c: real)
    requires Positive(w) && j < |w| && j !in placed
    ensures c > 0.0
  {
    RemainingPositive(w, placed, j, |w|);
    w[j] / Remaining(w, placed, |w|)
  }

  // ---------------------------------------------------------------------
  // Definition: a sum over all orderings
  // ---------------------------------------------------------------------

  /** The players of `p`, best first, fill the next places after `placed`. */
  ghost predicate IsDraw(n: nat, placed: set<nat>, p: seq<nat>)
    decreases |p|
  {
    p == [] || (p[0] < n && p[0] !in placed && IsDraw(n, placed + {p[0]}, p[1..]))
  }

  /** Product of the sequential choice probabilities along the draw. */
  ghost function DrawProbability(w: seq<real>, placed: set<nat>, p: seq<nat>): real
    requires Positive(w) && IsDraw(|w|, placed, p)
    decreases |p|
  {
    if p == [] then 1.0
    else Choice(w, placed, p[0]) * DrawProbability(w, placed + {p[0]}, p[1..])
  }

  ghost function Prepend(j: nat, draws: seq<seq<nat>>): (r: seq<seq<nat>>)
    ensures |r| == |draws| && forall t :: 0 <= t < |r| ==> r[t] == [j] + draws[t]
  {
    seq(|draws|, t requires 0 <= t < |draws| => [j] + draws[t])
  }

  /** All draws of `m` more players. */
  ghost function Draws(n: nat, placed: set<nat>, m: nat): seq<seq<nat>>
    decreases m, n + 1
  {
    if m == 0 then [[]] else DrawsUpTo(n, placed, m, n)
  }

  /** All draws of `m` more players whose first one is below `j`. */
  ghost function DrawsUpTo(n: nat, placed: set<nat>, m: nat, j: nat): seq<seq<nat>>
    requires m > 0
    decreases m, j
  {
    if j == 0 then []
    else
      DrawsUpTo(n, placed, m, j - 1)
      + if j - 1 in placed then [] else Prepend(j - 1, Draws(n, placed + {j - 1}, m - 1))
  }

  /** The listed draws are draws after `placed`. */
  ghost predicate AreDraws(n: nat, placed: set<nat>, draws: seq<seq<nat>>) {
    forall t :: 0 <= t < |draws| ==> IsDraw(n, placed, draws[t])
  }

  /** The mass of the listed draws that put player `i` on their place `r`. */
  ghost function PlaceMass(w: seq<real>, placed: set<nat>, draws: seq<seq<nat>>, i: nat, r: nat): real
    requires Positive(w) && AreDraws(|w|, placed, draws)
  {
    if draws == [] then 0.0
    else
      (if r < |draws[0]| && draws[0][r] == i then DrawProbability(w, placed, draws[0]) else 0.0)
      + PlaceMass(w, placed, draws[1..], i, r)
  }

  /** Probability that player `i` finishes on the zero-based place `k`: the sum
      over all orderings of the room. */
  ghost function PlaceProbability(w: seq<real>, i: nat, k: nat): real
    requires Positive(w)
  {
    DrawsAreDraws(|w|, {}, |w|);
    PlaceMass(w, {}, Draws(|w|, {}, |w|), i, k)
  }

  // ---------------------------------------------------------------------
  // The enumeration lists every ordering exactly once
  // ---------------------------------------------------------------------

  lemma {:induction false} DrawsAreDraws(n: nat, placed: set<nat>, m: nat)
    ensures AreDraws(n, placed, Draws(n, placed, m))
    ensures forall t :: 0 <= t < |Draws(n, placed, m)| ==> |Draws(n, placed, m)[t]| == m
    decreases m, n + 1
  {
    if m > 0 {
      DrawsUpToAreDraws(n, placed, m, n);
    }
  }

  lemma {:induction false} DrawsUpToAreDraws(n: nat, placed: set<nat>, m: nat, j: nat)
    requires m > 0 && j <= n
    ensures AreDraws(n, placed, DrawsUpTo(n, placed, m, j))
    ensures forall t :: 0 <= t < |DrawsUpTo(n, placed, m, j)| ==>
      |DrawsUpTo(n, placed, m, j)[t]| == m && DrawsUpTo(n, placed, m, j)[t][0] < j
    decreases m, j
  {
    if j > 0 {
      DrawsUpToAreDraws(n, placed, m, j - 1);
      if j - 1 !in placed {
        DrawsAreDraws(n, placed + {j - 1}, m - 1);
        PrependDraws(n, placed, j - 1, Draws(n, placed + {j - 1}, m - 1));
      }
    }
  }

  lemma PrependDraws(n: nat, placed: set<nat>, j: nat, draws: seq<seq<nat>>)
    requires j < n && j !in placed && AreDraws(n, placed + {j}, draws)
    ensures AreDraws(n, placed, Prepend(j, draws))
  {
    forall t | 0 <= t < |draws| ensures IsDraw(n, placed, Prepend(j, draws)[t]) {
      assert ([j] + draws[t])[1..] == draws[t];
    }
  }

  /** No draw is missing. */
  lemma {:induction false} DrawsComplete(n: nat, placed: set<nat>, p: seq<nat>)
    requires IsDraw(n, placed, p)
    ensures p in Draws(n, placed, |p|)
    decreases |p|, n + 1
  {
    if p != [] {
      DrawsUpToComplete(n, placed, p, n);
    }
  }

  lemma {:induction false} DrawsUpToComplete(n: nat, placed: set<nat>, p: seq<nat>, j: nat)
    requires p != [] && IsDraw(n, placed, p) && p[0] < j <= n
    ensures p in DrawsUpTo(n, placed, |p|, j)
    decreases |p|, j
  {
    if p[0] < j - 1 {
      DrawsUpToComplete(n, placed, p, j - 1);
    } else {
      DrawsComplete(n, placed + {j - 1}, p[1..]);
      var rest := Draws(n, placed + {j - 1}, |p| - 1);
      var t :| 0 <= t < |rest| && rest[t] == p[1..];
      assert Prepend(j - 1, rest)[t] == p;
    }
  }

  ghost predicate NoRepeats(draws: seq<seq<nat>>) {
    forall s, t :: 0 <= s < t < |draws| ==> draws[s] != draws[t]
  }

  /** No draw is counted twice. */
  lemma {:induction false} DrawsNoRepeats(n: nat, placed: set<nat>, m: nat)
    ensures NoRepeats(Draws(n, placed, m))
    decreases m, n + 1
  {
    if m > 0 {
      DrawsUpToNoRepeats(n, placed, m, n);
    }
  }

  lemma {:induction false} DrawsUpToNoRepeats(n: nat, placed: set<nat>, m: nat, j: nat)
    requires m > 0 && j <= n
    ensures NoRepeats(DrawsUpTo(n, placed, m, j))
    decreases m, j
  {
    if j > 0 {
      DrawsUpToNoRepeats(n, placed, m, j - 1);
      if j - 1 !in placed {
        DrawsNoRepeats(n, placed + {j - 1}, m - 1);
        DrawsUpToAreDraws(n, placed, m, j - 1);
        var low, rest := DrawsUpTo(n, placed, m, j - 1), Draws(n, placed + {j - 1}, m - 1);
        var high := Prepend(j - 1, rest);
        forall s, t | 0 <= s < t < |high| ensures high[s] != high[t] {
          assert high[s][1..] == rest[s] && high[t][1..] == rest[t];
        }
        forall s, t | 0 <= s < |low| && 0 <= t < |high| ensures low[s] != high[t] {
          assert high[t][0] == j - 1;
        }
      }
    }
  }

  /** `p` lists every player of the room once. */
  ghost predicate IsOrdering(n: nat, p: seq<nat>) {
    && |p| == n
    && (forall t :: 0 <= t < |p| ==> p[t] < n)
    && (forall s, t :: 0 <= s < t < |p| ==> p[s] != p[t])
  }

  lemma {:induction false} DrawIsInjective(n: nat, placed: set<nat>, p: seq<nat>)
    ensures IsDraw(n, placed, p) <==>
      && (forall t :: 0 <= t < |p| ==> p[t] < n && p[t] !in placed)
      && (forall s, t :: 0 <= s < t < |p| ==> p[s] != p[t])
    decreases |p|
  {
    if p != [] {
      var rest := p[1..];
      DrawIsInjective(n, placed + {p[0]}, rest);
      assert forall t :: 0 <= t < |rest| ==> rest[t] == p[t + 1];
      assert forall t :: 1 <= t < |p| ==> p[t] == rest[t - 1];
    }
  }

  /** The definition sums over exactly the permutations of the room. */
  lemma OrderingsExact(n: nat, p: seq<nat>)
    ensures p in Draws(n, {}, n) <==> IsOrdering(n, p)
    ensures NoRepeats(Draws(n, {}, n))
  {
    DrawsAreDraws(n, {}, n);
    DrawsNoRepeats(n, {}, n);
    DrawIsInjective(n, {}, p);
    if IsOrdering(n, p) {
      DrawsComplete(n, {}, p);
    }
  }

  // ---------------------------------------------------------------------
  // The recursion over placed players
  // ---------------------------------------------------------------------

  /** Chance that `i` is drawn after exactly `r` other picks. */
  ghost function Hit(w: seq<real>, placed: set<nat>, i: nat, r: nat): real
    requires Positive(w) && i < |w|
    decreases r, |w| + 1
  {
    if r == 0 then if i in placed then 0.0 else Choice(w, placed, i)
    else HitUpTo(w, placed, i, r, |w|)
  }

  ghost function HitUpTo(w: seq<real>, placed: set<nat>, i: nat, r: nat, j: nat): real
    requires Positive(w) && i < |w| && r > 0 && j <= |w|
    decreases r, j
  {
    if j == 0 then 0.0
    else
      HitUpTo(w, placed, i, r, j - 1)
      + if j - 1 in placed then 0.0
        else Choice(w, placed, j - 1) * Hit(w, placed + {j - 1}, i, r - 1)
  }

  /** The choice probabilities of the players below `j`. */
  ghost function ChoiceSum(w: seq<real>, placed: set<nat>, j: nat): real
    requires Positive(w) && j <= |w|
  {
    if j == 0 then 0.0
    else ChoiceSum(w, placed, j - 1) + if j - 1 in placed then 0.0 else Choice(w, placed, j - 1)
  }

  lemma {:induction false} ChoiceSumShare(w: seq<real>, placed: set<nat>, j: nat)
    requires Positive(w) && j <= |w| && Remaining(w, placed, |w|) > 0.0
    ensures ChoiceSum(w, placed, j) == Remaining(w, placed, j) / Remaining(w, placed, |w|)
  {
    if j > 0 {
      ChoiceSumShare(w, placed, j - 1);
    }
  }

  lemma ChoicesSumToOne(w: seq<real>, placed: set<nat>, i: nat)
    requires Positive(w) && i < |w| && i !in placed
    ensures ChoiceSum(w, placed, |w|) == 1.0
  {
    RemainingPositive(w, placed, i, |w|);
    ChoiceSumShare(w, placed, |w|);
    Whole(Remaining(w, placed, |w|));
  }

  lemma Whole(a: real)
    requires a != 0.0
    ensures a / a == 1.0
  {
  }

  // ---------------------------------------------------------------------
  // Both forms agree
  // ---------------------------------------------------------------------

  ghost function TotalMass(w: seq<real>, placed: set<nat>, draws: seq<seq<nat>>): real
    requires Positive(w) && AreDraws(|w|, placed, draws)
  {
    if draws == [] then 0.0
    else DrawProbability(w, placed, draws[0]) + TotalMass(w, placed, draws[1..])
  }

  lemma {:induction false} TotalMassConcat(w: seq<real>, placed: set<nat>, a: seq<seq<nat>>, b: seq<seq<nat>>)
    requires Positive(w) && AreDraws(|w|, placed, a) && AreDraws(|w|, placed, b)
    ensures TotalMass(w, placed, a + b) == TotalMass(w, placed, a) + TotalMass(w, placed, b)
  {
    if a == [] {
      assert a + b == b;
    } else {
      TotalMassConcat(w, placed, a[1..], b);
      assert (a + b)[1..] == a[1..] + b;
    }
  }

  lemma {:induction false} PlaceMassConcat(
      w: seq<real>, placed: set<nat>, a: seq<seq<nat>>, b: seq<seq<nat>>, i: nat, r: nat)
    requires Positive(w) && AreDraws(|w|, placed, a) && AreDraws(|w|, placed, b)
    ensures PlaceMass(w, placed, a + b, i, r) == PlaceMass(w, placed, a, i, r) + PlaceMass(w, placed, b, i, r)
  {
    if a == [] {
      assert a + b == b;
    } else {
      PlaceMassConcat(w, placed, a[1..], b, i, r);
      assert (a + b)[1..] == a[1..] + b;
    }
  }

  lemma PrependDrawProbability(w: seq<real>, placed: set<nat>, j: nat, p: seq<nat>)
    requires Positive(w) && j < |w| && j !in placed && IsDraw(|w|, placed + {j}, p)
    ensures IsDraw(|w|, placed, [j] + p)
    ensures DrawProbability(w, placed, [j] + p) == Choice(w, placed, j) * DrawProbability(w, placed + {j}, p)
  {
    hide Choice;
    assert ([j] + p)[1..] == p;
  }

  lemma {:induction false} PrependTotalMass(w: seq<real>, placed: set<nat>, j: nat, draws: seq<seq<nat>>)
    requires Positive(w) && j < |w| && j !in placed && AreDraws(|w|, placed + {j}, draws)
    requires AreDraws(|w|, placed, Prepend(j, draws))
    ensures TotalMass(w, placed, Prepend(j, draws)) == Choice(w, placed, j) * TotalMass(w, placed + {j}, draws)
  {
    hide Choice;
    if draws != [] {
      var all := Prepend(j, draws);
      assert all[1..] == Prepend(j, draws[1..]);
      PrependTotalMass(w, placed, j, draws[1..]);
      PrependDrawProbability(w, placed, j, draws[0]);
    }
  }

  lemma {:induction false} PrependPlaceMass(
      w: seq<real>, placed: set<nat>, j: nat, draws: seq<seq<nat>>, i: nat, r: nat)
    requires Positive(w) && j < |w| && j !in placed && AreDraws(|w|, placed + {j}, draws)
    requires AreDraws(|w|, placed, Prepend(j, draws))
    ensures PlaceMass(w, placed, Prepend(j, draws), i, r)
      == if r > 0 then Choice(w, placed, j) * PlaceMass(w, placed + {j}, draws, i, r - 1)
         else if i == j then Choice(w, placed, j) * TotalMass(w, placed + {j}, draws)
         else 0.0
  {
    hide Choice, DrawProbability, IsDraw;
    if draws != [] {
      var all := Prepend(j, draws);
      assert all[1..] == Prepend(j, draws[1..]);
      PrependPlaceMass(w, placed, j, draws[1..], i, r);
      PrependDrawProbability(w, placed, j, draws[0]);
      assert 0 < r < |all[0]| ==> all[0][r] == draws[0][r - 1];
    }
  }

  ghost function Players(n: nat): (s: set<nat>)
    ensures forall j: nat :: j in s <==> j < n
  {
    if n == 0 then {} else Players(n - 1) + {n - 1}
  }

  lemma {:induction false} PlayersRange(n: nat)
    ensures |Players(n)| == n
  {
    if n > 0 {
      PlayersRange(n - 1);
    }
  }

  lemma SubsetCardinality(a: set<nat>, b: set<nat>)
    requires a <= b
    ensures |a| <= |b|
  {
    assert b == a + (b - a);
  }

  /** While places are open somebody is left. */
  lemma SomebodyLeft(n: nat, placed: set<nat>) returns (j: nat)
    requires |placed| < n
    ensures j < n && j !in placed
  {
    PlayersRange(n);
    if Players(n) <= placed {
      SubsetCardinality(Players(n), placed);
      assert false;
    }
    j :| j in Players(n) && j !in placed;
  }

  lemma {:induction false} DrawsTotalMass(w: seq<real>, placed: set<nat>, m: nat)
    requires Positive(w) && |placed| + m <= |w|
    requires AreDraws(|w|, placed, Draws(|w|, placed, m))
    ensures TotalMass(w, placed, Draws(|w|, placed, m)) == 1.0
    decreases m, |w| + 1
  {
    if m == 0 {
      assert TotalMass(w, placed, [[]][1..]) == 0.0;
    } else {
      var j := SomebodyLeft(|w|, placed);
      ChoicesSumToOne(w, placed, j);
      DrawsUpToTotalMass(w, placed, m, |w|);
    }
  }

  lemma TotalMassSplit(w: seq<real>, placed: set<nat>, m: nat, j: nat)
    requires Positive(w) && m > 0 && 0 < j <= |w| && j - 1 !in placed
    ensures AreDraws(|w|, placed + {j - 1}, Draws(|w|, placed + {j - 1}, m - 1))
    ensures AreDraws(|w|, placed, DrawsUpTo(|w|, placed, m, j - 1))
    ensures AreDraws(|w|, placed, DrawsUpTo(|w|, placed, m, j))
    ensures TotalMass(w, placed, DrawsUpTo(|w|, placed, m, j))
      == TotalMass(w, placed, DrawsUpTo(|w|, placed, m, j - 1))
         + Choice(w, placed, j - 1) * TotalMass(w, placed + {j - 1}, Draws(|w|, placed + {j - 1}, m - 1))
  {
    hide TotalMass, Choice, IsDraw;
    var rest := Draws(|w|, placed + {j - 1}, m - 1);
    DrawsUpToAreDraws(|w|, placed, m, j - 1);
    DrawsUpToAreDraws(|w|, placed, m, j);
    DrawsAreDraws(|w|, placed + {j - 1}, m - 1);
    PrependDraws(|w|, placed, j - 1, rest);
    PrependTotalMass(w, placed, j - 1, rest);
    TotalMassConcat(w, placed, DrawsUpTo(|w|, placed, m, j - 1), Prepend(j - 1, rest));
  }

  lemma {:induction false} DrawsUpToTotalMass(w: seq<real>, placed: set<nat>, m: nat, j: nat)
    requires Positive(w) && m > 0 && |placed| + m <= |w| && j <= |w|
    ensures AreDraws(|w|, placed, DrawsUpTo(|w|, placed, m, j))
    ensures TotalMass(w, placed, DrawsUpTo(|w|, placed, m, j)) == ChoiceSum(w, placed, j)
    decreases m, j
  {
    hide DrawsUpTo, IsDraw, AreDraws, Choice, Draws;
    DrawsUpToAreDraws(|w|, placed, m, j);
    if j == 0 {
      DrawsUpToEnds(|w|, placed, m, 0);
    } else {
      DrawsUpToTotalMass(w, placed, m, j - 1);
      DrawsUpToEnds(|w|, placed, m, j);
      if j - 1 !in placed {
        TotalMassSplit(w, placed, m, j);
        OneMorePlaced(placed, j - 1);
        DrawsTotalMass(w, placed + {j - 1}, m - 1);
      }
    }
  }

  /** The draws that put `i` on place `r` carry the mass of `Hit`. */
  lemma {:induction false} PlaceMassIsHit(w: seq<real>, placed: set<nat>, m: nat, i: nat, r: nat)
    requires Positive(w) && |placed| + m <= |w| && r < m && i < |w|
    requires AreDraws(|w|, placed, Draws(|w|, placed, m))
    ensures PlaceMass(w, placed, Draws(|w|, placed, m), i, r) == Hit(w, placed, i, r)
    decreases m, |w| + 1
  {
    if r == 0 {
      FirstPlaceMass(w, placed, m, i, |w|);
    } else {
      LaterPlaceMass(w, placed, m, i, r, |w|);
    }
  }

  /** Splits off the draws that start with player `j`. */
  lemma PlaceMassSplit(w: seq<real>, placed: set<nat>, m: nat, i: nat, r: nat, j: nat)
    requires Positive(w) && m > 0 && 0 < j <= |w| && j - 1 !in placed
    ensures AreDraws(|w|, placed + {j - 1}, Draws(|w|, placed + {j - 1}, m - 1))
    ensures AreDraws(|w|, placed, DrawsUpTo(|w|, placed, m, j - 1))
    ensures AreDraws(|w|, placed, DrawsUpTo(|w|, placed, m, j))
    ensures PlaceMass(w, placed, DrawsUpTo(|w|, placed, m, j), i, r)
      == PlaceMass(w, placed, DrawsUpTo(|w|, placed, m, j - 1), i, r)
         + if r > 0 then
             Choice(w, placed, j - 1)
             * PlaceMass(w, placed + {j - 1}, Draws(|w|, placed + {j - 1}, m - 1), i, r - 1)
           else if i == j - 1 then
             Choice(w, placed, j - 1) * TotalMass(w, placed + {j - 1}, Draws(|w|, placed + {j - 1}, m - 1))
           else 0.0
  {
    hide PlaceMass, TotalMass, Choice, IsDraw;
    var rest := Draws(|w|, placed + {j - 1}, m - 1);
    DrawsUpToAreDraws(|w|, placed, m, j - 1);
    DrawsUpToAreDraws(|w|, placed, m, j);
    DrawsAreDraws(|w|, placed + {j - 1}, m - 1);
    PrependDraws(|w|, placed, j - 1, rest);
    PrependPlaceMass(w, placed, j - 1, rest, i, r);
    PlaceMassConcat(w, placed, DrawsUpTo(|w|, placed, m, j - 1), Prepend(j - 1, rest), i, r);
  }

  lemma DrawsUpToEnds(n: nat, placed: set<nat>, m: nat, j: nat)
    requires m > 0
    ensures DrawsUpTo(n, placed, m, 0) == []
    ensures j > 0 && j - 1 in placed ==> DrawsUpTo(n, placed, m, j) == DrawsUpTo(n, placed, m, j - 1)
  {
  }

  lemma NothingMass(w: seq<real>, placed: set<nat>, i: nat, r: nat)
    requires Positive(w)
    ensures PlaceMass(w, placed, [], i, r) == 0.0
  {
  }

  lemma HitUnfold(w: seq<real>, placed: set<nat>, i: nat, r: nat, j: nat)
    requires Positive(w) && i < |w| && j <= |w|
    ensures Hit(w, placed, i, 0) == if i in placed then 0.0 else Choice(w, placed, i)
    ensures r > 0 ==> Hit(w, placed, i, r) == HitUpTo(w, placed, i, r, |w|)
    ensures r > 0 ==> HitUpTo(w, placed, i, r, 0) == 0.0
    ensures r > 0 && j > 0 ==> (HitUpTo(w, placed, i, r, j) == HitUpTo(w, placed, i, r, j - 1)
      + if j - 1 in placed then 0.0 else Choice(w, placed, j - 1) * Hit(w, placed + {j - 1}, i, r - 1))
  {
  }

  lemma OneMorePlaced(placed: set<nat>, j: nat)
    requires j !in placed
    ensures |placed + {j}| == |placed| + 1
  {
  }

  lemma {:induction false} FirstPlaceMass(w: seq<real>, placed: set<nat>, m: nat, i: nat, j: nat)
    requires Positive(w) && m > 0 && |placed| + m <= |w| && i < |w| && j <= |w|
    ensures AreDraws(|w|, placed, DrawsUpTo(|w|, placed, m, j))
    ensures PlaceMass(w, placed, DrawsUpTo(|w|, placed, m, j), i, 0)
      == if i < j then Hit(w, placed, i, 0) else 0.0
    decreases m, j
  {
    hide *;
    DrawsUpToAreDraws(|w|, placed, m, j);
    HitUnfold(w, placed, i, 0, i);
    if j == 0 {
      NothingMass(w, placed, i, 0);
      DrawsUpToEnds(|w|, placed, m, 0);
    } else {
      FirstPlaceMass(w, placed, m, i, j - 1);
      DrawsUpToEnds(|w|, placed, m, j);
      if j - 1 !in placed {
        PlaceMassSplit(w, placed, m, i, 0, j);
        OneMorePlaced(placed, j - 1);
        DrawsTotalMass(w, placed + {j - 1}, m - 1);
      }
    }
  }

  lemma {:induction false} LaterPlaceMass(w: seq<real>, placed: set<nat>, m: nat, i: nat, r: nat, j: nat)
    requires Positive(w) && |placed| + m <= |w| && 0 < r < m && i < |w| && j <= |w|
    ensures AreDraws(|w|, placed, DrawsUpTo(|w|, placed, m, j))
    ensures PlaceMass(w, placed, DrawsUpTo(|w|, placed, m, j), i, r) == HitUpTo(w, placed, i, r, j)
    decreases m, j
  {
    hide *;
    DrawsUpToAreDraws(|w|, placed, m, j);
    if j == 0 {
      NothingMass(w, placed, i, r);
      DrawsUpToEnds(|w|, placed, m, 0);
      HitUnfold(w, placed, i, r, i);
    } else {
      LaterPlaceMass(w, placed, m, i, r, j - 1);
      DrawsUpToEnds(|w|, placed, m, j);
      HitUnfold(w, placed, i, r, j);
      if j - 1 !in placed {
        PlaceMassSplit(w, placed, m, i, r, j);
        OneMorePlaced(placed, j - 1);
        PlaceMassIsHit(w, placed + {j - 1}, m - 1, i, r - 1);
      }
    }
  }

  /** The recursion computes the sum over all orderings. */
  lemma PlaceProbabilityIsHit(w: seq<real>, i: nat, k: nat)
    requires Positive(w) && i < |w| && k < |w|
    ensures PlaceProbability(w, i, k) == Hit(w, {}, i, k)
  {
    DrawsAreDraws(|w|, {}, |w|);
    PlaceMassIsHit(w, {}, |w|, i, k);
  }
}

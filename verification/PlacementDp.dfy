/** The subset dynamic program of the placement model, over the selection states
    `0 .. 2^n` in the order the loops visit them. */
module PlacementDp {
  import opened BitMask
  import opened PlackettLuce

  /** The players a selection state has already placed. */
  ghost function Selected(n: nat, mask: nat): (s: set<nat>)
    ensures forall i: nat :: i in s <==> i < n && Has(mask, i)
  {
    set i: nat | i in Players(n) && Has(mask, i)
  }

  lemma SelectedGrows(n: nat, mask: nat, i: nat)
    requires i < n && !Has(mask, i)
    ensures Selected(n, mask + Pow2(i)) == Selected(n, mask) + {i}
  {
    forall j: nat ensures Has(mask + Pow2(i), j) <==> j == i || Has(mask, j) {
      SetBit(mask, i, j);
    }
  }

  lemma NothingSelected(n: nat)
    ensures Selected(n, 0) == {}
  {
    forall i: nat ensures !Has(0, i) {
      EmptyMask(i);
    }
  }

  /** The chance that `i` is drawn after `r` more picks, averaged over the states
      below `m` with the masses in `st`. Each level of the program moves the
      masses on without changing it. */
  ghost function Potential(w: seq<real>, st: seq<real>, i: nat, r: nat, m: nat): real
    requires Positive(w) && i < |w| && m <= |st|
  {
    if m == 0 then 0.0
    else Potential(w, st, i, r, m - 1) + st[m - 1] * Hit(w, Selected(|w|, m - 1), i, r)
  }

  lemma {:induction false} PotentialAdd(w: seq<real>, st: seq<real>, t: nat, mass: real, i: nat, r: nat, m: nat)
    requires Positive(w) && i < |w| && m <= |st| && t < |st|
    ensures Potential(w, st[t := st[t] + mass], i, r, m)
      == Potential(w, st, i, r, m) + if t < m then mass * Hit(w, Selected(|w|, t), i, r) else 0.0
  {
    hide Hit;
    if m > 0 {
      PotentialAdd(w, st, t, mass, i, r, m - 1);
    }
  }

  lemma {:induction false} PotentialEmpty(w: seq<real>, st: seq<real>, i: nat, r: nat, m: nat)
    requires Positive(w) && i < |w| && m <= |st|
    requires forall s :: 0 <= s < |st| ==> st[s] == 0.0
    ensures Potential(w, st, i, r, m) == 0.0
  {
    hide Hit;
    if m > 0 {
      PotentialEmpty(w, st, i, r, m - 1);
    }
  }

  lemma PotentialStart(w: seq<real>, zeros: seq<real>, i: nat, r: nat)
    requires Positive(w) && i < |w| && |zeros| > 0
    requires forall s :: 0 <= s < |zeros| ==> zeros[s] == 0.0
    ensures Potential(w, zeros[0 := 1.0], i, r, |zeros|) == Hit(w, {}, i, r)
  {
    hide Hit, Potential;
    PotentialAdd(w, zeros, 0, 1.0, i, r, |zeros|);
    PotentialEmpty(w, zeros, i, r, |zeros|);
    NothingSelected(|w|);
  }

  /** Masses sit on states with exactly `k` selected players. */
  ghost predicate OnLevel(st: seq<real>, k: nat) {
    forall s :: 0 <= s < |st| && st[s] != 0.0 ==> OnesCount(s) == k
  }

  /** Multiplication under a name, so that a proof can keep it out of sight. */
  ghost function Times(a: real, b: real): real {
    a * b
  }

  /** `after` holds the masses of `before` plus those that one state with mass
      `mass` passed on to the players below `j`. */
  ghost predicate PassedOn(w: seq<real>, before: seq<real>, after: seq<real>, placed: set<nat>, mass: real, j: nat)
    requires Positive(w) && j <= |w|
  {
    && |before| == |after|
    && forall i: nat, r: nat :: i < |w| ==>
      Potential(w, after, i, r, |after|) == Potential(w, before, i, r, |before|)
        + Times(mass, NextHit(w, placed, i, r, j))
  }

  /** `i` is drawn after `r` picks that follow a pick below `j`. */
  ghost function NextHit(w: seq<real>, placed: set<nat>, i: nat, r: nat, j: nat): real
    requires Positive(w) && i < |w| && j <= |w|
  {
    HitUpTo(w, placed, i, r + 1, j)
  }

  lemma PassedOnNothing(w: seq<real>, st: seq<real>, placed: set<nat>, mass: real)
    requires Positive(w)
    ensures PassedOn(w, st, st, placed, mass, 0)
  {
    hide Potential, HitUpTo, Hit;
    forall i: nat, r: nat | i < |w| ensures NextHit(w, placed, i, r, 0) == 0.0 {
      HitUnfold(w, placed, i, r + 1, 0);
    }
  }

  lemma PassedOnSkip(w: seq<real>, before: seq<real>, after: seq<real>, placed: set<nat>, mass: real, j: nat)
    requires Positive(w) && j < |w| && j in placed
    requires PassedOn(w, before, after, placed, mass, j)
    ensures PassedOn(w, before, after, placed, mass, j + 1)
  {
    hide Potential, HitUpTo, Hit;
    forall i: nat, r: nat | i < |w| ensures NextHit(w, placed, i, r, j + 1) == NextHit(w, placed, i, r, j) {
      HitUnfold(w, placed, i, r + 1, j + 1);
    }
  }

  /** Passing a joint probability on extends the players served by one. */
  lemma PassedOnStep(
      w: seq<real>, before: seq<real>, mid: seq<real>, after: seq<real>, selected: nat, mass: real, joint: real, j: nat)
    requires Positive(w) && j < |w| && !Has(selected, j) && selected + Pow2(j) < |mid|
    requires PassedOn(w, before, mid, Selected(|w|, selected), mass, j)
    requires joint == Times(mass, Choice(w, Selected(|w|, selected), j))
    requires after == mid[selected + Pow2(j) := mid[selected + Pow2(j)] + joint]
    ensures PassedOn(w, before, after, Selected(|w|, selected), mass, j + 1)
  {
    hide Potential, HitUpTo, NextHit, Hit, Choice, Selected, Has, Pow2;
    forall i: nat, r: nat | i < |w|
      ensures Potential(w, after, i, r, |after|)
        == Potential(w, before, i, r, |before|) + Times(mass, NextHit(w, Selected(|w|, selected), i, r, j + 1))
    {
      PassedOnStepAt(w, before, mid, after, selected, mass, joint, j, i, r);
    }
  }

  lemma PassedOnStepAt(
      w: seq<real>, before: seq<real>, mid: seq<real>, after: seq<real>, selected: nat, mass: real, joint: real,
                       j: nat, i: nat, r: nat)
    requires Positive(w) && i < |w| && j < |w| && !Has(selected, j) && selected + Pow2(j) < |mid|
    requires Potential(w, mid, i, r, |mid|)
      == Potential(w, before, i, r, |before|) + Times(mass, NextHit(w, Selected(|w|, selected), i, r, j))
    requires joint == Times(mass, Choice(w, Selected(|w|, selected), j))
    requires after == mid[selected + Pow2(j) := mid[selected + Pow2(j)] + joint]
    ensures Potential(w, after, i, r, |after|)
      == Potential(w, before, i, r, |before|) + Times(mass, NextHit(w, Selected(|w|, selected), i, r, j + 1))
  {
    var placed := Selected(|w|, selected);
    SelectedGrows(|w|, selected, j);
    hide Potential, HitUpTo, Hit, Choice, Selected, Has, Pow2, NextHit, Times;
    PotentialGrows(w, mid, selected + Pow2(j), joint, i, r);
    NextHitStep(w, placed, i, r, j);
    Combine(Potential(w, before, i, r, |before|), mass, NextHit(w, placed, i, r, j), Choice(w, placed, j),
            Hit(w, placed + {j}, i, r), joint, NextHit(w, placed, i, r, j + 1));
  }

  lemma PotentialGrows(w: seq<real>, st: seq<real>, t: nat, mass: real, i: nat, r: nat)
    requires Positive(w) && i < |w| && t < |st|
    ensures Potential(w, st[t := st[t] + mass], i, r, |st|)
      == Potential(w, st, i, r, |st|) + Times(mass, Hit(w, Selected(|w|, t), i, r))
  {
    PotentialAdd(w, st, t, mass, i, r, |st|);
  }

  lemma NextHitStep(w: seq<real>, placed: set<nat>, i: nat, r: nat, j: nat)
    requires Positive(w) && i < |w| && j < |w| && j !in placed
    ensures NextHit(w, placed, i, r, j + 1)
      == NextHit(w, placed, i, r, j) + Times(Choice(w, placed, j), Hit(w, placed + {j}, i, r))
  {
    HitUnfold(w, placed, i, r + 1, j + 1);
  }

  lemma Combine(p: real, mass: real, hits: real, c: real, h: real, joint: real, more: real)
    requires joint == Times(mass, c) && more == hits + Times(c, h)
    ensures p + Times(mass, hits) + Times(joint, h) == p + Times(mass, more)
  {
  }

  /** The weight outside the state, summed in player order. */
  method RemainingWeight(w: seq<real>, selected: nat) returns (remaining: real)
    ensures remaining == Remaining(w, Selected(|w|, selected), |w|)
  {
    remaining := 0.0;
    for player := 0 to |w|
      invariant remaining == Remaining(w, Selected(|w|, selected), player)
    {
      if !Has(selected, player) {
        remaining := remaining + w[player];
      }
    }
  }

  /** Hands the mass of one state to its successors, player by player. */
  method Spread(
      w: seq<real>, selected: nat, mass: real, selectedCount: nat, distributions: array2<real>, next: array<real>)
    requires Positive(w) && selectedCount < |w| && selected < Pow2(|w|) && OnesCount(selected) == selectedCount
    requires distributions.Length0 == |w| && distributions.Length1 == |w| && next.Length == Pow2(|w|)
    requires OnLevel(next[..], selectedCount + 1)
    modifies distributions, next
    ensures OnLevel(next[..], selectedCount + 1)
    ensures PassedOn(w, old(next[..]), next[..], Selected(|w|, selected), mass, |w|)
    ensures forall i :: 0 <= i < |w| ==>
      distributions[i, selectedCount]
        == old(distributions[i, selectedCount]) + mass * Hit(w, Selected(|w|, selected), i, 0)
    ensures forall i, k :: 0 <= i < |w| && 0 <= k < |w| && k != selectedCount ==>
      distributions[i, k] == old(distributions[i, k])
  {
    hide PassedOn, Potential, HitUpTo, Choice, Hit, Has, Pow2, OnesCount;
    ghost var placed := Selected(|w|, selected);
    var remainingWeight := RemainingWeight(w, selected);
    PassedOnNothing(w, next[..], placed, mass);
    for player := 0 to |w|
      invariant OnLevel(next[..], selectedCount + 1)
      invariant PassedOn(w, old(next[..]), next[..], placed, mass, player)
      invariant forall i :: 0 <= i < player ==>
        distributions[i, selectedCount] == old(distributions[i, selectedCount]) + mass * Hit(w, placed, i, 0)
      invariant forall i :: player <= i < |w| ==>
        distributions[i, selectedCount] == old(distributions[i, selectedCount])
      invariant forall i, k :: 0 <= i < |w| && 0 <= k < |w| && k != selectedCount ==>
        distributions[i, k] == old(distributions[i, k])
    {
      HitUnfold(w, placed, player, 0, player);
      if Has(selected, player) {
        PassedOnSkip(w, old(next[..]), next[..], placed, mass, player);
        continue;
      }
      ghost var mid := next[..];
      var jointProbability := JointProbability(w, selected, mass, remainingWeight, player);
      SetBitBound(selected, player, |w|);
      SetBitCount(selected, player);
      distributions[player, selectedCount] := distributions[player, selectedCount] + jointProbability;
      next[selected + Pow2(player)] := next[selected + Pow2(player)] + jointProbability;
      PassedOnStep(w, old(next[..]), mid, next[..], selected, mass, jointProbability, player);
    }
  }

  method JointProbability(
      w: seq<real>, selected: nat, mass: real, remainingWeight: real, player: nat) returns (joint: real)
    requires Positive(w) && player < |w| && !Has(selected, player)
    requires remainingWeight == Remaining(w, Selected(|w|, selected), |w|)
    ensures joint == Times(mass, Choice(w, Selected(|w|, selected), player))
  {
    RemainingPositive(w, Selected(|w|, selected), player, |w|);
    var choiceProbability := w[player] / remainingWeight;
    joint := mass * choiceProbability;
  }

  /** `next` already holds what the states below `m` passed on. */
  ghost predicate LevelPassedOn(w: seq<real>, state: seq<real>, next: seq<real>, m: nat)
    requires Positive(w) && m <= |state|
  {
    forall i: nat, r: nat :: i < |w| ==>
      Potential(w, next, i, r, |next|) == Potential(w, state, i, r + 1, m)
  }

  lemma LevelStart(w: seq<real>, state: seq<real>, next: seq<real>)
    requires Positive(w) && forall s :: 0 <= s < |next| ==> next[s] == 0.0
    ensures LevelPassedOn(w, state, next, 0)
  {
    forall i: nat, r: nat | i < |w| ensures Potential(w, next, i, r, |next|) == 0.0 {
      PotentialEmpty(w, next, i, r, |next|);
    }
  }

  lemma LevelStep(w: seq<real>, state: seq<real>, before: seq<real>, after: seq<real>, m: nat)
    requires Positive(w) && m < |state| && LevelPassedOn(w, state, before, m)
    requires PassedOn(w, before, after, Selected(|w|, m), state[m], |w|)
    ensures LevelPassedOn(w, state, after, m + 1)
  {
    hide Potential, Hit, HitUpTo, Selected;
    forall i: nat, r: nat | i < |w|
      ensures Potential(w, after, i, r, |after|) == Potential(w, state, i, r + 1, m + 1)
    {
      HitUnfold(w, Selected(|w|, m), i, r + 1, 0);
      PotentialUnfold(w, state, i, r + 1, m);
    }
  }

  lemma LevelSkip(w: seq<real>, state: seq<real>, next: seq<real>, m: nat)
    requires Positive(w) && m < |state| && LevelPassedOn(w, state, next, m) && state[m] == 0.0
    ensures LevelPassedOn(w, state, next, m + 1)
  {
    hide Potential, Hit, HitUpTo, Selected;
    forall i: nat, r: nat | i < |w|
      ensures Potential(w, next, i, r, |next|) == Potential(w, state, i, r + 1, m + 1)
    {
      PotentialUnfold(w, state, i, r + 1, m);
    }
  }

  lemma PotentialUnfold(w: seq<real>, st: seq<real>, i: nat, r: nat, m: nat)
    requires Positive(w) && i < |w| && m < |st|
    ensures Potential(w, st, i, r, m + 1) == Potential(w, st, i, r, m) + st[m] * Hit(w, Selected(|w|, m), i, r)
  {
  }

  /** One level: every state with `selectedCount` players hands on its mass. */
  method Advance(
      w: seq<real>, state: array<real>, selectedCount: nat, distributions: array2<real>) returns (next: array<real>)
    requires Positive(w) && selectedCount < |w| && state.Length == Pow2(|w|) && OnLevel(state[..], selectedCount)
    requires distributions.Length0 == |w| && distributions.Length1 == |w|
    requires forall i :: 0 <= i < |w| ==> distributions[i, selectedCount] == 0.0
    modifies distributions
    ensures fresh(next) && next.Length == Pow2(|w|) && OnLevel(next[..], selectedCount + 1)
    ensures LevelPassedOn(w, state[..], next[..], state.Length)
    ensures forall i :: 0 <= i < |w| ==>
      distributions[i, selectedCount] == Potential(w, state[..], i, 0, state.Length)
    ensures forall i, k :: 0 <= i < |w| && 0 <= k < |w| && k != selectedCount ==>
      distributions[i, k] == old(distributions[i, k])
  {
    hide PassedOn, LevelPassedOn, Potential, Hit, HitUpTo, Selected, Pow2, OnesCount;
    next := new real[Pow2(|w|)](_ => 0.0);
    LevelStart(w, state[..], next[..]);
    forall i: nat | i < |w| ensures Potential(w, state[..], i, 0, 0) == 0.0 {
      PotentialNothing(w, state[..], i, 0);
    }
    for selected := 0 to state.Length
      invariant OnLevel(next[..], selectedCount + 1)
      invariant LevelPassedOn(w, state[..], next[..], selected)
      invariant forall i :: 0 <= i < |w| ==>
        distributions[i, selectedCount] == Potential(w, state[..], i, 0, selected)
      invariant forall i, k :: 0 <= i < |w| && 0 <= k < |w| && k != selectedCount ==>
        distributions[i, k] == old(distributions[i, k])
    {
      forall i: nat | i < |w|
        ensures Potential(w, state[..], i, 0, selected + 1)
          == Potential(w, state[..], i, 0, selected) + state[selected] * Hit(w, Selected(|w|, selected), i, 0)
      {
        PotentialUnfold(w, state[..], i, 0, selected);
      }
      if state[selected] == 0.0 || OnesCount(selected) != selectedCount {
        LevelSkip(w, state[..], next[..], selected);
        continue;
      }
      ghost var before := next[..];
      Spread(w, selected, state[selected], selectedCount, distributions, next);
      LevelStep(w, state[..], before, next[..], selected);
    }
  }

  lemma PotentialNothing(w: seq<real>, st: seq<real>, i: nat, r: nat)
    requires Positive(w) && i < |w|
    ensures Potential(w, st, i, r, 0) == 0.0
  {
  }

  /** The masses of level `k` carry the chances of all places from `k` on. */
  ghost predicate AtLevel(w: seq<real>, st: seq<real>, k: nat)
    requires Positive(w)
  {
    && |st| == Pow2(|w|)
    && OnLevel(st, k)
    && forall i: nat, r: nat :: i < |w| ==> Potential(w, st, i, r, |st|) == HitFrom(w, i, k, r)
  }

  /** Chance that `i` is drawn `r` picks after the first `k`. */
  ghost function HitFrom(w: seq<real>, i: nat, k: nat, r: nat): real
    requires Positive(w) && i < |w|
  {
    Hit(w, {}, i, k + r)
  }

  lemma AtFirstLevel(w: seq<real>, zeros: seq<real>)
    requires Positive(w) && |zeros| == Pow2(|w|) && forall s :: 0 <= s < |zeros| ==> zeros[s] == 0.0
    ensures AtLevel(w, zeros[0 := 1.0], 0)
  {
    hide Potential, Hit, Pow2;
    forall i: nat, r: nat | i < |w|
      ensures Potential(w, zeros[0 := 1.0], i, r, |zeros|) == HitFrom(w, i, 0, r)
    {
      PotentialStart(w, zeros, i, r);
    }
  }

  lemma AtNextLevel(w: seq<real>, state: seq<real>, next: seq<real>, k: nat)
    requires Positive(w) && AtLevel(w, state, k) && |next| == |state| && OnLevel(next, k + 1)
    requires LevelPassedOn(w, state, next, |state|)
    ensures AtLevel(w, next, k + 1)
  {
    hide Potential, Hit, Pow2, OnesCount;
    forall i: nat, r: nat | i < |w|
      ensures Potential(w, next, i, r, |next|) == HitFrom(w, i, k + 1, r)
    {
      assert HitFrom(w, i, k, r + 1) == HitFrom(w, i, k + 1, r);
    }
  }

  /** The program returns, for every player and place, the sum over all orderings
      of the room that put the player on that place. */
  method PlackettLuceDistributions(w: seq<real>) returns (distributions: array2<real>)
    requires Positive(w)
    ensures distributions.Length0 == |w| && distributions.Length1 == |w|
    ensures forall i, k :: 0 <= i < |w| && 0 <= k < |w| ==> distributions[i, k] == PlaceProbability(w, i, k)
  {
    hide Potential, Hit, Pow2, OnesCount, PlaceProbability, LevelPassedOn, OnLevel;
    var state := new real[Pow2(|w|)](_ => 0.0);
    ghost var zeros := state[..];
    state[0] := 1.0;
    assert state[..] == zeros[0 := 1.0];
    AtFirstLevel(w, zeros);
    distributions := new real[|w|, |w|]((_, _) => 0.0);
    for selectedCount := 0 to |w|
      invariant fresh(state) && AtLevel(w, state[..], selectedCount)
      invariant forall i, k :: 0 <= i < |w| && 0 <= k < selectedCount ==>
        distributions[i, k] == PlaceProbability(w, i, k)
      invariant forall i, k :: 0 <= i < |w| && selectedCount <= k < |w| ==> distributions[i, k] == 0.0
    {
      var next := Advance(w, state, selectedCount, distributions);
      forall i: nat | i < |w|
        ensures Potential(w, state[..], i, 0, state.Length) == PlaceProbability(w, i, selectedCount)
      {
        assert HitFrom(w, i, selectedCount, 0) == Hit(w, {}, i, selectedCount);
        PlaceProbabilityIsHit(w, i, selectedCount);
      }
      AtNextLevel(w, state[..], next[..], selectedCount);
      state := next;
    }
  }
}

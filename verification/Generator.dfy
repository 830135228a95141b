/** The simulator's random source: a 64-bit counter, an output mix, a bounded draw
    by rejection, and the weighted choice of a tournament partition. */
module Generator {
  import opened Words

  const GAMMA: nat := 0x9e37_79b9_7f4a_7c15
  const GAMMA_INVERSE: nat := 0xf1de_83e1_9937_733d
  const FIRST: nat := 0xbf58_476d_1ce4_e5b9
  const FIRST_INVERSE: nat := 0x96de_1b17_3f11_9089
  const SECOND: nat := 0x94d0_49bb_1331_11eb
  const SECOND_INVERSE: nat := 0x3196_42b2_d24d_8ec3

  // ---------------------------------------------------------------------
  // The output mix
  // ---------------------------------------------------------------------

  function Mix(state: nat): nat {
    Fold(Times(Fold(Times(Fold(state, 30), FIRST), 27), SECOND), 31)
  }

  function Unmix(word: nat): nat {
    Unfold(Times(Unfold(Times(Unfold(word, 31), SECOND_INVERSE), 27), FIRST_INVERSE), 30)
  }

  lemma InverseFactors()
    ensures FIRST * FIRST_INVERSE == 1 + 8125545580553827436 * WORDS
    ensures FIRST_INVERSE * FIRST == 1 + 8125545580553827436 * WORDS
    ensures SECOND * SECOND_INVERSE == 1 + 2077064247507883091 * WORDS
    ensures SECOND_INVERSE * SECOND == 1 + 2077064247507883091 * WORDS
    ensures GAMMA * GAMMA_INVERSE == 1 + 10771413168148108919 * WORDS
  {
  }

  /** The mix is a permutation of the 64-bit words. */
  lemma MixPermutes(w: nat)
    requires Word(w)
    ensures Word(Mix(w)) && Word(Unmix(w))
    ensures Unmix(Mix(w)) == w && Mix(Unmix(w)) == w
  {
    hide Fold, Unfold, Times;
    InverseFactors();
    FoldBound(w, 30);
    FoldReverses(w, 30);
    var a := Fold(w, 30);
    TimesReverses(a, FIRST, FIRST_INVERSE, 8125545580553827436);
    var b := Times(a, FIRST);
    FoldBound(b, 27);
    FoldReverses(b, 27);
    var c := Fold(b, 27);
    TimesReverses(c, SECOND, SECOND_INVERSE, 2077064247507883091);
    var d := Times(c, SECOND);
    FoldBound(d, 31);
    FoldReverses(d, 31);
    UnmixReverses(w);
  }

  lemma UnmixReverses(w: nat)
    requires Word(w)
    ensures Word(Unmix(w)) && Mix(Unmix(w)) == w
  {
    hide Fold, Unfold, Times;
    InverseFactors();
    FoldBound(w, 31);
    FoldReverses(w, 31);
    var a := Unfold(w, 31);
    TimesReverses(a, SECOND_INVERSE, SECOND, 2077064247507883091);
    var b := Times(a, SECOND_INVERSE);
    FoldBound(b, 27);
    FoldReverses(b, 27);
    var c := Unfold(b, 27);
    TimesReverses(c, FIRST_INVERSE, FIRST, 8125545580553827436);
    var d := Times(c, FIRST_INVERSE);
    FoldBound(d, 30);
    FoldReverses(d, 30);
  }

  // ---------------------------------------------------------------------
  // The sequence of draws
  // ---------------------------------------------------------------------

  /** The state after `n` draws. */
  function State(seed: nat, n: nat): nat {
    (seed + n * GAMMA) % WORDS
  }

  function Draw(seed: nat, n: nat): nat {
    Mix(State(seed, n))
  }

  lemma NextState(seed: nat, n: nat)
    ensures State(seed, n + 1) == (State(seed, n) + GAMMA) % WORDS
  {
    var x := seed + n * GAMMA;
    assert seed + (n + 1) * GAMMA == x + GAMMA;
    AddMultiple(x % WORDS + GAMMA, x / WORDS);
  }

  /** The counter takes 2^64 different states before it repeats one, hence the
      draws are different as well. */
  lemma DrawsDiffer(seed: nat, i: nat, j: nat)
    requires i < j < i + WORDS
    ensures State(seed, i) != State(seed, j) && Draw(seed, i) != Draw(seed, j)
  {
    var d := j - i;
    if State(seed, i) == State(seed, j) {
      SameRemainder(seed + i * GAMMA, d * GAMMA);
      ProductMod(d * GAMMA, GAMMA_INVERSE);
      InverseFactors();
      assert d * GAMMA * GAMMA_INVERSE == d + (d * 10771413168148108919) * WORDS;
      ModOfMultiple(d, d * 10771413168148108919);
      assert false;
    }
    MixPermutes(State(seed, i));
    MixPermutes(State(seed, j));
  }

  lemma SameRemainder(x: nat, d: nat)
    requires x % WORDS == (x + d) % WORDS
    ensures d % WORDS == 0
  {
  }

  // ---------------------------------------------------------------------
  // Rejection
  // ---------------------------------------------------------------------

  /** `-limit % limit` on unsigned words. */
  function Threshold(limit: nat): (threshold: nat)
    requires 0 < limit < WORDS
    ensures threshold < limit
  {
    (WORDS - limit) % limit
  }

  ghost predicate AllRejected(seed: nat, limit: nat, n: nat)
    requires 0 < limit < WORDS
  {
    forall k :: 1 <= k <= n ==> Draw(seed, k) < Threshold(limit)
  }

  ghost function Draws(seed: nat, n: nat): set<nat> {
    set k | 1 <= k <= n :: Draw(seed, k)
  }

  lemma {:induction false} DrawsCount(seed: nat, n: nat)
    requires n <= WORDS
    ensures |Draws(seed, n)| == n
  {
    hide Draw;
    if n == 0 {
      assert Draws(seed, n) == {};
    } else {
      DrawsCount(seed, n - 1);
      forall k | 1 <= k < n ensures Draw(seed, k) != Draw(seed, n) {
        DrawsDiffer(seed, k, n);
      }
      assert Draws(seed, n) == Draws(seed, n - 1) + {Draw(seed, n)};
    }
  }

  ghost function Below(n: nat): (below: set<nat>)
    ensures |below| == n && forall k: nat :: k in below <==> k < n
  {
    if n == 0 then {} else Below(n - 1) + {n - 1}
  }

  lemma SubsetCount(a: set<nat>, b: set<nat>)
    requires a <= b
    ensures |a| <= |b|
  {
    assert b == a + (b - a);
  }

  /** At most `threshold` words in a row can be rejected. */
  lemma RejectionsBounded(seed: nat, limit: nat, n: nat)
    requires 0 < limit < WORDS && AllRejected(seed, limit, n)
    ensures n <= Threshold(limit)
  {
    hide Draw, Threshold;
    var threshold := Threshold(limit);
    if n > threshold {
      DrawsCount(seed, threshold + 1);
      assert Draws(seed, threshold + 1) <= Below(threshold);
      SubsetCount(Draws(seed, threshold + 1), Below(threshold));
    }
  }

  /** The draw that ends the loop comes after exactly `n` rejections. */
  ghost predicate AcceptedAfter(seed: nat, limit: nat, n: nat)
    requires 0 < limit < WORDS
  {
    AllRejected(seed, limit, n) && Draw(seed, n + 1) >= Threshold(limit)
  }

  // ---------------------------------------------------------------------
  // No residue is favoured
  // ---------------------------------------------------------------------

  /** The accepted words of one residue. */
  ghost function Accepted(limit: nat, residue: nat): set<nat>
    requires 0 < limit < WORDS
  {
    set w | Threshold(limit) <= w < WORDS && w % limit == residue
  }

  ghost function Residues(from: nat, blocks: nat, limit: nat, residue: nat): set<nat>
    requires 0 < limit
  {
    set w | from <= w < from + blocks * limit && w % limit == residue
  }

  /** The one word of a block of `limit` consecutive ones with a given residue. */
  function InBlock(from: nat, limit: nat, residue: nat): (w: nat)
    requires residue < limit
    ensures from <= w < from + limit && w % limit == residue
    ensures forall v :: from <= v < from + limit && v % limit == residue ==> v == w
  {
    var q, r := from / limit, from % limit;
    InBlockUnique(from, limit, residue);
    if residue >= r then q * limit + residue else (q + 1) * limit + residue
  }

  lemma InBlockUnique(from: nat, limit: nat, residue: nat)
    requires residue < limit
    ensures var w := (if residue >= from % limit then from / limit else from / limit + 1) * limit + residue;
      && from <= w < from + limit && w % limit == residue
      && forall v :: from <= v < from + limit && v % limit == residue ==> v == w
  {
    var q, r := from / limit, from % limit;
    var b := if residue >= r then q else q + 1;
    var w := b * limit + residue;
    assert from == q * limit + r;
    assert (q + 1) * limit == q * limit + limit;
    BlockRemainder(b, limit, residue);
    forall v | from <= v < from + limit && v % limit == residue ensures v == w {
      SameBlock(v, w, limit);
    }
  }

  lemma BlockRemainder(b: nat, limit: nat, residue: nat)
    requires residue < limit
    ensures (b * limit + residue) % limit == residue && (b * limit + residue) / limit == b
  {
    var x := b * limit + residue;
    var q, r := x / limit, x % limit;
    assert (q - b) * limit == residue - r;
    SmallMultiple(q - b, limit, residue - r);
  }

  lemma SmallMultiple(c: int, limit: nat, d: int)
    requires c * limit == d && d < limit && 0 < d + limit
    ensures c == 0
  {
    assert c >= 1 ==> c * limit >= limit by {
      if c >= 1 {
        AtLeastOnce(c, limit);
      }
    }
    assert c <= -1 ==> -c * limit >= limit by {
      if c <= -1 {
        AtLeastOnce(-c, limit);
      }
    }
    assert -c * limit == -d;
  }

  lemma AtLeastOnce(c: nat, limit: nat)
    requires c >= 1
    ensures c * limit >= limit
  {
    assert c * limit == (c - 1) * limit + limit;
  }

  lemma SameBlock(v: nat, w: nat, limit: nat)
    requires limit > 0 && v % limit == w % limit && v < w + limit && w < v + limit
    ensures v == w
  {
    var a, b := v / limit, w / limit;
    assert (a - b) * limit == v - w by {
      assert v == a * limit + v % limit && w == b * limit + w % limit;
    }
    SmallMultiple(a - b, limit, v - w);
  }

  lemma {:induction false} ResiduesCount(from: nat, blocks: nat, limit: nat, residue: nat)
    requires residue < limit
    ensures |Residues(from, blocks, limit, residue)| == blocks
    decreases blocks
  {
    if blocks == 0 {
      assert Residues(from, blocks, limit, residue) == {};
    } else {
      ResiduesCount(from, blocks - 1, limit, residue);
      var last := from + (blocks - 1) * limit;
      assert from + blocks * limit == last + limit;
      hide InBlock;
      assert Residues(from, blocks, limit, residue)
        == Residues(from, blocks - 1, limit, residue) + {InBlock(last, limit, residue)};
    }
  }

  /** What is rejected is the remainder, so the accepted words form whole blocks. */
  lemma ThresholdIsRemainder(limit: nat)
    requires 0 < limit < WORDS
    ensures Threshold(limit) == WORDS % limit
    ensures Threshold(limit) + (WORDS / limit) * limit == WORDS
  {
    var q, r := WORDS / limit, WORDS % limit;
    assert WORDS == q * limit + r;
    assert WORDS - limit == (q - 1) * limit + r;
    assert q == 0 ==> q * limit == 0;
    BlockRemainder(q - 1, limit, r);
  }

  /** Every residue is taken by the same number of accepted words. */
  lemma ResiduesAreEven(limit: nat, residue: nat)
    requires residue < limit < WORDS
    ensures |Accepted(limit, residue)| == WORDS / limit
  {
    ThresholdIsRemainder(limit);
    var blocks := WORDS / limit;
    ResiduesCount(Threshold(limit), blocks, limit, residue);
    hide Threshold;
    assert Accepted(limit, residue) == Residues(Threshold(limit), blocks, limit, residue);
  }

  /** The states that lead to a set of words are as many as the words. */
  ghost function Sources(words: set<nat>): set<nat> {
    set w | w in words :: Unmix(w)
  }

  lemma {:induction false} SourcesCount(words: set<nat>)
    requires forall w :: w in words ==> Word(w)
    ensures |Sources(words)| == |words|
    decreases |words|
  {
    hide Unmix, Mix;
    if words == {} {
      assert Sources(words) == {};
    } else {
      var w :| w in words;
      SourcesCount(words - {w});
      MixPermutes(w);
      forall v | v in words - {w} ensures Unmix(v) != Unmix(w) {
        MixPermutes(v);
      }
      assert Sources(words) == Sources(words - {w}) + {Unmix(w)};
    }
  }

  // ---------------------------------------------------------------------
  // The weighted choice
  // ---------------------------------------------------------------------

  function Prefix(weights: seq<nat>, i: nat): nat
    requires i <= |weights|
  {
    if i == 0 then 0 else Prefix(weights, i - 1) + weights[i - 1]
  }

  function Total(weights: seq<nat>): nat {
    Prefix(weights, |weights|)
  }

  /** Partition `i` owns the targets between its prefix sums. */
  predicate Picks(weights: seq<nat>, target: nat, i: nat) {
    i < |weights| && Prefix(weights, i) <= target < Prefix(weights, i + 1)
  }

  lemma {:induction false} PrefixGrows(weights: seq<nat>, i: nat, j: nat)
    requires i <= j <= |weights|
    ensures Prefix(weights, i) <= Prefix(weights, j)
    decreases j
  {
    if i < j {
      PrefixGrows(weights, i, j - 1);
    }
  }

  lemma PicksOnce(weights: seq<nat>, target: nat, i: nat, j: nat)
    requires Picks(weights, target, i) && Picks(weights, target, j)
    ensures i == j
  {
    if i < j {
      PrefixGrows(weights, i + 1, j);
    } else if j < i {
      PrefixGrows(weights, j + 1, i);
    }
  }

  /** The accepted words whose residue falls in a range. */
  ghost function AcceptedWithin(limit: nat, from: nat, width: nat): set<nat>
    requires 0 < limit < WORDS
  {
    set w | Threshold(limit) <= w < WORDS && from <= w % limit < from + width
  }

  lemma {:induction false} WithinCount(limit: nat, from: nat, width: nat)
    requires 0 < limit < WORDS && from + width <= limit
    ensures |AcceptedWithin(limit, from, width)| == width * (WORDS / limit)
    decreases width
  {
    hide Threshold;
    if width == 0 {
      assert AcceptedWithin(limit, from, width) == {};
    } else {
      WithinCount(limit, from, width - 1);
      var last := from + width - 1;
      ResiduesAreEven(limit, last);
      assert AcceptedWithin(limit, from, width) == AcceptedWithin(limit, from, width - 1) + Accepted(limit, last);
      assert AcceptedWithin(limit, from, width - 1) !! Accepted(limit, last);
      OneMoreRow(width, WORDS / limit);
    }
  }

  lemma OneMoreRow(width: nat, q: nat)
    requires width > 0
    ensures (width - 1) * q + q == width * q
  {
  }

  /** The states whose word is accepted and picks partition `i`. */
  ghost function StatesPicking(weights: seq<nat>, i: nat): set<nat>
    requires 0 < Total(weights) < WORDS
  {
    set s | 0 <= s < WORDS && Mix(s) >= Threshold(Total(weights)) && Picks(weights, Mix(s) % Total(weights), i)
  }

  /** Of all 64-bit states exactly weight times the same share lead to a
      partition, and no state to two: the choice is proportional to the weights
      without any bias. */
  lemma ChoiceIsProportional(weights: seq<nat>, i: nat)
    requires 0 < Total(weights) < WORDS && i < |weights|
    ensures |StatesPicking(weights, i)| == weights[i] * (WORDS / Total(weights))
    ensures forall j :: 0 <= j < |weights| && j != i ==> StatesPicking(weights, i) !! StatesPicking(weights, j)
  {
    hide Threshold, Mix, Unmix;
    forall j | 0 <= j < |weights| && j != i ensures StatesPicking(weights, i) !! StatesPicking(weights, j) {
      PicksApart(weights, i, j);
    }
    var total := Total(weights);
    var from := Prefix(weights, i);
    PrefixGrows(weights, i + 1, |weights|);
    assert Prefix(weights, i + 1) == from + weights[i];
    WithinCount(total, from, weights[i]);
    var words := AcceptedWithin(total, from, weights[i]);
    SourcesCount(words);
    forall s ensures s in StatesPicking(weights, i) <==> s in Sources(words) {
      StateOrWord(weights, i, s);
    }
    assert StatesPicking(weights, i) == Sources(words);
  }

  lemma PicksApart(weights: seq<nat>, i: nat, j: nat)
    requires 0 < Total(weights) < WORDS && i != j
    ensures StatesPicking(weights, i) !! StatesPicking(weights, j)
  {
    hide Threshold, Mix, Picks;
    forall s | s in StatesPicking(weights, i) ensures s !in StatesPicking(weights, j) {
      if s in StatesPicking(weights, j) {
        PicksOnce(weights, Mix(s) % Total(weights), i, j);
      }
    }
  }

  lemma StateOrWord(weights: seq<nat>, i: nat, s: nat)
    requires 0 < Total(weights) < WORDS && i < |weights|
    ensures s in StatesPicking(weights, i)
      <==> s in Sources(AcceptedWithin(Total(weights), Prefix(weights, i), weights[i]))
  {
    hide Threshold, Mix, Unmix;
    var words := AcceptedWithin(Total(weights), Prefix(weights, i), weights[i]);
    assert Prefix(weights, i + 1) == Prefix(weights, i) + weights[i];
    if s in StatesPicking(weights, i) {
      MixPermutes(s);
      assert Mix(s) in words;
    }
    if s in Sources(words) {
      var w :| w in words && Unmix(w) == s;
      MixPermutes(w);
    }
  }

  // ---------------------------------------------------------------------
  // The random source
  // ---------------------------------------------------------------------

  class RandomSource {
    var state: nat

    constructor (seed: nat)
      requires Word(seed)
      ensures state == seed
    {
      state := seed;
    }

    method Next() returns (value: nat)
      requires Word(state)
      modifies this
      ensures state == State(old(state), 1) && value == Draw(old(state), 1)
      ensures Word(state) && Word(value)
    {
      state := (state + GAMMA) % WORDS;
      value := state;
      value := Times(Xor(value, Shr(value, 30)), FIRST);
      value := Times(Xor(value, Shr(value, 27)), SECOND);
      value := Xor(value, Shr(value, 31));
      MixPermutes(state);
      hide Xor, Shr, Times;
    }

    /** An unbiased value below the limit: the first word at or above the
        threshold, reduced. The loop ends because the rejected words are distinct. */
    method Bounded(limit: nat) returns (value: nat)
      requires Word(state) && 0 < limit < WORDS
      modifies this
      ensures Word(state) && value < limit
      ensures exists n: nat ::
        && n <= Threshold(limit) && AcceptedAfter(old(state), limit, n)
        && state == State(old(state), n + 1) && value == Draw(old(state), n + 1) % limit
    {
      hide Mix;
      var threshold := (WORDS - limit) % limit;
      ghost var rejected: nat := 0;
      RejectionsBounded(state, limit, 0);
      while true
        invariant Word(state) && state == State(old(state), rejected)
        invariant AllRejected(old(state), limit, rejected) && rejected <= threshold
        decreases threshold - rejected
      {
        NextState(old(state), rejected);
        var word := Next();
        if word >= threshold {
          assert AcceptedAfter(old(state), limit, rejected);
          return word % limit;
        }
        rejected := rejected + 1;
        RejectionsBounded(old(state), limit, rejected);
      }
    }
  }

  /** The running total of the validated weights never wraps. */
  method PartitionWeight(weights: seq<nat>) returns (total: nat)
    requires Total(weights) < WORDS
    ensures total == Total(weights)
  {
    total := 0;
    for i := 0 to |weights|
      invariant total == Prefix(weights, i)
    {
      PrefixGrows(weights, i + 1, |weights|);
      total := (total + weights[i]) % WORDS;
    }
  }

  method ChoosePartition(weights: seq<nat>, target: nat) returns (i: nat)
    requires weights != []
    ensures i < |weights|
    ensures if target < Total(weights) then Picks(weights, target, i) else i == |weights| - 1
  {
    var rest := target;
    i := 0;
    while i < |weights|
      invariant i <= |weights| && target == Prefix(weights, i) + rest
    {
      if rest < weights[i] {
        PrefixGrows(weights, i + 1, |weights|);
        return;
      }
      rest := rest - weights[i];
      i := i + 1;
    }
    i := |weights| - 1;
  }

  /** One arrival's partition. */
  method DrawPartition(random: RandomSource, weights: seq<nat>) returns (i: nat)
    requires Word(random.state) && 0 < Total(weights) < WORDS
    modifies random
    ensures i < |weights| && Word(random.state)
    ensures exists n: nat ::
      && n <= Threshold(Total(weights)) && AcceptedAfter(old(random.state), Total(weights), n)
      && random.state == State(old(random.state), n + 1)
      && State(old(random.state), n + 1) in StatesPicking(weights, i)
  {
    hide Mix, Threshold;
    var total := PartitionWeight(weights);
    var target := random.Bounded(total);
    i := ChoosePartition(weights, target);
  }
}

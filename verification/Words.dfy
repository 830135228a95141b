/** Unsigned 64-bit words as natural numbers below 2^64: exclusive or, right
    shift and multiplication that wraps around, each with the inverse the random
    generator's output mix needs. */
module Words {
  import opened BitMask

  const WORDS: nat := 0x1_0000_0000_0000_0000

  predicate Word(w: nat) {
    w < WORDS
  }

  function Xor(a: nat, b: nat): nat
    decreases a + b
  {
    if a == 0 && b == 0 then 0 else (a + b) % 2 + 2 * Xor(a / 2, b / 2)
  }

  function Shr(w: nat, k: nat): nat {
    if k == 0 then w else Shr(w, k - 1) / 2
  }

  /** Multiplication wraps around. */
  function Times(w: nat, a: nat): (product: nat)
    ensures Word(product)
  {
    (w * a) % WORDS
  }

  // ---------------------------------------------------------------------
  // Exclusive or
  // ---------------------------------------------------------------------

  /** The lowest bit and the rest of an exclusive or. */
  lemma XorUnfold(a: nat, b: nat)
    ensures Xor(a, b) % 2 == (a + b) % 2 && Xor(a, b) / 2 == Xor(a / 2, b / 2)
  {
    var bit, rest := (a + b) % 2, Xor(a / 2, b / 2);
    assert Xor(a, b) == bit + 2 * rest;
    hide Xor;
    DoubleSplits(bit, rest);
  }

  lemma DoubleSplits(bit: nat, rest: nat)
    requires bit < 2
    ensures (bit + 2 * rest) % 2 == bit && (bit + 2 * rest) / 2 == rest
  {
  }

  lemma HalvesEqual(x: nat, y: nat)
    requires x % 2 == y % 2 && x / 2 == y / 2
    ensures x == y
  {
  }

  lemma {:induction false} XorCommutes(a: nat, b: nat)
    ensures Xor(a, b) == Xor(b, a)
    decreases a + b
  {
    if a + b > 0 {
      XorCommutes(a / 2, b / 2);
    }
  }

  lemma {:induction false} XorAssociates(a: nat, b: nat, c: nat)
    ensures Xor(Xor(a, b), c) == Xor(a, Xor(b, c))
    decreases a + b + c
  {
    hide Xor;
    if a + b + c > 0 {
      XorUnfold(a, b);
      XorUnfold(b, c);
      XorUnfold(Xor(a, b), c);
      XorUnfold(a, Xor(b, c));
      XorAssociates(a / 2, b / 2, c / 2);
      ParityAssociates(a, b, c, Xor(a, b), Xor(b, c));
      HalvesEqual(Xor(Xor(a, b), c), Xor(a, Xor(b, c)));
    } else {
      XorCancels(0);
    }
  }

  lemma ParityAssociates(a: nat, b: nat, c: nat, ab: nat, bc: nat)
    requires ab % 2 == (a + b) % 2 && bc % 2 == (b + c) % 2
    ensures (ab + c) % 2 == (a + bc) % 2
  {
  }

  lemma {:induction false} XorCancels(a: nat)
    ensures Xor(a, a) == 0 && Xor(a, 0) == a && Xor(0, a) == a
  {
    if a > 0 {
      XorCancels(a / 2);
      assert (a + a) % 2 == 0;
    }
  }

  lemma {:induction false} XorShr(a: nat, b: nat, k: nat)
    ensures Shr(Xor(a, b), k) == Xor(Shr(a, k), Shr(b, k))
  {
    if k > 0 {
      XorShr(a, b, k - 1);
      XorUnfold(Shr(a, k - 1), Shr(b, k - 1));
    }
  }

  lemma {:induction false} ShrTwice(w: nat, j: nat, k: nat)
    ensures Shr(Shr(w, j), k) == Shr(w, j + k)
  {
    if k > 0 {
      ShrTwice(w, j, k - 1);
    }
  }

  lemma {:induction false} XorBound(a: nat, b: nat, n: nat)
    requires a < Pow2(n) && b < Pow2(n)
    ensures Xor(a, b) < Pow2(n)
    decreases n
  {
    if n > 0 && a + b > 0 {
      XorBound(a / 2, b / 2, n - 1);
    }
  }

  lemma {:induction false} ShrBound(w: nat, n: nat, k: nat)
    requires w < Pow2(n)
    ensures Shr(w, k) <= w
    ensures if k <= n then Shr(w, k) < Pow2(n - k) else Shr(w, k) == 0
  {
    if k > 0 {
      ShrBound(w, n, k - 1);
    }
  }

  lemma {:induction false} PowersAdd(m: nat, n: nat)
    ensures Pow2(m) * Pow2(n) == Pow2(m + n)
  {
    if m > 0 {
      PowersAdd(m - 1, n);
      assert Pow2(m) * Pow2(n) == 2 * (Pow2(m - 1) * Pow2(n));
    }
  }

  lemma WordIsPower()
    ensures Pow2(64) == WORDS
  {
    assert Pow2(2) == 2 * Pow2(1) && Pow2(1) == 2 * Pow2(0);
    hide Pow2;
    PowersAdd(2, 2);
    PowersAdd(4, 4);
    PowersAdd(8, 8);
    PowersAdd(16, 16);
    PowersAdd(32, 32);
  }

  // ---------------------------------------------------------------------
  // The two reversible steps
  // ---------------------------------------------------------------------

  /** `w ^ (w >> k)`. */
  function Fold(w: nat, k: nat): nat {
    Xor(w, Shr(w, k))
  }

  function Unfold(w: nat, k: nat): nat {
    Xor(Fold(w, k), Shr(w, k + k))
  }

  lemma FoldBound(w: nat, k: nat)
    requires Word(w)
    ensures Word(Fold(w, k)) && Word(Unfold(w, k))
  {
    WordIsPower();
    ShrBound(w, 64, k);
    ShrBound(w, 64, k + k);
    XorBound(w, Shr(w, k), 64);
    XorBound(Fold(w, k), Shr(w, k + k), 64);
  }

  /** A fold by at least a third of the word is undone by two more shifts. */
  lemma FoldReverses(w: nat, k: nat)
    requires Word(w) && 3 * k >= 64
    ensures Unfold(Fold(w, k), k) == w && Fold(Unfold(w, k), k) == w
  {
    hide *;
    var one, two := Shr(w, k), Shr(w, k + k);
    FoldShifts(w, k);
    FoldCancels(w, one, two);
  }

  lemma FoldShifts(w: nat, k: nat)
    requires Word(w) && 3 * k >= 64
    ensures var one, two := Shr(w, k), Shr(w, k + k);
      && Fold(w, k) == Xor(w, one)
      && Unfold(Fold(w, k), k) == Xor(Xor(Xor(w, one), Xor(one, two)), two)
      && Fold(Unfold(w, k), k) == Xor(Xor(Xor(w, one), two), Xor(one, two))
  {
    hide Xor, Shr;
    var one, two := Shr(w, k), Shr(w, k + k);
    ShiftsOut(w, k);
    XorCancels(one);
    XorCancels(two);
    XorShr(w, one, k);
    XorShr(w, one, k + k);
    XorShr(Xor(w, one), two, k);
    XorCancels(Xor(one, two));
  }

  /** Three shifts by at least a third of the word leave nothing. */
  lemma ShiftsOut(w: nat, k: nat)
    requires Word(w) && 3 * k >= 64
    ensures Shr(Shr(w, k), k) == Shr(w, k + k)
    ensures Shr(Shr(w, k), k + k) == 0 && Shr(Shr(w, k + k), k) == 0 && Shr(Shr(w, k + k), k + k) == 0
  {
    WordIsPower();
    ShrBound(w, 64, k + k + k);
    ShrBound(w, 64, k + k + k + k);
    ShrTwice(w, k, k);
    ShrTwice(w, k, k + k);
    ShrTwice(w, k + k, k);
    ShrTwice(w, k + k, k + k);
    assert Pow2(0) == 1;
  }

  lemma FoldCancels(w: nat, one: nat, two: nat)
    ensures Xor(Xor(Xor(w, one), Xor(one, two)), two) == w
    ensures Xor(Xor(Xor(w, one), two), Xor(one, two)) == w
  {
    hide *;
    var both := Xor(one, two);
    XorAssociates(w, one, two);
    XorAssociates(w, both, both);
    XorAssociates(Xor(w, one), both, two);
    XorAssociates(Xor(w, one), two, both);
    XorCommutes(both, two);
    XorAssociates(w, one, Xor(both, two));
    XorCommutes(one, two);
    XorAssociates(one, two, two);
    XorCancels(w);
    XorCancels(one);
    XorCancels(two);
    XorCancels(both);
  }

  lemma ModOfMultiple(w: nat, c: nat)
    requires Word(w)
    ensures (w + c * WORDS) % WORDS == w
  {
  }

  lemma ProductMod(x: nat, b: nat)
    ensures ((x % WORDS) * b) % WORDS == (x * b) % WORDS
  {
    var q, r := x / WORDS, x % WORDS;
    assert x * b == r * b + (q * b) * WORDS by {
      assert x == q * WORDS + r;
    }
    AddMultiple(r * b, q * b);
  }

  lemma AddMultiple(x: nat, c: nat)
    ensures (x + c * WORDS) % WORDS == x % WORDS
  {
    var q, r := x / WORDS, x % WORDS;
    assert x + c * WORDS == r + (q + c) * WORDS;
    ModOfMultiple(r, q + c);
  }

  /** Multiplying by a unit is undone by multiplying by its inverse. */
  lemma TimesReverses(w: nat, a: nat, b: nat, c: nat)
    requires Word(w) && a * b == 1 + c * WORDS
    ensures Times(Times(w, a), b) == w
  {
    ProductMod(w * a, b);
    assert (w * a) * b == w * (a * b) == w + (w * c) * WORDS by {
      assert w * (a * b) == w * (1 + c * WORDS) == w + w * (c * WORDS);
    }
    ModOfMultiple(w, w * c);
  }
}

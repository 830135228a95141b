/** Selection states of the placement dynamic program: a set of players written
    as the bits of a natural number, the way `selected & (1 << playerIndex)` and
    `bits.OnesCount` read it. */
module BitMask {

  function Pow2(i: nat): (p: nat)
    ensures p >= 1
  {
    if i == 0 then 1 else 2 * Pow2(i - 1)
  }

  /** Bit `i` of `mask`. */
  predicate Has(mask: nat, i: nat)
    decreases i
  {
    if i == 0 then mask % 2 == 1 else Has(mask / 2, i - 1)
  }

  function OnesCount(mask: nat): nat {
    if mask == 0 then 0 else mask % 2 + OnesCount(mask / 2)
  }

  /** Setting a clear bit by addition changes that bit and no other. */
  lemma {:induction false} SetBit(mask: nat, i: nat, j: nat)
    requires !Has(mask, i)
    ensures Has(mask + Pow2(i), j) <==> (j == i || Has(mask, j))
    decreases i
  {
    if i == 0 {
      assert mask % 2 == 0;
      assert (mask + 1) / 2 == mask / 2;
    } else {
      assert (mask + Pow2(i)) / 2 == mask / 2 + Pow2(i - 1);
      if j > 0 {
        SetBit(mask / 2, i - 1, j - 1);
      }
    }
  }

  lemma {:induction false} SetBitCount(mask: nat, i: nat)
    requires !Has(mask, i)
    ensures OnesCount(mask + Pow2(i)) == OnesCount(mask) + 1
    decreases i
  {
    if i == 0 {
      assert mask % 2 == 0;
      assert (mask + 1) / 2 == mask / 2;
    } else {
      assert (mask + Pow2(i)) / 2 == mask / 2 + Pow2(i - 1);
      SetBitCount(mask / 2, i - 1);
    }
  }

  /** A mask over `n` players stays one when a clear bit below `n` is set. */
  lemma {:induction false} SetBitBound(mask: nat, i: nat, n: nat)
    requires !Has(mask, i) && i < n && mask < Pow2(n)
    ensures mask + Pow2(i) < Pow2(n)
    decreases i
  {
    if i == 0 {
      assert Pow2(n) == 2 * Pow2(n - 1);
    } else {
      assert Pow2(n) == 2 * Pow2(n - 1);
      assert mask / 2 < Pow2(n - 1);
      SetBitBound(mask / 2, i - 1, n - 1);
    }
  }

  lemma {:induction false} EmptyMask(i: nat)
    ensures !Has(0, i)
  {
    if i > 0 {
      EmptyMask(i - 1);
    }
  }
}

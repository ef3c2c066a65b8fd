/** 32-bit maps of occupied slots: bit tests, bit set and clear, and the population count below
    a bit, which is where the slot's payload lies in a compacted array. */
module Bitmaps {

  predicate BitAt(x: nat, i: nat) {
    if i == 0 then x % 2 == 1 else BitAt(x / 2, i - 1)
  }

  /** x | 1 << i */
  function SetBit(x: nat, i: nat): nat {
    if i == 0 then x - x % 2 + 1 else 2 * SetBit(x / 2, i - 1) + x % 2
  }

  /** x &^ 1 << i */
  function ClearBit(x: nat, i: nat): nat {
    if i == 0 then x - x % 2 else 2 * ClearBit(x / 2, i - 1) + x % 2
  }

  /** The bits of x set below bit i. */
  function Ones(x: nat, i: nat): nat {
    if i == 0 then 0 else x % 2 + Ones(x / 2, i - 1)
  }

  lemma {:induction false} OnesNext(x: nat, i: nat)
    ensures Ones(x, i + 1) == Ones(x, i) + if BitAt(x, i) then 1 else 0
    decreases i
  {
    if i > 0 { OnesNext(x / 2, i - 1); }
  }

  lemma {:induction false} OnesMono(x: nat, i: nat, j: nat)
    requires i <= j
    ensures Ones(x, i) <= Ones(x, j)
    decreases j
  {
    if i < j {
      OnesMono(x, i, j - 1);
      OnesNext(x, j - 1);
    }
  }

  /** A set bit has a place of its own. */
  lemma {:induction false} OnesAt(x: nat, i: nat, j: nat)
    requires BitAt(x, i) && i < j
    ensures Ones(x, i) < Ones(x, j)
  {
    OnesNext(x, i);
    OnesMono(x, i + 1, j);
  }

  /** Every place belongs to a set bit. */
  lemma {:induction false} BitOf(x: nat, n: nat, k: nat) returns (i: nat)
    requires k < Ones(x, n)
    ensures i < n && BitAt(x, i) && Ones(x, i) == k
    decreases n
  {
    OnesNext(x, n - 1);
    if k < Ones(x, n - 1) {
      i := BitOf(x, n - 1, k);
    } else {
      i := n - 1;
    }
  }

  lemma {:induction false} Halves(q: nat, r: nat)
    requires r < 2
    ensures (2 * q + r) / 2 == q && (2 * q + r) % 2 == r
  {
  }

  lemma {:induction false} BitSet(x: nat, i: nat, j: nat)
    ensures BitAt(SetBit(x, i), j) == (i == j || BitAt(x, j))
    decreases i
  {
    if i > 0 {
      Halves(SetBit(x / 2, i - 1), x % 2);
      if j > 0 { BitSet(x / 2, i - 1, j - 1); }
    } else {
      Halves(x / 2, 1);
      assert SetBit(x, 0) == 2 * (x / 2) + 1;
    }
  }

  lemma {:induction false} BitClear(x: nat, i: nat, j: nat)
    ensures BitAt(ClearBit(x, i), j) == (i != j && BitAt(x, j))
    decreases i
  {
    if i > 0 {
      Halves(ClearBit(x / 2, i - 1), x % 2);
      if j > 0 { BitClear(x / 2, i - 1, j - 1); }
    } else {
      Halves(x / 2, 0);
      assert ClearBit(x, 0) == 2 * (x / 2);
    }
  }

  lemma {:induction false} OnesSet(x: nat, i: nat, j: nat)
    requires !BitAt(x, i)
    ensures Ones(SetBit(x, i), j) == Ones(x, j) + if i < j then 1 else 0
    decreases j
  {
    if j > 0 {
      OnesSet(x, i, j - 1);
      OnesNext(SetBit(x, i), j - 1);
      OnesNext(x, j - 1);
      BitSet(x, i, j - 1);
    }
  }

  lemma {:induction false} OnesClear(x: nat, i: nat, j: nat)
    requires BitAt(x, i)
    ensures Ones(ClearBit(x, i), j) + (if i < j then 1 else 0) == Ones(x, j)
    decreases j
  {
    if j > 0 {
      OnesClear(x, i, j - 1);
      OnesNext(ClearBit(x, i), j - 1);
      OnesNext(x, j - 1);
      BitClear(x, i, j - 1);
    }
  }

  lemma {:induction false} OnesZero(i: nat)
    ensures Ones(0, i) == 0
    decreases i
  {
    if i > 0 { OnesZero(i - 1); }
  }

  /** x has no bit at or above n. */
  predicate Below(x: nat, n: nat) {
    if n == 0 then x == 0 else Below(x / 2, n - 1)
  }

  lemma {:induction false} BelowSet(x: nat, i: nat, n: nat)
    requires Below(x, n) && i < n
    ensures Below(SetBit(x, i), n)
    decreases n
  {
    if i > 0 {
      assert SetBit(x, i) / 2 == SetBit(x / 2, i - 1);
      BelowSet(x / 2, i - 1, n - 1);
    } else {
      assert SetBit(x, 0) / 2 == x / 2;
    }
  }

  lemma {:induction false} BelowClear(x: nat, i: nat, n: nat)
    requires Below(x, n)
    ensures Below(ClearBit(x, i), n)
    decreases n, i
  {
    if n > 0 {
      if i > 0 {
        assert ClearBit(x, i) / 2 == ClearBit(x / 2, i - 1);
        BelowClear(x / 2, i - 1, n - 1);
      } else {
        assert ClearBit(x, 0) / 2 == x / 2;
      }
    } else if i > 0 {
      BelowClear(0, i - 1, 0);
    }
  }

  lemma {:induction false} NoOnes(x: nat, n: nat)
    requires Below(x, n) && Ones(x, n) == 0
    ensures x == 0
    decreases n
  {
    if n > 0 { NoOnes(x / 2, n - 1); }
  }

  /** A map with one bit is that bit. */
  lemma {:induction false} OneBit(x: nat, i: nat, n: nat)
    requires Below(x, n) && BitAt(x, i) && i < n
    ensures Ones(x, n) == 1 <==> x == SetBit(0, i)
    decreases n
  {
    if i == 0 {
      if Ones(x, n) == 1 { NoOnes(x / 2, n - 1); }
      OnesZero(n - 1);
    } else {
      OneBit(x / 2, i - 1, n - 1);
      OnesAt(x / 2, i - 1, n - 1);
    }
  }

  lemma {:induction false} SetsCommute(x: nat, i: nat, j: nat)
    ensures SetBit(SetBit(x, i), j) == SetBit(SetBit(x, j), i)
    decreases i
  {
    if i > 0 && j > 0 {
      assert SetBit(x, i) / 2 == SetBit(x / 2, i - 1) && SetBit(x, j) / 2 == SetBit(x / 2, j - 1);
      SetsCommute(x / 2, i - 1, j - 1);
    } else if i == 0 && j > 0 {
      assert SetBit(x, 0) / 2 == x / 2 && SetBit(x, j) / 2 == SetBit(x / 2, j - 1);
    } else if j == 0 && i > 0 {
      assert SetBit(x, 0) / 2 == x / 2 && SetBit(x, i) / 2 == SetBit(x / 2, i - 1);
    }
  }
}

/**
 Bitmasks as unbounded natural numbers.

 A capability mask is a natural number below 2^256; bit `i` of `x` is the
 remainder of `x / 2^i` modulo 2. The bitwise operations are defined by
 recursion on the binary expansion, and the lemmas below characterise them
 bit by bit, which is how every layout fact about the role and feature
 constants is proved.
 */
module Bits {

  /** The width of a capability mask in bits. */
  const WordBits: nat := 256

  /** 2^n. */
  function Pow2(n: nat): (r: nat)
    ensures r >= 1
    ensures n > 0 ==> r % 2 == 0
  {
    if n == 0 then 1 else 2 * Pow2(n - 1)
  }

  /** 2^(a+b) = 2^a * 2^b. */
  lemma {:induction false} Pow2Add(a: nat, b: nat)
    ensures Pow2(a + b) == Pow2(a) * Pow2(b)
    decreases b
  {
    if b > 0 {
      Pow2Add(a, b - 1);
      calc {
        Pow2(a + b);
        2 * Pow2(a + (b - 1));
        2 * (Pow2(a) * Pow2(b - 1));
        Pow2(a) * (2 * Pow2(b - 1));
        Pow2(a) * Pow2(b);
      }
    }
  }

  /** 2^i < 2^j for i < j. */
  lemma {:induction false} Pow2Monotone(i: nat, j: nat)
    requires i < j
    ensures Pow2(i) < Pow2(j)
    decreases j
  {
    if i < j - 1 {
      Pow2Monotone(i, j - 1);
    }
  }

  /** The mask holding bit `i` alone. */
  function Bit(i: nat): (r: nat)
  {
    Pow2(i)
  }

  /** The mask holding bits 0 .. n-1, i.e. 2^n - 1. */
  function Ones(n: nat): (r: nat)
  {
    Pow2(n) - 1
  }

  /** A value that fits in one capability mask. */
  predicate IsWord(x: nat)
  {
    x < Pow2(WordBits)
  }

  /** Whether bit `i` of `x` is set. */
  predicate TestBit(x: nat, i: nat)
    decreases i
  {
    if i == 0 then x % 2 == 1 else TestBit(x / 2, i - 1)
  }

  /** Bitwise AND. */
  function And(a: nat, b: nat): (r: nat)
    ensures r <= a && r <= b
    decreases a
  {
    if a == 0 || b == 0 then 0
    else 2 * And(a / 2, b / 2) + (if a % 2 == 1 && b % 2 == 1 then 1 else 0)
  }

  /** Bitwise OR. */
  function Or(a: nat, b: nat): (r: nat)
    ensures a <= r && b <= r && r <= a + b
    decreases a
  {
    if a == 0 then b
    else if b == 0 then a
    else 2 * Or(a / 2, b / 2) + (if a % 2 == 1 || b % 2 == 1 then 1 else 0)
  }

  /** Every bit of `a` is a bit of `b`. */
  predicate Subset(a: nat, b: nat)
  {
    And(a, b) == a
  }

  /** `a` and `b` share no bit. */
  predicate Disjoint(a: nat, b: nat)
  {
    And(a, b) == 0
  }

  /** A power of two, recognised by halving. */
  predicate IsPowerOfTwo(x: nat)
    decreases x
  {
    x == 1 || (x >= 2 && x % 2 == 0 && IsPowerOfTwo(x / 2))
  }

  /** `x` has bit `i` set and no other bit. */
  ghost predicate IsSingleBitAt(x: nat, i: nat)
  {
    forall j: nat :: TestBit(x, j) <==> j == i
  }

  // ---------------------------------------------------------------------
  // Bit-level characterisations

  /** Zero has no bit set. */
  lemma {:induction false} ZeroHasNoBits(i: nat)
    ensures !TestBit(0, i)
  {
    if i > 0 {
      ZeroHasNoBits(i - 1);
    }
  }

  /** Halving undoes doubling, and the remainder is the added low bit. */
  lemma Halve(q: nat, low: nat)
    requires low < 2
    ensures (2 * q + low) % 2 == low
    ensures (2 * q + low) / 2 == q
  {
  }

  /** The low bit and the halving of a conjunction. */
  lemma AndStep(a: nat, b: nat)
    ensures And(a, b) % 2 == (if a % 2 == 1 && b % 2 == 1 then 1 else 0)
    ensures And(a, b) / 2 == And(a / 2, b / 2)
  {
    if a != 0 && b != 0 {
      Halve(And(a / 2, b / 2), if a % 2 == 1 && b % 2 == 1 then 1 else 0);
    }
  }

  /** Bit `i` of a conjunction is the conjunction of the bits. */
  lemma {:induction false} AndBit(a: nat, b: nat, i: nat)
    ensures TestBit(And(a, b), i) <==> TestBit(a, i) && TestBit(b, i)
    decreases i
  {
    AndStep(a, b);
    if i > 0 {
      AndBit(a / 2, b / 2, i - 1);
    }
  }

  /** The low bit and the halving of a disjunction of two non-zero values. */
  lemma OrStep(a: nat, b: nat)
    requires a != 0 && b != 0
    ensures Or(a, b) % 2 == (if a % 2 == 1 || b % 2 == 1 then 1 else 0)
    ensures Or(a, b) / 2 == Or(a / 2, b / 2)
  {
    var q, low := Or(a / 2, b / 2), if a % 2 == 1 || b % 2 == 1 then 1 else 0;
    assert Or(a, b) == 2 * q + low;
    Halve(q, low);
  }

  /** Bit `i` of a disjunction is the disjunction of the bits. */
  lemma {:induction false} OrBit(a: nat, b: nat, i: nat)
    ensures TestBit(Or(a, b), i) <==> TestBit(a, i) || TestBit(b, i)
    decreases i
  {
    if a == 0 || b == 0 {
      ZeroHasNoBits(i);
    } else {
      OrStep(a, b);
      if i > 0 {
        OrBit(a / 2, b / 2, i - 1);
      }
    }
  }

  /** Two numbers with the same bits are equal. */
  lemma {:induction false} BitsDetermineValue(a: nat, b: nat)
    requires forall i: nat :: TestBit(a, i) <==> TestBit(b, i)
    ensures a == b
    decreases a + b
  {
    assert TestBit(a, 0) <==> TestBit(b, 0);
    if a != 0 || b != 0 {
      forall i: nat
        ensures TestBit(a / 2, i) <==> TestBit(b / 2, i)
      {
        assert TestBit(a, i + 1) <==> TestBit(b, i + 1);
      }
      BitsDetermineValue(a / 2, b / 2);
    }
  }

  /** 2^j has bit j set and no other bit. */
  lemma {:induction false} Pow2Bit(j: nat, i: nat)
    ensures TestBit(Pow2(j), i) <==> i == j
    decreases i
  {
    if i > 0 {
      if j == 0 {
        ZeroHasNoBits(i - 1);
      } else {
        Pow2Bit(j - 1, i - 1);
      }
    }
  }

  /** 2^j is a single bit, at position j. */
  lemma Pow2IsSingleBit(j: nat)
    ensures IsSingleBitAt(Pow2(j), j)
  {
    forall i: nat
      ensures TestBit(Pow2(j), i) <==> i == j
    {
      Pow2Bit(j, i);
    }
  }

  /** For n > 0, 2^n - 1 is odd and halves to 2^(n-1) - 1. */
  lemma OnesHalves(n: nat)
    requires n > 0
    ensures Ones(n) % 2 == 1
    ensures Ones(n) / 2 == Ones(n - 1)
  {
    var p := Pow2(n - 1);
    assert Ones(n) == 2 * (p - 1) + 1;
  }

  /** 2^n - 1 has exactly the bits 0 .. n-1. */
  lemma {:induction false} OnesBit(n: nat, i: nat)
    ensures TestBit(Ones(n), i) <==> i < n
    decreases n
  {
    if n == 0 {
      ZeroHasNoBits(i);
    } else {
      OnesHalves(n);
      if i > 0 {
        OnesBit(n - 1, i - 1);
      }
    }
  }

  /** A number below 2^n has no bit at position n or above. */
  lemma {:induction false} BoundedBits(x: nat, n: nat, i: nat)
    requires x < Pow2(n)
    requires TestBit(x, i)
    ensures i < n
    decreases n
  {
    if n == 0 {
      assert x == 0;
      ZeroHasNoBits(i);
    } else if i > 0 {
      BoundedBits(x / 2, n - 1, i - 1);
    }
  }

  /** Below 2^(n+1), bit n is set exactly for the values at or above 2^n. */
  lemma {:induction false} TopBit(x: nat, n: nat)
    requires x < Pow2(n + 1)
    ensures TestBit(x, n) <==> x >= Pow2(n)
    decreases n
  {
    if n > 0 {
      TopBit(x / 2, n - 1);
    }
  }

  /** The powers of two are exactly the values 2^i. */
  lemma {:induction false} Pow2IsPowerOfTwo(i: nat)
    ensures IsPowerOfTwo(Pow2(i))
  {
    if i > 0 {
      Pow2IsPowerOfTwo(i - 1);
      assert Pow2(i) / 2 == Pow2(i - 1);
    }
  }

  // ---------------------------------------------------------------------
  // Set-like consequences

  /** Masking a word with the all-ones word leaves it unchanged. */
  lemma OnesKeepsBounded(x: nat, n: nat)
    requires x < Pow2(n)
    ensures And(x, Ones(n)) == x
  {
    forall i: nat
      ensures TestBit(And(x, Ones(n)), i) <==> TestBit(x, i)
    {
      AndBit(x, Ones(n), i);
      OnesBit(n, i);
      if TestBit(x, i) {
        BoundedBits(x, n, i);
      }
    }
    BitsDetermineValue(And(x, Ones(n)), x);
  }

  /** Distinct single bits are disjoint. */
  lemma DistinctBitsDisjoint(i: nat, j: nat)
    requires i != j
    ensures And(Pow2(i), Pow2(j)) == 0
  {
    forall k: nat
      ensures TestBit(And(Pow2(i), Pow2(j)), k) <==> TestBit(0, k)
    {
      AndBit(Pow2(i), Pow2(j), k);
      Pow2Bit(i, k);
      Pow2Bit(j, k);
      ZeroHasNoBits(k);
    }
    BitsDetermineValue(And(Pow2(i), Pow2(j)), 0);
  }

  /** A single bit lies inside the low window 0 .. n-1 exactly when i < n, and is disjoint from it otherwise. */
  lemma BitAgainstWindow(i: nat, n: nat)
    ensures i < n ==> And(Pow2(i), Ones(n)) == Pow2(i)
    ensures i >= n ==> And(Pow2(i), Ones(n)) == 0
  {
    forall k: nat
      ensures TestBit(And(Pow2(i), Ones(n)), k) <==> TestBit(if i < n then Pow2(i) else 0, k)
    {
      AndBit(Pow2(i), Ones(n), k);
      Pow2Bit(i, k);
      OnesBit(n, k);
      ZeroHasNoBits(k);
    }
    BitsDetermineValue(And(Pow2(i), Ones(n)), if i < n then Pow2(i) else 0);
  }

  /** The top-bit characterisation for every value below 2^(n+1) at once. */
  lemma TopBitOfAll(n: nat)
    ensures forall x: nat :: x < Pow2(n + 1) ==> (TestBit(x, n) <==> x >= Pow2(n))
  {
    forall x: nat | x < Pow2(n + 1)
      ensures TestBit(x, n) <==> x >= Pow2(n)
    {
      TopBit(x, n);
    }
  }

  /** 2^n - 1 has exactly the bits below n, and masking with it keeps every value below 2^n. */
  lemma OnesOfAll(n: nat)
    ensures forall i: nat :: TestBit(Ones(n), i) <==> i < n
    ensures forall x: nat :: x < Pow2(n) ==> And(x, Ones(n)) == x
  {
    forall i: nat
      ensures TestBit(Ones(n), i) <==> i < n
    {
      OnesBit(n, i);
    }
    forall x: nat | x < Pow2(n)
      ensures And(x, Ones(n)) == x
    {
      OnesKeepsBounded(x, n);
    }
  }
}

/** Machine words as natural numbers.

    The runtime works on unsigned 64-bit words: the timing wheel finds a level
    with xor and count-leading-zeros and a slot with rotate and
    count-trailing-zeros, the local queue packs two 32-bit counters in one
    word, and the idle state packs two counters in another.  The bit operations
    are defined here by halving, so that each of them is a statement about all
    bits at once, and the lemmas say what they compute. */
module Words {

  const W32: nat := 0x1_0000_0000
  const W64: nat := 0x1_0000_0000_0000_0000

  function Pow2(k: nat): (p: nat)
    ensures p > 0
  {
    if k == 0 then 1 else 2 * Pow2(k - 1)
  }

  /** Bit `i` of `x`; bit 0 is the least significant one. */
  predicate Bit(x: nat, i: nat)
    decreases i
  {
    if i == 0 then x % 2 == 1 else Bit(x / 2, i - 1)
  }

  function Or(a: nat, b: nat): nat
    decreases a + b
  {
    if a == 0 && b == 0 then 0
    else (if a % 2 == 1 || b % 2 == 1 then 1 else 0) + 2 * Or(a / 2, b / 2)
  }

  function And(a: nat, b: nat): nat
    decreases a + b
  {
    if a == 0 || b == 0 then 0
    else (if a % 2 == 1 && b % 2 == 1 then 1 else 0) + 2 * And(a / 2, b / 2)
  }

  function Xor(a: nat, b: nat): nat
    decreases a + b
  {
    if a == 0 && b == 0 then 0
    else (if a % 2 != b % 2 then 1 else 0) + 2 * Xor(a / 2, b / 2)
  }

  function Shr(x: nat, k: nat): nat
    decreases k
  {
    if k == 0 then x else Shr(x / 2, k - 1)
  }

  /** Left shift without truncation. */
  function Shl(x: nat, k: nat): nat
    decreases k
  {
    if k == 0 then x else Shl(2 * x, k - 1)
  }

  /** The low `n` bits of `x`. */
  function Low(x: nat, n: nat): nat
    decreases n
  {
    if n == 0 then 0 else x % 2 + 2 * Low(x / 2, n - 1)
  }

  function Not64(x: nat): nat
    requires x < W64
  {
    W64 - 1 - x
  }

  /** Rotate right by `k`, counted modulo 64. */
  function Rotr(x: nat, k: nat): nat {
    var r := k % 64;
    if r == 0 then x else Or(Shr(x, r), Shl(Low(x, r), 64 - r))
  }

  function BitLength(x: nat): nat {
    if x == 0 then 0 else 1 + BitLength(x / 2)
  }

  function CountlZero(x: nat): int
    requires x < W64
  {
    64 - BitLength(x)
  }

  function CountrZero(x: nat): nat {
    if x == 0 then 64 else if x % 2 == 1 then 0 else 1 + CountrZero(x / 2)
  }

  // ----- powers and lengths

  lemma Pow2Literals()
    ensures Pow2(6) == 64 && Pow2(12) == 0x1000 && Pow2(16) == 0x1_0000 && Pow2(18) == 0x4_0000
    ensures Pow2(24) == 0x100_0000 && Pow2(30) == 0x4000_0000 && Pow2(36) == 0x10_0000_0000
    ensures Pow2(32) == W32 && Pow2(64) == W64
  {
    Pow2Plus(6, 6);
    Pow2Plus(12, 4);
    Pow2Plus(12, 6);
    Pow2Plus(12, 12);
    Pow2Plus(18, 12);
    Pow2Plus(16, 16);
    Pow2Plus(18, 18);
    Pow2Plus(32, 32);
  }

  lemma {:induction false} Pow2Plus(j: nat, k: nat)
    ensures Pow2(j + k) == Pow2(j) * Pow2(k)
    decreases j
  {
    if j > 0 {
      Pow2Plus(j - 1, k);
    }
  }

  lemma {:induction false} BitLengthBound(x: nat, k: nat)
    ensures BitLength(x) <= k <==> x < Pow2(k)
    decreases k
  {
    if k > 0 && x > 0 {
      BitLengthBound(x / 2, k - 1);
    }
  }

  // ----- what each bit operation does to every bit

  lemma {:induction false} ZeroHasNoBits(i: nat)
    ensures !Bit(0, i)
    decreases i
  {
    if i > 0 {
      ZeroHasNoBits(i - 1);
    }
  }

  lemma OrHalves(a: nat, b: nat)
    ensures Or(a, b) / 2 == Or(a / 2, b / 2)
    ensures Or(a, b) % 2 == 1 <==> a % 2 == 1 || b % 2 == 1
  {
  }

  lemma {:induction false} OrBit(a: nat, b: nat, i: nat)
    ensures Bit(Or(a, b), i) <==> Bit(a, i) || Bit(b, i)
    decreases i
  {
    OrHalves(a, b);
    if i > 0 {
      OrBit(a / 2, b / 2, i - 1);
    }
  }

  lemma AndHalves(a: nat, b: nat)
    ensures And(a, b) / 2 == And(a / 2, b / 2)
    ensures And(a, b) % 2 == 1 <==> a % 2 == 1 && b % 2 == 1
  {
  }

  lemma {:induction false} AndBit(a: nat, b: nat, i: nat)
    ensures Bit(And(a, b), i) <==> Bit(a, i) && Bit(b, i)
    decreases i
  {
    AndHalves(a, b);
    if i > 0 {
      AndBit(a / 2, b / 2, i - 1);
    }
  }

  lemma {:induction false} ShrBit(x: nat, k: nat, i: nat)
    ensures Bit(Shr(x, k), i) <==> Bit(x, i + k)
    decreases k
  {
    if k > 0 {
      ShrBit(x / 2, k - 1, i);
    }
  }

  lemma {:induction false} ShlBit(x: nat, k: nat, i: nat)
    ensures Bit(Shl(x, k), i) <==> i >= k && Bit(x, i - k)
    decreases k
  {
    if k > 0 {
      ShlBit(2 * x, k - 1, i);
      if i >= k {
        assert (2 * x) / 2 == x;
        assert Bit(2 * x, i - k + 1) == Bit(x, i - k);
      }
    }
  }

  lemma {:induction false} LowBit(x: nat, n: nat, i: nat)
    ensures Bit(Low(x, n), i) <==> i < n && Bit(x, i)
    decreases n
  {
    if n == 0 {
      ZeroHasNoBits(i);
    } else if i > 0 {
      assert Low(x, n) / 2 == Low(x / 2, n - 1);
      LowBit(x / 2, n - 1, i - 1);
    }
  }

  lemma {:induction false} ComplementBit(x: nat, n: nat, i: nat)
    requires x < Pow2(n)
    ensures Bit(Pow2(n) - 1 - x, i) <==> i < n && !Bit(x, i)
    decreases n
  {
    if n == 0 {
      ZeroHasNoBits(i);
    } else if i > 0 {
      assert (Pow2(n) - 1 - x) / 2 == Pow2(n - 1) - 1 - x / 2;
      ComplementBit(x / 2, n - 1, i - 1);
    }
  }

  lemma {:induction false} NoBitsMeansZero(x: nat, n: nat)
    requires x < Pow2(n)
    requires forall i :: 0 <= i < n ==> !Bit(x, i)
    ensures x == 0
    decreases n
  {
    if n > 0 {
      assert !Bit(x, 0);
      forall i | 0 <= i < n - 1
        ensures !Bit(x / 2, i)
      {
        assert !Bit(x, i + 1);
      }
      NoBitsMeansZero(x / 2, n - 1);
    }
  }

  // ----- sizes

  lemma {:induction false} LowSize(x: nat, n: nat)
    ensures Low(x, n) < Pow2(n)
    decreases n
  {
    if n > 0 {
      LowSize(x / 2, n - 1);
    }
  }

  lemma {:induction false} OrSize(a: nat, b: nat, n: nat)
    requires a < Pow2(n) && b < Pow2(n)
    ensures Or(a, b) < Pow2(n)
    decreases n
  {
    if n > 0 && (a > 0 || b > 0) {
      OrSize(a / 2, b / 2, n - 1);
    }
  }

  lemma {:induction false} AndSize(a: nat, b: nat)
    ensures And(a, b) <= a
    decreases a + b
  {
    if a > 0 && b > 0 {
      AndSize(a / 2, b / 2);
    }
  }

  // ----- shifts as arithmetic

  lemma {:induction false} ShrTwice(x: nat, j: nat, k: nat)
    ensures Shr(Shr(x, j), k) == Shr(x, j + k)
    decreases j
  {
    if j > 0 {
      ShrTwice(x / 2, j - 1, k);
    }
  }

  lemma {:induction false} ShlIsMul(x: nat, k: nat)
    ensures Shl(x, k) == x * Pow2(k)
    decreases k
  {
    if k > 0 {
      ShlIsMul(2 * x, k - 1);
    }
  }

  lemma Shr6(x: nat)
    ensures Shr(x, 6) == x / 64
  {
    assert Shr(x, 6) == Shr(x / 2, 5) == Shr(x / 2 / 2, 4) == Shr(x / 2 / 2 / 2, 3)
        == Shr(x / 2 / 2 / 2 / 2, 2) == Shr(x / 2 / 2 / 2 / 2 / 2, 1) == x / 2 / 2 / 2 / 2 / 2 / 2;
  }

  // ----- xor, or, and as numbers

  lemma {:induction false} XorZero(a: nat, b: nat)
    ensures Xor(a, b) == 0 <==> a == b
    decreases a + b
  {
    if a > 0 || b > 0 {
      XorZero(a / 2, b / 2);
    }
  }

  /** The xor of two numbers fits in `k` bits exactly when they agree above bit `k`. */
  lemma {:induction false} XorSmall(a: nat, b: nat, k: nat)
    ensures Xor(a, b) < Pow2(k) <==> Shr(a, k) == Shr(b, k)
    decreases k
  {
    if k == 0 {
      XorZero(a, b);
    } else {
      XorSmall(a / 2, b / 2, k - 1);
      if a == 0 && b == 0 {
        assert Xor(a / 2, b / 2) == 0;
      }
    }
  }

  lemma {:induction false} OrMaskSmall(x: nat, j: nat, k: nat)
    requires j <= k
    ensures Or(x, Pow2(j) - 1) < Pow2(k) <==> x < Pow2(k)
    ensures Or(x, Pow2(j) - 1) >= Pow2(j) - 1
    decreases k
  {
    if j == 0 {
      OrZero(x);
    } else {
      assert (Pow2(j) - 1) / 2 == Pow2(j - 1) - 1 && (Pow2(j) - 1) % 2 == 1;
      OrMaskSmall(x / 2, j - 1, k - 1);
    }
  }

  lemma {:induction false} OrZero(x: nat)
    ensures Or(x, 0) == x
  {
    if x > 0 {
      OrZero(x / 2);
    }
  }

  /** Or with a number below the lowest set bit is addition. */
  lemma {:induction false} OrIsPlus(a: nat, b: nat, k: nat)
    requires b < Pow2(k)
    ensures Or(a * Pow2(k), b) == a * Pow2(k) + b
    decreases k
  {
    if k == 0 {
      OrZero(a);
    } else {
      var p := a * Pow2(k - 1);
      assert a * Pow2(k) == 2 * p;
      OrIsPlus(a, b / 2, k - 1);
      assert Or(2 * p, b) == b % 2 + 2 * Or(p, b / 2);
    }
  }

  /** And with a mask of `k` ones keeps the low `k` bits. */
  lemma {:induction false} AndMask(x: nat, k: nat)
    ensures And(x, Pow2(k) - 1) == Low(x, k)
    decreases k
  {
    if k > 0 {
      assert (Pow2(k) - 1) / 2 == Pow2(k - 1) - 1 && (Pow2(k) - 1) % 2 == 1;
      AndMask(x / 2, k - 1);
      if x == 0 {
        assert And(x / 2, Pow2(k - 1) - 1) == 0;
      }
    }
  }

  /** And with `n` ones of which the low `k` are cleared drops the low `k` bits. */
  lemma {:induction false} AndHighMask(x: nat, n: nat, k: nat)
    requires k <= n && x < Pow2(n)
    ensures Pow2(k) <= Pow2(n)
    ensures And(x, Pow2(n) - Pow2(k)) == x - Low(x, k)
    decreases n
  {
    if k == 0 {
      AndMask(x, n);
      LowAll(x, n);
    } else {
      AndHighMask(x / 2, n - 1, k - 1);
      assert (Pow2(n) - Pow2(k)) / 2 == Pow2(n - 1) - Pow2(k - 1) && (Pow2(n) - Pow2(k)) % 2 == 0;
      if x == 0 || n == k {
        LowAll(x, k);
      }
      if n == k {
        assert And(x, 0) == 0;
      }
    }
  }

  lemma {:induction false} LowAll(x: nat, n: nat)
    requires x < Pow2(n)
    ensures Low(x, n) == x
    decreases n
  {
    if n > 0 {
      LowAll(x / 2, n - 1);
    }
  }

  lemma {:induction false} LowShr(x: nat, k: nat)
    ensures x == Shr(x, k) * Pow2(k) + Low(x, k)
    decreases k
  {
    if k > 0 {
      LowShr(x / 2, k - 1);
      var q, p := Shr(x, k), Pow2(k - 1);
      assert x / 2 == q * p + Low(x / 2, k - 1);
      assert q * Pow2(k) == 2 * (q * p);
    }
  }

  // ----- bit maps of 64 slots

  function SetBit(x: nat, s: nat): nat {
    Or(x, Shl(1, s))
  }

  function ClearBit(x: nat, s: nat): nat
    requires s < 64
  {
    PowerFits(s);
    And(x, Not64(Shl(1, s)))
  }

  lemma PowerFits(s: nat)
    requires s < 64
    ensures Shl(1, s) < W64
  {
    ShlIsMul(1, s);
    Pow2Grows(s, 64);
    Pow2Literals();
  }

  lemma {:induction false} Pow2Grows(j: nat, k: nat)
    requires j < k
    ensures Pow2(j) < Pow2(k)
    decreases k
  {
    if j < k - 1 {
      Pow2Grows(j, k - 1);
    }
  }

  lemma OneBit(s: nat, i: nat)
    ensures Bit(Shl(1, s), i) <==> i == s
  {
    ShlBit(1, s, i);
    if i > s {
      assert Bit(1, i - s) == Bit(0, i - s - 1);
      ZeroHasNoBits(i - s - 1);
    }
  }

  lemma SetBitEffect(x: nat, s: nat)
    requires x < W64 && s < 64
    ensures SetBit(x, s) < W64
    ensures forall i: nat :: Bit(SetBit(x, s), i) <==> Bit(x, i) || i == s
  {
    PowerFits(s);
    Pow2Literals();
    OrSize(x, Shl(1, s), 64);
    forall i: nat
      ensures Bit(SetBit(x, s), i) <==> Bit(x, i) || i == s
    {
      OrBit(x, Shl(1, s), i);
      OneBit(s, i);
    }
  }

  lemma ClearBitEffect(x: nat, s: nat)
    requires x < W64 && s < 64
    ensures ClearBit(x, s) < W64
    ensures forall i: nat :: i < 64 ==> (Bit(ClearBit(x, s), i) <==> Bit(x, i) && i != s)
  {
    PowerFits(s);
    Pow2Literals();
    AndSize(x, Not64(Shl(1, s)));
    forall i: nat | i < 64
      ensures Bit(ClearBit(x, s), i) <==> Bit(x, i) && i != s
    {
      AndBit(x, Not64(Shl(1, s)), i);
      ComplementBit(Shl(1, s), 64, i);
      OneBit(s, i);
    }
  }

  lemma {:induction false} RotrBit(x: nat, k: nat, i: nat)
    requires x < W64 && i < 64
    ensures Bit(Rotr(x, k), i) <==> Bit(x, (i + k) % 64)
  {
    var r := k % 64;
    assert (i + k) % 64 == (i + r) % 64;
    if r > 0 {
      RotrParts(x, r, i);
    }
  }

  lemma {:induction false} RotrParts(x: nat, r: nat, i: nat)
    requires x < W64 && 0 < r < 64 && i < 64
    ensures Bit(Or(Shr(x, r), Shl(Low(x, r), 64 - r)), i) <==> Bit(x, (i + r) % 64)
  {
    OrBit(Shr(x, r), Shl(Low(x, r), 64 - r), i);
    ShrBit(x, r, i);
    ShlBit(Low(x, r), 64 - r, i);
    if i + r >= 64 {
      LowBit(x, r, i + r - 64);
      TopBitsClear(x, i + r);
    }
  }

  lemma {:induction false} TopBitsClear(x: nat, i: nat)
    requires x < W64 && i >= 64
    ensures !Bit(x, i)
  {
    Pow2Literals();
    HighBitsClear(x, 64, i);
  }

  lemma {:induction false} HighBitsClear(x: nat, n: nat, i: nat)
    requires x < Pow2(n) && i >= n
    ensures !Bit(x, i)
    decreases n
  {
    if n == 0 {
      ZeroHasNoBits(i);
    } else {
      HighBitsClear(x / 2, n - 1, i - 1);
    }
  }

  lemma {:induction false} CountrZeroFirst(x: nat, i: nat)
    requires x > 0
    ensures Bit(x, CountrZero(x))
    ensures i < CountrZero(x) ==> !Bit(x, i)
  {
    if x % 2 == 0 {
      CountrZeroFirst(x / 2, if i == 0 then 0 else i - 1);
    }
  }

  lemma {:induction false} NoBits64(x: nat)
    requires x < W64
    requires forall i :: 0 <= i < 64 ==> !Bit(x, i)
    ensures x == 0
  {
    Pow2Literals();
    NoBitsMeansZero(x, 64);
  }
}

/** The word in which the scheduler packs how many workers are working and how
    many are searching: the low 16 bits are the searchers, the rest the workers. */
module IdleWord {
  import opened Words

  const WORKING_SHIFT: nat := 16
  const UNIT: nat := 0x1_0000
  const SEARCHING_MASK: nat := 0xffff
  const WORKING_MASK: nat := Xor(W64 - 1, SEARCHING_MASK)
  const MAX_WORKING: nat := 0x1_0000_0000_0000

  function NumSearching(word: nat): nat {
    And(word, SEARCHING_MASK)
  }

  function NumWorking(word: nat): nat {
    Shr(And(word, WORKING_MASK), WORKING_SHIFT)
  }

  // ----- the atomic updates, on 64-bit words

  function FetchAdd(word: nat, n: nat): (w: nat)
    ensures w < W64
  {
    (word + n) % W64
  }

  function FetchSub(word: nat, n: nat): (w: nat)
    requires n <= W64
    ensures w < W64
  {
    (word + W64 - n) % W64
  }

  function IncSearching(word: nat): nat {
    FetchAdd(word, 1)
  }

  function DecSearching(word: nat): nat {
    FetchSub(word, 1)
  }

  /** A worker starts working; `searching` is 1 if it is to search. */
  function WakeUpOne(word: nat, searching: nat): nat {
    FetchAdd(word, Or(searching, Shl(1, WORKING_SHIFT)))
  }

  function DecWorking(word: nat, searching: bool): nat {
    FetchSub(word, UNIT + if searching then 1 else 0)
  }

  // ----- what the word stands for

  /** The word for two counts. */
  function Packed(working: nat, searching: nat): nat {
    working * UNIT + searching
  }

  predicate Fits(working: int, searching: int) {
    0 <= working < MAX_WORKING && 0 <= searching < UNIT
  }

  lemma {:induction false} XorOnes(n: nat, k: nat)
    requires k <= n
    ensures Pow2(k) <= Pow2(n) && Xor(Pow2(n) - 1, Pow2(k) - 1) == Pow2(n) - Pow2(k)
    decreases n
  {
    if k == 0 {
      XorNothing(Pow2(n) - 1);
    } else {
      XorOnes(n - 1, k - 1);
      assert (Pow2(n) - 1) / 2 == Pow2(n - 1) - 1 && (Pow2(k) - 1) / 2 == Pow2(k - 1) - 1;
    }
  }

  lemma {:induction false} XorNothing(x: nat)
    ensures Xor(x, 0) == x
  {
    if x > 0 {
      XorNothing(x / 2);
    }
  }

  lemma {:induction false} MasksSplitTheWord(ones: nat)
    requires ones == W64 - 1
    ensures Xor(ones, SEARCHING_MASK) == W64 - UNIT
  {
    hide Xor, Pow2;
    Pow2Literals();
    XorOnes(64, 16);
  }

  /** `Shr` and `Low` at the boundary of the two counts, which is at bit `k`. */
  lemma {:induction false} Halves(x: nat, k: nat)
    requires Pow2(k) == UNIT
    ensures Shr(x, k) == x / UNIT && Low(x, k) == x % UNIT
  {
    LowShr(x, k);
    LowSize(x, k);
  }

  /** The masks read the two counts back. */
  lemma {:induction false} FieldsOf(working: nat, searching: nat)
    requires Fits(working, searching)
    ensures NumWorking(Packed(working, searching)) == working
    ensures NumSearching(Packed(working, searching)) == searching
    ensures Packed(working, searching) < W64
  {
    hide Shr, Low, Pow2, And, Xor;
    Pow2Literals();
    var word := Packed(working, searching);
    AndMask(word, 16);
    Halves(word, 16);
    MasksSplitTheWord(W64 - 1);
    AndHighMask(word, 64, 16);
    Halves(word - searching, 16);
  }

  // ----- the updates are faithful as long as the counts fit

  /** One more searcher carries into the other count exactly when there are 2^16 - 1 already. */
  lemma {:induction false} IncSearchingFaithful(working: nat, searching: nat)
    requires Fits(working, searching) && (searching + 1 < UNIT || working + 1 < MAX_WORKING)
    ensures IncSearching(Packed(working, searching)) == Packed(working, searching + 1)
    ensures Fits(working, searching + 1) <==> NumWorking(IncSearching(Packed(working, searching))) == working
  {
    hide NumWorking, NumSearching;
    if searching + 1 == UNIT {
      FieldsOf(working + 1, 0);
      assert Packed(working, searching + 1) == Packed(working + 1, 0);
    } else {
      FieldsOf(working, searching + 1);
    }
  }

  /** One searcher less borrows from the other count exactly when there is none. */
  lemma {:induction false} DecSearchingFaithful(working: nat, searching: nat)
    requires Fits(working, searching) && working > 0
    ensures searching > 0 ==> DecSearching(Packed(working, searching)) == Packed(working, searching - 1)
    ensures searching > 0 <==> NumWorking(DecSearching(Packed(working, searching))) == working
  {
    hide NumWorking, NumSearching;
    if searching == 0 {
      FieldsOf(working - 1, UNIT - 1);
      assert DecSearching(Packed(working, searching)) == Packed(working - 1, UNIT - 1);
    } else {
      FieldsOf(working, searching - 1);
    }
  }

  lemma {:induction false} WakeUpOneFaithful(working: nat, searching: nat, more: nat)
    requires Fits(working, searching) && more <= 1
    requires Fits(working + 1, searching + more)
    ensures WakeUpOne(Packed(working, searching), more) == Packed(working + 1, searching + more)
  {
    hide Or, Shl, Pow2;
    UnitOr(more);
  }

  lemma {:induction false} UnitOr(more: nat)
    requires more <= 1
    ensures Or(more, Shl(1, WORKING_SHIFT)) == UNIT + more
  {
    hide Or, Shl, Pow2;
    Pow2Literals();
    ShlIsMul(1, 16);
    OrIsPlus(1, more, 16);
    OrCommutes(more, UNIT);
  }

  lemma {:induction false} OrCommutes(a: nat, b: nat)
    ensures Or(a, b) == Or(b, a)
    decreases a + b
  {
    if a > 0 || b > 0 {
      OrCommutes(a / 2, b / 2);
    }
  }

  lemma {:induction false} DecWorkingFaithful(working: nat, searching: nat, wasSearching: bool)
    requires Fits(working, searching) && working > 0 && (wasSearching ==> searching > 0)
    ensures DecWorking(Packed(working, searching), wasSearching)
            == Packed(working - 1, searching - if wasSearching then 1 else 0)
  {
  }
}

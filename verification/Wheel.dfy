/** The arithmetic of the hierarchical timing wheel: six levels of 64 slots,
    a slot of level `l` spanning 64^l milliseconds.

    Times count milliseconds since the wheel started.  `Index(t, l)` numbers the
    level-`l` slot that contains `t`, and `Begin(d, l)` is the first millisecond
    of the slot numbered `d`; `BeginIndex` says that the two are adjoint, and
    everything else about the wheel follows from that. */
module Wheel {
  import opened Words

  const NUM_LEVELS: nat := 6
  const LEVEL_MULT: nat := 64
  const MAX_DURATION: nat := 0xF_FFFF_FFFF

  /** The number of the level-`l` slot that contains `t`: its base-64 digits from digit `l` up. */
  function Index(t: nat, l: nat): nat
    decreases l
  {
    if l == 0 then t else Index(t / LEVEL_MULT, l - 1)
  }

  /** The first millisecond of the level-`l` slot numbered `d`. */
  function Begin(d: nat, l: nat): nat
    decreases l
  {
    if l == 0 then d else Begin(LEVEL_MULT * d, l - 1)
  }

  function SlotRange(l: nat): (r: nat)
    ensures r > 0
  {
    if l == 0 then 1 else SlotRange(l - 1) * LEVEL_MULT
  }

  function LevelRange(l: nat): nat {
    if l == 0 then 64 else LevelRange(l - 1) * LEVEL_MULT
  }

  function SlotFor(l: nat, when: nat): (slot: nat)
    ensures slot < LEVEL_MULT
  {
    Shr(when, l * 6) % LEVEL_MULT
  }

  /** The level of an entry due at `when`, as the runtime computes it: the position
      of the highest bit in which the two times differ, divided by six. */
  function LevelFor(elapsed: nat, when: nat): nat
    requires elapsed < W64 && when < W64
  {
    var masked := Or(Xor(elapsed, when), 63);
    var masked := if masked >= MAX_DURATION then MAX_DURATION - 1 else masked;
    LeadingBit(elapsed, when);
    var significant := 63 - CountlZero(masked);
    significant / NUM_LEVELS
  }

  /** The level the wheel promises: that of the highest base-64 digit in which
      the two times differ, the top level standing for all digits above it. */
  function HighestDifference(a: nat, b: nat, l: nat): (h: nat)
    requires l < NUM_LEVELS
    ensures l <= h < NUM_LEVELS
    ensures h == NUM_LEVELS - 1 || Index(a, h + 1) == Index(b, h + 1)
    ensures forall m :: l < m <= h ==> Index(a, m) != Index(b, m)
    decreases NUM_LEVELS - l
  {
    if l == NUM_LEVELS - 1 || Index(a, l + 1) == Index(b, l + 1) then l
    else HighestDifference(a, b, l + 1)
  }

  /** An entry due at `when` belongs in level `l` at time `elapsed`. */
  ghost predicate Placed(elapsed: nat, l: nat, when: nat) {
    && l < NUM_LEVELS
    && Index(elapsed, l) < Index(when, l)
    && if l < NUM_LEVELS - 1 then Index(elapsed, l + 1) == Index(when, l + 1)
       else Index(when, l) - Index(elapsed, l) < LEVEL_MULT
  }

  /** The range of the top level: the entry is at most 63 top-level slots away. */
  predicate InHorizon(elapsed: nat, when: nat) {
    Shr(when, 30) - Shr(elapsed, 30) <= 63
  }

  // ----- slots

  lemma {:induction false} BeginIndex(d: nat, t: nat, l: nat)
    ensures Begin(d, l) <= t <==> d <= Index(t, l)
    decreases l
  {
    if l > 0 {
      BeginIndex(LEVEL_MULT * d, t / 1, l - 1);
      IndexStep(t, l - 1);
    }
  }

  lemma {:induction false} IndexStep(t: nat, l: nat)
    ensures Index(t, l + 1) == Index(t, l) / LEVEL_MULT
    decreases l
  {
    if l > 0 {
      IndexStep(t / LEVEL_MULT, l - 1);
    }
  }

  lemma {:induction false} IndexOfBegin(d: nat, l: nat)
    ensures Index(Begin(d, l), l) == d
    decreases l
  {
    if l > 0 {
      IndexOfBegin(LEVEL_MULT * d, l - 1);
      IndexStep(Begin(d, l), l - 1);
    }
  }

  lemma IndexMonotone(s: nat, t: nat, l: nat)
    requires s <= t
    ensures Index(s, l) <= Index(t, l)
    decreases l
  {
  }

  lemma {:induction false} IndexAgreesAbove(s: nat, t: nat, l: nat, m: nat)
    requires l <= m && Index(s, l) == Index(t, l)
    ensures Index(s, m) == Index(t, m)
    decreases m
  {
    if l < m {
      IndexAgreesAbove(s, t, l, m - 1);
      IndexStep(s, m - 1);
      IndexStep(t, m - 1);
    }
  }

  lemma {:induction false} IndexIsShift(t: nat, l: nat)
    ensures Shr(t, l * 6) == Index(t, l)
    decreases l
  {
    if l > 0 {
      Shr6(t);
      ShrTwice(t, 6, (l - 1) * 6);
      IndexIsShift(t / LEVEL_MULT, l - 1);
    }
  }

  lemma BeginIsProduct(d: nat, l: nat)
    ensures Begin(d, l) == d * SlotRange(l)
    decreases l
  {
    if l > 0 {
      BeginIsProduct(LEVEL_MULT * d, l - 1);
    }
  }

  // ----- the level computed from the bits is the highest differing digit

  lemma {:induction false} XorSize(a: nat, b: nat, n: nat)
    requires a < Pow2(n) && b < Pow2(n)
    ensures Xor(a, b) < Pow2(n)
    decreases n
  {
    if n > 0 && (a > 0 || b > 0) {
      XorSize(a / 2, b / 2, n - 1);
    }
  }

  lemma MaskedSize(elapsed: nat, when: nat)
    requires elapsed < W64 && when < W64
    ensures Or(Xor(elapsed, when), 63) < W64
  {
    Pow2Literals();
    XorSize(elapsed, when, 64);
    OrSize(Xor(elapsed, when), 63, 64);
  }

  /** Below bit `6 * m` the masked difference vanishes exactly when the digits from `m` up agree. */
  lemma {:induction false} MaskedBelow(elapsed: nat, when: nat, m: nat)
    requires m >= 1
    ensures Or(Xor(elapsed, when), 63) < Pow2(6 * m) <==> Index(elapsed, m) == Index(when, m)
    ensures Or(Xor(elapsed, when), 63) >= 63
  {
    assert Pow2(6) == 64;
    OrMaskSmall(Xor(elapsed, when), 6, 6 * m);
    XorSmall(elapsed, when, 6 * m);
    IndexIsShift(elapsed, m);
    IndexIsShift(when, m);
  }

  lemma LeadingBit(elapsed: nat, when: nat)
    requires elapsed < W64 && when < W64
    ensures 63 <= Or(Xor(elapsed, when), 63) < W64
    ensures 6 <= BitLength(Or(Xor(elapsed, when), 63))
    ensures BitLength(MAX_DURATION - 1) == 36
  {
    MaskedSize(elapsed, when);
    MaskedBelow(elapsed, when, 1);
    var masked := Or(Xor(elapsed, when), 63);
    BitLengthBound(masked, 5);
    assert Pow2(5) == 32;
    Pow2Literals();
    BitLengthBound(MAX_DURATION - 1, 36);
    BitLengthBound(MAX_DURATION - 1, 35);
    assert Pow2(36) == 2 * Pow2(35);
  }

  lemma {:induction false} LevelForIsHighestDifference(elapsed: nat, when: nat)
    requires elapsed < W64 && when < W64
    ensures LevelFor(elapsed, when) == HighestDifference(elapsed, when, 0)
  {
    var h := HighestDifference(elapsed, when, 0);
    var masked := Or(Xor(elapsed, when), 63);
    LeadingBit(elapsed, when);
    if h > 0 {
      MaskedBelow(elapsed, when, h);
      BitLengthBound(masked, 6 * h);
    }
    if h < NUM_LEVELS - 1 {
      MaskedBelow(elapsed, when, h + 1);
      BitLengthBound(masked, 6 * (h + 1));
      PowerBelowMax(h + 1);
    } else {
      TopLevelLength(masked);
    }
  }

  lemma PowerBelowMax(h: nat)
    requires h < NUM_LEVELS
    ensures Pow2(6 * h) <= 0x4000_0000 < MAX_DURATION
  {
    Pow2Literals();
    if h < 5 {
      Pow2Grows(6 * h, 30);
    }
  }

  lemma TopLevelLength(masked: nat)
    requires BitLength(masked) > 30
    ensures masked < MAX_DURATION ==> BitLength(masked) <= 36
  {
    Pow2Literals();
    BitLengthBound(masked, 36);
  }

  /** A time in the future and within the horizon is filed where it belongs. */
  lemma {:induction false} LevelForPlaces(elapsed: nat, when: nat)
    requires elapsed < when < W64 && InHorizon(elapsed, when)
    ensures Placed(elapsed, LevelFor(elapsed, when), when)
  {
    LevelForIsHighestDifference(elapsed, when);
    var h := HighestDifference(elapsed, when, 0);
    IndexMonotone(elapsed, when, h);
    HorizonIndex(elapsed, when);
  }

  lemma HorizonIndex(elapsed: nat, when: nat)
    ensures InHorizon(elapsed, when) <==> Index(when, 5) - Index(elapsed, 5) <= 63
  {
    IndexIsShift(elapsed, 5);
    IndexIsShift(when, 5);
  }

  // ----- what the placement gives

  /** The beginning of the slot an entry is filed in: when the slot is due. */
  function SlotDue(l: nat, when: nat): nat {
    Begin(Index(when, l), l)
  }

  /** A filed entry's slot lies strictly in the future and does not end before the entry is due. */
  lemma {:induction false} SlotDueBetween(elapsed: nat, l: nat, when: nat)
    requires Placed(elapsed, l, when)
    ensures elapsed < SlotDue(l, when) <= when
  {
    BeginIndex(Index(when, l), when, l);
    BeginIndex(Index(when, l), elapsed, l);
  }

  /** The clock may jump anywhere before the slot is due. */
  lemma {:induction false} JumpKeepsPlaced(elapsed: nat, later: nat, l: nat, when: nat)
    requires Placed(elapsed, l, when)
    requires elapsed <= later < SlotDue(l, when)
    ensures Placed(later, l, when)
  {
    BeginIndex(Index(when, l), later, l);
    SlotDueBetween(elapsed, l, when);
    IndexMonotone(elapsed, later, l);
    if l < NUM_LEVELS - 1 {
      IndexMonotone(elapsed, later, l + 1);
      IndexMonotone(later, when, l + 1);
    }
  }

  /** A slot of a lower level is due strictly before every slot of a higher level. */
  lemma {:induction false} LowerLevelFirst(elapsed: nat, l: nat, when: nat, m: nat, other: nat)
    requires l < m
    requires Placed(elapsed, l, when) && Placed(elapsed, m, other)
    ensures SlotDue(l, when) < SlotDue(m, other)
  {
    SlotDueBetween(elapsed, l, when);
    IndexMonotone(SlotDue(l, when), when, m);
    IndexAgreesAbove(elapsed, when, l + 1, m);
    BeginIndex(Index(other, m), SlotDue(l, when), m);
  }

  lemma {:induction false} SlotForIsDigit(l: nat, when: nat)
    ensures SlotFor(l, when) == Index(when, l) % LEVEL_MULT
  {
    IndexIsShift(when, l);
  }

  /** How many level-`l` slots ahead of the clock a slot number lies, from 1 to 64. */
  function Ahead(elapsed: nat, l: nat, slot: nat): (z: nat)
    requires slot < LEVEL_MULT
    ensures 1 <= z <= LEVEL_MULT
    ensures (Index(elapsed, l) + z) % LEVEL_MULT == slot
  {
    var z := Turn(Index(elapsed, l), slot);
    if z == 0 then LEVEL_MULT else z
  }

  /** A filed entry is exactly as far ahead as its slot says, and never a full turn. */
  lemma {:induction false} PlacedAhead(elapsed: nat, l: nat, when: nat)
    requires Placed(elapsed, l, when)
    ensures Index(when, l) == Index(elapsed, l) + Ahead(elapsed, l, SlotFor(l, when))
    ensures Ahead(elapsed, l, SlotFor(l, when)) < LEVEL_MULT
  {
    SlotForIsDigit(l, when);
    if l < NUM_LEVELS - 1 {
      IndexStep(elapsed, l);
      IndexStep(when, l);
    }
  }

  /** When a slot falls due, each of its entries is either due now or goes to a strictly lower level. */
  lemma {:induction false} CascadeDescends(elapsed: nat, l: nat, when: nat)
    requires Placed(elapsed, l, when) && when < W64
    ensures SlotDue(l, when) <= when
    ensures when == SlotDue(l, when) ||
            (LevelFor(SlotDue(l, when), when) < l
             && Placed(SlotDue(l, when), LevelFor(SlotDue(l, when), when), when))
  {
    var due := SlotDue(l, when);
    SlotDueBetween(elapsed, l, when);
    if due < when {
      IndexOfBegin(Index(when, l), l);
      IndexAgreesAbove(due, when, l, 5);
      HorizonIndex(due, when);
      LevelForPlaces(due, when);
      LevelForIsHighestDifference(due, when);
    }
  }

  /** On level 0 a slot holds a single millisecond, so its entries are all due together. */
  lemma LevelZeroIsExact(when: nat)
    ensures SlotDue(0, when) == when
  {
  }

  // ----- the deadline of a slot, as a level computes it

  /** The next time at or after which the entries of `slot` may be due. */
  function DeadlineOf(l: nat, now: nat, slot: nat): nat
    requires l < NUM_LEVELS && now < W64
  {
    LevelRangeIsPower(l);
    var levelStart := And(now, Not64(LevelRange(l) - 1));
    var deadline := levelStart + slot * SlotRange(l);
    if deadline <= now then deadline + LevelRange(l) else deadline
  }

  lemma LevelRangeIsPower(l: nat)
    requires l < NUM_LEVELS
    ensures LevelRange(l) == Pow2(6 * (l + 1)) == SlotRange(l + 1)
    ensures 64 <= LevelRange(l) < W64
  {
    Pow2Literals();
    assert l == 0 || l == 1 || l == 2 || l == 3 || l == 4 || l == 5;
    assert LevelRange(0) == SlotRange(1) == 64;
    assert LevelRange(1) == SlotRange(2) == 0x1000;
    assert LevelRange(2) == SlotRange(3) == 0x4_0000;
    assert LevelRange(3) == SlotRange(4) == 0x100_0000;
    assert LevelRange(4) == SlotRange(5) == 0x4000_0000;
    assert LevelRange(5) == SlotRange(6) == 0x10_0000_0000;
  }

  lemma {:induction false} LevelStartIsBegin(l: nat, now: nat)
    requires l < NUM_LEVELS && now < W64
    ensures 0 <= LevelRange(l) - 1 < W64
    ensures And(now, Not64(LevelRange(l) - 1)) == Begin(LEVEL_MULT * Index(now, l + 1), l)
  {
    LevelRangeIsPower(l);
    var k := 6 * (l + 1);
    WordIsPower();
    AndHighMask(now, WordBits(), k);
    LowShr(now, k);
    IndexIsShift(now, l + 1);
    BeginIsProduct(Index(now, l + 1), l + 1);
  }

  // Not a literal, so that a proof does not unfold a recursion 64 times.
  function WordBits(): (n: nat)
    ensures n == 64
  {
    64
  }

  lemma WordIsPower()
    ensures Pow2(WordBits()) == W64
  {
    Pow2Literals();
  }

  lemma {:induction false} DeadlineIsBegin(l: nat, now: nat, slot: nat)
    requires l < NUM_LEVELS && now < W64 && slot < LEVEL_MULT
    ensures DeadlineOf(l, now, slot) == Begin(Index(now, l) + Ahead(now, l, slot), l)
  {
    DeadlineCases(l, now, slot);
    DueFromNumber(l, now, slot);
  }

  lemma {:induction false} DueFromNumber(l: nat, now: nat, slot: nat)
    requires slot < LEVEL_MULT
    ensures var number := LEVEL_MULT * Index(now, l + 1) + slot;
      Begin(Index(now, l) + Ahead(now, l, slot), l)
      == if Begin(number, l) <= now then Begin(number + LEVEL_MULT, l) else Begin(number, l)
  {
    AheadNumber(now, l, slot);
    BeginIndex(LEVEL_MULT * Index(now, l + 1) + slot, now, l);
  }

  lemma {:induction false} DeadlineCases(l: nat, now: nat, slot: nat)
    requires l < NUM_LEVELS && now < W64 && slot < LEVEL_MULT
    ensures var number := LEVEL_MULT * Index(now, l + 1) + slot;
      DeadlineOf(l, now, slot) == if Begin(number, l) <= now then Begin(number + LEVEL_MULT, l) else Begin(number, l)
  {
    hide And, SlotRange, LevelRange, Index, Begin;
    var first := LEVEL_MULT * Index(now, l + 1);
    LevelStartIsBegin(l, now);
    BeginPlus(first, slot, l);
    BeginTurn(first + slot, l);
  }

  /** Below the top level the correction for a full turn is never needed: an occupied slot's
      deadline, as first computed, lies in the future. */
  lemma {:induction false} WrapOnlyAtTop(elapsed: nat, l: nat, when: nat)
    requires l < NUM_LEVELS - 1 && elapsed < W64 && Placed(elapsed, l, when)
    ensures 0 <= LevelRange(l) - 1 < W64
    ensures And(elapsed, Not64(LevelRange(l) - 1)) + SlotFor(l, when) * SlotRange(l) == SlotDue(l, when) > elapsed
  {
    hide And, SlotRange, LevelRange, Index, Begin, SlotFor;
    var first := LEVEL_MULT * Index(elapsed, l + 1);
    LevelStartIsBegin(l, elapsed);
    BeginPlus(first, SlotFor(l, when), l);
    SlotForIsDigit(l, when);
    IndexStep(when, l);
    SlotDueBetween(elapsed, l, when);
  }

  lemma {:induction false} BeginTurn(d: nat, l: nat)
    ensures Begin(d + LEVEL_MULT, l) == Begin(d, l) + LevelRange(l)
  {
    BeginPlus(d, LEVEL_MULT, l);
    LevelRangeIsTurn(l);
  }

  lemma {:induction false} LevelRangeIsTurn(l: nat)
    ensures LevelRange(l) == LEVEL_MULT * SlotRange(l)
  {
    if l > 0 {
      LevelRangeIsTurn(l - 1);
    }
  }

  lemma {:induction false} AheadNumber(now: nat, l: nat, slot: nat)
    requires slot < LEVEL_MULT
    ensures var number := LEVEL_MULT * Index(now, l + 1) + slot;
      Index(now, l) + Ahead(now, l, slot) == if number <= Index(now, l) then number + LEVEL_MULT else number
  {
    IndexStep(now, l);
  }

  lemma {:induction false} BeginPlus(d: nat, e: nat, l: nat)
    ensures Begin(d + e, l) == Begin(d, l) + e * SlotRange(l)
  {
    BeginIsProduct(d, l);
    BeginIsProduct(d + e, l);
  }

  // ----- the first occupied slot, as a level finds it

  datatype Option<+T> = None | Some(value: T)

  /** The first occupied slot at or after the clock, by rotating the bit map to the current slot. */
  function NextOccupiedSlot(l: nat, occupied: nat, now: nat): Option<nat> {
    if occupied == 0 then None
    else
      var nowSlot := now / SlotRange(l);
      var zeros := CountrZero(Rotr(occupied, nowSlot));
      Some((zeros + nowSlot) % LEVEL_MULT)
  }

  lemma {:induction false} IndexIsDivision(t: nat, l: nat)
    ensures t / SlotRange(l) == Index(t, l)
  {
    var q := Index(t, l);
    BeginIndex(q, t, l);
    BeginIndex(q + 1, t, l);
    BeginPlus(q, 1, l);
    BeginIsProduct(q, l);
    QuotientIs(t, SlotRange(l), q);
  }

  lemma {:induction false} QuotientIs(t: nat, r: nat, q: nat)
    requires q * r <= t < q * r + r
    ensures t / r == q
  {
    QuotientUnique(t / r, q, r, t % r, t - q * r);
  }

  lemma {:induction false} QuotientUnique(p: nat, q: nat, r: nat, s: nat, u: nat)
    requires s < r && u < r && p * r + s == q * r + u
    ensures p == q
  {
    if p < q {
      ProductGrows(p, q, r);
    } else if q < p {
      ProductGrows(q, p, r);
    }
  }

  lemma {:induction false} ProductGrows(a: nat, b: nat, r: nat)
    requires a < b
    ensures a * r + r <= b * r
  {
    assert b * r == a * r + r + (b - a - 1) * r;
  }

  /** The search finds an occupied slot; it is the nearest one ahead of the clock
      unless the clock's own slot is occupied, which then hides all others. */
  lemma {:induction false} FirstOccupied(l: nat, occupied: nat, now: nat, i: nat)
    requires l < NUM_LEVELS && occupied < W64
    requires i < LEVEL_MULT && Bit(occupied, i)
    ensures NextOccupiedSlot(l, occupied, now).Some?
    ensures var slot := NextOccupiedSlot(l, occupied, now).value;
      && Bit(occupied, slot)
      && (Bit(occupied, Index(now, l) % LEVEL_MULT) ==> slot == Index(now, l) % LEVEL_MULT)
      && (!Bit(occupied, Index(now, l) % LEVEL_MULT) ==> Ahead(now, l, slot) <= Ahead(now, l, i))
  {
    ZeroHasNoBits(i);
    IndexIsDivision(now, l);
    var nowSlot := Index(now, l);
    ZerosReach(occupied, nowSlot, i);
    ZerosReach(occupied, nowSlot, nowSlot % LEVEL_MULT);
    TurnBack(nowSlot, CountrZero(Rotr(occupied, nowSlot)));
  }

  lemma {:induction false} TurnBack(nowSlot: nat, zeros: nat)
    ensures zeros < LEVEL_MULT ==> Turn(nowSlot, (zeros + nowSlot) % LEVEL_MULT) == zeros
    ensures Turn(nowSlot, nowSlot % LEVEL_MULT) == 0
  {
    var d := nowSlot % LEVEL_MULT;
    assert (zeros + nowSlot) % LEVEL_MULT == (zeros + d) % LEVEL_MULT;
  }

  lemma {:induction false} ZerosReach(occupied: nat, nowSlot: nat, i: nat)
    requires occupied < W64 && i < LEVEL_MULT
    ensures Bit(occupied, i) ==>
              var zeros := CountrZero(Rotr(occupied, nowSlot));
              zeros <= Turn(nowSlot, i) && Bit(occupied, (zeros + nowSlot) % LEVEL_MULT)
  {
    if Bit(occupied, i) {
      var j := Turn(nowSlot, i);
      var rotated := Rotr(occupied, nowSlot);
      RotrBit(occupied, nowSlot, j);
      ZeroHasNoBits(j);
      CountrZeroFirst(rotated, j);
      RotrBit(occupied, nowSlot, CountrZero(rotated));
    }
  }

  /** How many slots to turn from `nowSlot` to reach slot `i`, from 0 to 63. */
  function Turn(nowSlot: nat, i: nat): (j: nat)
    requires i < LEVEL_MULT
    ensures j < LEVEL_MULT && (j + nowSlot) % LEVEL_MULT == i
  {
    (i + LEVEL_MULT - nowSlot % LEVEL_MULT) % LEVEL_MULT
  }
}

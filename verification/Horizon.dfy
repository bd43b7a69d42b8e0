/** How far ahead a timeout may lie.  The wheel declares a maximum duration of
    2^36 - 1 ms, but the search of the top level is right for every later clock
    and every other timeout exactly when the top-level distance is at most 63. */
module Horizon {
  import opened Words
  import opened Wheel
  import opened Search

  const TOP: nat := 5

  /** `other` lies 1 to 63 top-level slots ahead of the clock, so it is filed at the top level and may not be missed. */
  predicate TopNeighbour(clock: nat, other: nat) {
    other < W64 && Index(clock, TOP) < Index(other, TOP) <= Index(clock, TOP) + 63
  }

  /** With the slots of `when` and `other` occupied, the top level reports a deadline past `other`. */
  predicate Overshoots(clock: nat, when: nat, other: nat)
    requires clock < W64
  {
    var occupied := SetBit(SetBit(0, SlotFor(TOP, when)), SlotFor(TOP, other));
    var x := LevelExpiration(TOP, occupied, clock);
    x.Some? && x.value.deadline > other
  }

  lemma {:induction false} TwoSlots(when: nat, other: nat, i: nat)
    ensures var occupied := SetBit(SetBit(0, SlotFor(TOP, when)), SlotFor(TOP, other));
      occupied < W64 && (Bit(occupied, i) <==> i == SlotFor(TOP, when) || i == SlotFor(TOP, other))
  {
    ZeroHasNoBits(i);
    SetBitEffect(0, SlotFor(TOP, when));
    SetBitEffect(SetBit(0, SlotFor(TOP, when)), SlotFor(TOP, other));
  }

  lemma {:induction false} TopAhead(clock: nat, t: nat)
    requires Index(clock, TOP) < Index(t, TOP) <= Index(clock, TOP) + 64
    ensures Ahead(clock, TOP, SlotFor(TOP, t)) == Index(t, TOP) - Index(clock, TOP)
    ensures SlotFor(TOP, t) == Index(clock, TOP) % LEVEL_MULT <==> Index(t, TOP) == Index(clock, TOP) + 64
  {
    SlotForIsDigit(TOP, t);
  }

  /** Within the horizon the search never overshoots a neighbour. */
  lemma {:induction false} NearDoesNotHide(clock: nat, when: nat, other: nat)
    requires clock < W64 && TopNeighbour(clock, when) && TopNeighbour(clock, other)
    ensures !Overshoots(clock, when, other)
  {
    hide SetBit, SlotFor, Index, Begin, Bit, DeadlineOf, NextOccupiedSlot, Ahead;
    var occupied := SetBit(SetBit(0, SlotFor(TOP, when)), SlotFor(TOP, other));
    var own := Index(clock, TOP) % LEVEL_MULT;
    TwoSlots(when, other, own);
    TwoSlots(when, other, SlotFor(TOP, other));
    TopAhead(clock, when);
    TopAhead(clock, other);
    FirstOccupied(TOP, occupied, clock, SlotFor(TOP, other));
    var slot := NextOccupiedSlot(TOP, occupied, clock).value;
    TwoSlots(when, other, slot);
    DeadlineIsBegin(TOP, clock, slot);
    BeginIndex(Index(clock, TOP) + Ahead(clock, TOP, slot), other, TOP);
  }

  /** A timeout exactly one turn ahead hides every other. */
  lemma {:induction false} FullTurnHides(clock: nat, when: nat, other: nat)
    requires clock < W64 && Index(when, TOP) == Index(clock, TOP) + 64
    requires TopNeighbour(clock, other)
    ensures Overshoots(clock, when, other)
  {
    hide SetBit, SlotFor, Index, Begin, Bit, DeadlineOf, NextOccupiedSlot, Ahead;
    var occupied := SetBit(SetBit(0, SlotFor(TOP, when)), SlotFor(TOP, other));
    var own := Index(clock, TOP) % LEVEL_MULT;
    TwoSlots(when, other, own);
    TopAhead(clock, when);
    TopAhead(clock, other);
    FirstOccupied(TOP, occupied, clock, own);
    DeadlineIsBegin(TOP, clock, own);
    BeginIndex(Index(clock, TOP) + 64, other, TOP);
  }

  /** Filing a timeout keeps the top level's search right at every later clock, whatever
      else is filed, if and only if the timeout is within the horizon when it is filed. */
  lemma {:induction false} HorizonIsExact(elapsed: nat, when: nat)
    requires elapsed < when < W64
    ensures InHorizon(elapsed, when) <==>
            forall clock: nat, other: nat ::
              elapsed <= clock < W64 && Index(clock, TOP) < Index(when, TOP) && TopNeighbour(clock, other)
              ==> !Overshoots(clock, when, other)
  {
    hide Index, Begin, InHorizon, Overshoots, TopNeighbour;
    HorizonIndex(elapsed, when);
    if InHorizon(elapsed, when) {
      forall clock: nat, other: nat |
        elapsed <= clock < W64 && Index(clock, TOP) < Index(when, TOP) && TopNeighbour(clock, other)
        ensures !Overshoots(clock, when, other)
      {
        IndexMonotone(elapsed, clock, TOP);
        MakeNeighbour(clock, when);
        NearDoesNotHide(clock, when, other);
      }
    } else {
      var clock, other := HidingMoment(elapsed, when);
      FullTurnHides(clock, when, other);
    }
  }

  lemma MakeNeighbour(clock: nat, t: nat)
    requires t < W64 && Index(clock, TOP) < Index(t, TOP) <= Index(clock, TOP) + 63
    ensures TopNeighbour(clock, t)
  {
  }

  /** A clock at which a far timeout is exactly one turn ahead, and a timeout it hides then. */
  lemma {:induction false} HidingMoment(elapsed: nat, when: nat) returns (clock: nat, other: nat)
    requires elapsed < when < W64 && Index(when, TOP) >= Index(elapsed, TOP) + 64
    ensures elapsed <= clock < W64 && Index(when, TOP) == Index(clock, TOP) + 64
    ensures TopNeighbour(clock, other)
  {
    hide Index, Begin;
    var d := Index(when, TOP) - 64;
    if d == Index(elapsed, TOP) {
      clock := elapsed;
    } else {
      clock := Begin(d, TOP);
      BeginIndex(d, elapsed, TOP);
      IndexOfBegin(d, TOP);
    }
    other := Begin(d + 1, TOP);
    IndexOfBegin(d + 1, TOP);
    BeginIndex(d + 1, when, TOP);
    BeginIndex(d, when, TOP);
    BeginIndex(d + 1, clock, TOP);
  }

  /** Any duration up to 63 top-level slots is within the horizon. */
  lemma {:induction false} DurationInHorizon(elapsed: nat, when: nat)
    requires elapsed <= when <= elapsed + 63 * 0x4000_0000
    ensures InHorizon(elapsed, when)
  {
    hide Index, Begin, InHorizon;
    HorizonIndex(elapsed, when);
    var d := Index(elapsed, TOP);
    BeginPlus(d + 1, 63, TOP);
    TopSlotRange();
    BeginIndex(d + 1, elapsed, TOP);
    BeginIndex(d + 64, when, TOP);
  }

  lemma TopSlotRange()
    ensures SlotRange(TOP) == 0x4000_0000
  {
    LevelRangeIsPower(4);
  }

  /** The declared maximum duration is too long: from clock 1, a timeout MAX_DURATION ahead
      is outside the horizon and at once hides one a single top-level slot ahead. */
  lemma {:induction false} MaxDurationIsTooLong()
    ensures !InHorizon(1, 1 + MAX_DURATION)
    ensures Overshoots(1, 1 + MAX_DURATION, 0x4000_0000)
  {
    hide Index, Begin, InHorizon, Overshoots;
    HorizonIndex(1, 1 + MAX_DURATION);
    TopSlotRange();
    BeginIsProduct(64, TOP);
    BeginIsProduct(1, TOP);
    BeginIsProduct(0, TOP);
    IndexOfBegin(64, TOP);
    IndexOfBegin(1, TOP);
    BeginIndex(1, 1, TOP);
    FullTurnHides(1, 1 + MAX_DURATION, 0x4000_0000);
  }
}

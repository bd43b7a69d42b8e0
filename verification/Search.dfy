/** What the search for the next expiration finds, and what happens to the
    placement of all entries when the clock moves and a slot is taken out. */
module Search {
  import opened Words
  import opened Wheel
  import opened Grid

  /** The occupancy word has a bit for exactly the nonempty slots. */
  ghost predicate Occupancy(occupied: nat, slots: Slots) {
    && occupied < W64
    && |slots| == LEVEL_MULT
    && forall i :: 0 <= i < LEVEL_MULT ==> (Bit(occupied, i) <==> slots[i] != [])
  }

  /** The expiration of a level: its first occupied slot and when that slot is due. */
  function LevelExpiration(l: nat, occupied: nat, now: nat): Option<Expiration>
    requires l < NUM_LEVELS && now < W64
  {
    match NextOccupiedSlot(l, occupied, now)
    case None => None
    case Some(slot) => Some(Expiration(l, slot, DeadlineOf(l, now, slot)))
  }

  /** `x` is the earliest moment at which a slot of the wheel is due: no other
      slot is due by then, and every entry of its slot is due then or later. */
  ghost predicate Earliest(g: Levels, start: nat, elapsed: nat, x: Expiration)
    requires Shaped(g)
  {
    && x.level < NUM_LEVELS && x.slot < LEVEL_MULT
    && elapsed < x.deadline
    && g[x.level][x.slot] != []
    && (forall e :: e in g[x.level][x.slot] ==> SlotDue(x.level, When(e, start)) == x.deadline)
    && (forall l, i :: 0 <= l < NUM_LEVELS && 0 <= i < LEVEL_MULT && (l != x.level || i != x.slot) ==>
          DueAfter(g[l][i], start, l, x.deadline))
  }

  ghost predicate DueAfter(slot: seq<Entry>, start: nat, l: nat, time: nat) {
    forall e :: e in slot ==> time < SlotDue(l, When(e, start))
  }

  // ----- within one level

  lemma {:induction false} BeginStrict(a: nat, b: nat, l: nat)
    requires a < b
    ensures Begin(a, l) < Begin(b, l)
  {
    IndexOfBegin(a, l);
    BeginIndex(b, Begin(a, l), l);
  }

  lemma {:induction false} EntryDue(start: nat, elapsed: nat, l: nat, i: nat, e: Entry)
    requires i < LEVEL_MULT && Filed(e, start, elapsed, l, i)
    ensures Ahead(elapsed, l, i) < LEVEL_MULT
    ensures SlotDue(l, When(e, start)) == Begin(Index(elapsed, l) + Ahead(elapsed, l, i), l)
    ensures elapsed < SlotDue(l, When(e, start)) <= When(e, start)
  {
    PlacedAhead(elapsed, l, When(e, start));
    SlotDueBetween(elapsed, l, When(e, start));
  }

  /** The clock's own slot is never occupied, so the search cannot stop there. */
  lemma {:induction false} OwnSlotFree(slots: Slots, start: nat, elapsed: nat, l: nat, occupied: nat)
    requires l < NUM_LEVELS && Occupancy(occupied, slots)
    requires forall i :: 0 <= i < LEVEL_MULT ==> SlotFiled(slots[i], start, elapsed, l, i)
    ensures !Bit(occupied, Index(elapsed, l) % LEVEL_MULT)
  {
    var own := Index(elapsed, l) % LEVEL_MULT;
    if slots[own] != [] {
      EntryDue(start, elapsed, l, own, slots[own][0]);
    }
  }

  /** The first occupied slot of a level is due first among the slots of that level. */
  lemma {:induction false} FirstInLevel(slots: Slots, start: nat, elapsed: nat, l: nat, occupied: nat, i: nat)
    requires l < NUM_LEVELS && elapsed < W64 && Occupancy(occupied, slots)
    requires forall j :: 0 <= j < LEVEL_MULT ==> SlotFiled(slots[j], start, elapsed, l, j)
    requires i < LEVEL_MULT && slots[i] != []
    ensures LevelExpiration(l, occupied, elapsed).Some?
    ensures var x := LevelExpiration(l, occupied, elapsed).value;
      && x.level == l && x.slot < LEVEL_MULT && slots[x.slot] != []
      && x.deadline == Begin(Index(elapsed, l) + Ahead(elapsed, l, x.slot), l)
      && (i == x.slot || Ahead(elapsed, l, x.slot) < Ahead(elapsed, l, i))
  {
    hide Ahead, NextOccupiedSlot, DeadlineOf, Begin, Index, Bit, Filed;
    OwnSlotFree(slots, start, elapsed, l, occupied);
    FirstOccupied(l, occupied, elapsed, i);
    var slot := NextOccupiedSlot(l, occupied, elapsed).value;
    DeadlineIsBegin(l, elapsed, slot);
    AheadInjective(elapsed, l, slot, i);
  }

  lemma AheadInjective(elapsed: nat, l: nat, i: nat, j: nat)
    requires i < LEVEL_MULT && j < LEVEL_MULT
    ensures Ahead(elapsed, l, i) == Ahead(elapsed, l, j) ==> i == j
  {
  }

  lemma {:induction false} EmptyLevel(slots: Slots, occupied: nat)
    requires Occupancy(occupied, slots)
    ensures occupied == 0 <==> forall i :: 0 <= i < LEVEL_MULT ==> slots[i] == []
  {
    if occupied == 0 {
      forall i | 0 <= i < LEVEL_MULT
        ensures slots[i] == []
      {
        ZeroHasNoBits(i);
      }
    } else if forall i :: 0 <= i < LEVEL_MULT ==> slots[i] == [] {
      NoBits64(occupied);
    }
  }

  // ----- over all levels

  lemma {:induction false} LaterSlotSameLevel(slots: Slots, start: nat, elapsed: nat, l: nat, occupied: nat,
                                              x: Expiration, i: nat)
    requires l < NUM_LEVELS && elapsed < W64 && Occupancy(occupied, slots)
    requires forall j :: 0 <= j < LEVEL_MULT ==> SlotFiled(slots[j], start, elapsed, l, j)
    requires LevelExpiration(l, occupied, elapsed) == Some(x)
    requires i < LEVEL_MULT && i != x.slot
    ensures DueAfter(slots[i], start, l, x.deadline)
  {
    hide Ahead, LevelExpiration, Begin, Index, Filed, SlotDue, Bit;
    forall e | e in slots[i]
      ensures x.deadline < SlotDue(l, When(e, start))
    {
      FirstInLevel(slots, start, elapsed, l, occupied, i);
      EntryDue(start, elapsed, l, i, e);
      BeginStrict(Index(elapsed, l) + Ahead(elapsed, l, x.slot), Index(elapsed, l) + Ahead(elapsed, l, i), l);
    }
  }

  lemma {:induction false} LaterSlotHigherLevel(g: Levels, start: nat, elapsed: nat, x: Expiration, l: nat, i: nat)
    requires Shaped(g) && AllFiled(g, start, elapsed)
    requires x.level < l < NUM_LEVELS && i < LEVEL_MULT && x.slot < LEVEL_MULT && g[x.level][x.slot] != []
    requires forall e :: e in g[x.level][x.slot] ==> SlotDue(x.level, When(e, start)) == x.deadline
    ensures DueAfter(g[l][i], start, l, x.deadline)
  {
    hide SlotDue, Placed;
    var first := g[x.level][x.slot][0];
    assert Filed(first, start, elapsed, x.level, x.slot);
    forall e | e in g[l][i]
      ensures x.deadline < SlotDue(l, When(e, start))
    {
      assert SlotFiled(g[l][i], start, elapsed, l, i);
      assert Filed(e, start, elapsed, l, i);
      LowerLevelFirst(elapsed, x.level, When(first, start), l, When(e, start));
    }
  }

  lemma {:induction false} SlotDueAtDeadline(slots: Slots, start: nat, elapsed: nat, l: nat, occupied: nat,
                                             x: Expiration)
    requires l < NUM_LEVELS && elapsed < W64 && Occupancy(occupied, slots)
    requires forall j :: 0 <= j < LEVEL_MULT ==> SlotFiled(slots[j], start, elapsed, l, j)
    requires LevelExpiration(l, occupied, elapsed) == Some(x)
    ensures x.level == l && x.slot < LEVEL_MULT && slots[x.slot] != [] && elapsed < x.deadline
    ensures forall e :: e in slots[x.slot] ==> SlotDue(l, When(e, start)) == x.deadline
  {
    hide Ahead, Begin, Index, Filed, SlotDue, Bit, DeadlineOf, Rotr, CountrZero;
    EmptyLevel(slots, occupied);
    var i :| 0 <= i < LEVEL_MULT && slots[i] != [];
    FirstInLevel(slots, start, elapsed, l, occupied, i);
    forall e | e in slots[x.slot]
      ensures SlotDue(l, When(e, start)) == x.deadline > elapsed
    {
      EntryDue(start, elapsed, l, x.slot, e);
    }
    assert slots[x.slot][0] in slots[x.slot];
  }

  /** The expiration of the first occupied level is the earliest of the whole wheel. */
  lemma {:induction false} FirstLevelIsEarliest(g: Levels, start: nat, elapsed: nat, occupied: nat, x: Expiration)
    requires Shaped(g) && AllFiled(g, start, elapsed) && elapsed < W64
    requires x.level < NUM_LEVELS && Occupancy(occupied, g[x.level])
    requires LevelExpiration(x.level, occupied, elapsed) == Some(x)
    requires forall l, i :: 0 <= l < x.level && 0 <= i < LEVEL_MULT ==> g[l][i] == []
    ensures Earliest(g, start, elapsed, x)
  {
    hide LevelExpiration, SlotDue, Bit, When;
    SlotDueAtDeadline(g[x.level], start, elapsed, x.level, occupied, x);
    forall l, i | 0 <= l < NUM_LEVELS && 0 <= i < LEVEL_MULT && (l != x.level || i != x.slot)
      ensures DueAfter(g[l][i], start, l, x.deadline)
    {
      if l == x.level {
        LaterSlotSameLevel(g[l], start, elapsed, l, occupied, x, i);
      } else if l > x.level {
        LaterSlotHigherLevel(g, start, elapsed, x, l, i);
      }
    }
  }

  /** What the earliest expiration tells a caller: it lies strictly in the future,
      no entry is due before it, and an entry of its slot on level 0 is due exactly then. */
  lemma {:induction false} EarliestBounds(g: Levels, start: nat, elapsed: nat, x: Expiration)
    requires Shaped(g) && AllFiled(g, start, elapsed) && Earliest(g, start, elapsed, x)
    ensures forall e :: e in Stored(g) ==> elapsed < x.deadline <= When(e, start)
    ensures x.level == 0 ==> forall e :: e in g[0][x.slot] ==> When(e, start) == x.deadline
  {
    hide SlotDue, Placed;
    forall e | e in Stored(g)
      ensures x.deadline <= When(e, start)
    {
      var l, i, k := StoredSource(g, e);
      assert SlotFiled(g[l][i], start, elapsed, l, i);
      SlotDueBetween(elapsed, l, When(e, start));
      assert (l == x.level && i == x.slot) || DueAfter(g[l][i], start, l, x.deadline);
    }
    forall e | x.level == 0 && e in g[0][x.slot]
      ensures When(e, start) == x.deadline
    {
      LevelZeroIsExact(When(e, start));
    }
  }

  /** As long as an entry is due within the clock's own 64 milliseconds, the deadline is that of the next entry. */
  lemma {:induction false} EarliestExact(g: Levels, start: nat, elapsed: nat, x: Expiration, e: Entry)
    requires Shaped(g) && AllFiled(g, start, elapsed) && Earliest(g, start, elapsed, x)
    requires e in Stored(g) && When(e, start) / LEVEL_MULT == elapsed / LEVEL_MULT
    ensures exists f :: f in Stored(g) && When(f, start) == x.deadline
  {
    hide SlotDue, When, DueAfter;
    var l, i, k := StoredSource(g, e);
    var first := g[x.level][x.slot][0];
    assert SlotFiled(g[l][i], start, elapsed, l, i) && SlotFiled(g[x.level][x.slot], start, elapsed, x.level, x.slot);
    assert Filed(e, start, elapsed, l, i) && Filed(first, start, elapsed, x.level, x.slot);
    NearIsLowest(elapsed, l, When(e, start));
    if x.level > 0 {
      LowerLevelFirst(elapsed, 0, When(e, start), x.level, When(first, start));
    }
    DueLater(g, start, elapsed, x, l, i, e);
    LevelZeroIsExact(When(first, start));
    StoredAt(g, x.level, x.slot, 0);
  }

  lemma DueLater(g: Levels, start: nat, elapsed: nat, x: Expiration, l: nat, i: nat, e: Entry)
    requires Shaped(g) && Earliest(g, start, elapsed, x) && l < NUM_LEVELS && i < LEVEL_MULT && e in g[l][i]
    ensures x.deadline <= SlotDue(l, When(e, start))
  {
    assert (l == x.level && i == x.slot) || DueAfter(g[l][i], start, l, x.deadline);
  }

  /** An entry that agrees with the clock on all digits but the lowest is on level 0. */
  lemma {:induction false} NearIsLowest(elapsed: nat, l: nat, when: nat)
    requires Placed(elapsed, l, when) && when / LEVEL_MULT == elapsed / LEVEL_MULT
    ensures l == 0
  {
    assert Index(when, 1) == Index(elapsed, 1);
    IndexAgreesAbove(elapsed, when, 1, if l > 0 then l else 1);
  }

  // ----- moving the clock, taking a slot, filing an entry

  lemma {:induction false} JumpKeepsFiled(g: Levels, start: nat, elapsed: nat, later: nat)
    requires Shaped(g) && AllFiled(g, start, elapsed) && elapsed <= later
    requires forall l, i :: 0 <= l < NUM_LEVELS && 0 <= i < LEVEL_MULT ==> DueAfter(g[l][i], start, l, later)
    ensures AllFiled(g, start, later)
  {
    hide SlotDue, Placed;
    forall l, i, k | 0 <= l < NUM_LEVELS && 0 <= i < LEVEL_MULT && 0 <= k < |g[l][i]|
      ensures Filed(g[l][i][k], start, later, l, i)
    {
      var e := g[l][i][k];
      assert SlotFiled(g[l][i], start, elapsed, l, i);
      assert DueAfter(g[l][i], start, l, later);
      JumpKeepsPlaced(elapsed, later, l, When(e, start));
    }
  }

  /** With the due slot taken out, everything else is still in place when its deadline arrives. */
  lemma {:induction false} TakeKeepsFiled(g: Levels, start: nat, elapsed: nat, x: Expiration)
    requires Shaped(g) && AllFiled(g, start, elapsed) && Earliest(g, start, elapsed, x)
    ensures AllFiled(WithSlot(g, x.level, x.slot, []), start, x.deadline)
  {
    hide SlotDue, Placed, When;
    var h := WithSlot(g, x.level, x.slot, []);
    forall l, i | 0 <= l < NUM_LEVELS && 0 <= i < LEVEL_MULT
      ensures SlotFiled(h[l][i], start, elapsed, l, i) && DueAfter(h[l][i], start, l, x.deadline)
    {
      assert SlotFiled(g[l][i], start, elapsed, l, i);
    }
    JumpKeepsFiled(h, start, elapsed, x.deadline);
  }

  lemma {:induction false} FileKeepsFiled(g: Levels, start: nat, elapsed: nat, l: nat, i: nat, e: Entry)
    requires Shaped(g) && AllFiled(g, start, elapsed)
    requires l < NUM_LEVELS && i < LEVEL_MULT && Filed(e, start, elapsed, l, i)
    ensures AllFiled(WithSlot(g, l, i, g[l][i] + [e]), start, elapsed)
  {
    hide Placed, When;
    var h := WithSlot(g, l, i, g[l][i] + [e]);
    forall m, j | 0 <= m < NUM_LEVELS && 0 <= j < LEVEL_MULT
      ensures SlotFiled(h[m][j], start, elapsed, m, j)
    {
      assert SlotFiled(g[m][j], start, elapsed, m, j);
    }
  }

  /** An entry of a slot that falls due either is due now or is filed strictly lower. */
  lemma {:induction false} DueEntryDescends(start: nat, elapsed: nat, l: nat, i: nat, e: Entry, due: nat)
    requires Filed(e, start, elapsed, l, i) && SlotDue(l, When(e, start)) == due
    ensures due <= When(e, start) < W64
    ensures due < When(e, start) ==>
              LevelFor(due, When(e, start)) < l
              && Filed(e, start, due, LevelFor(due, When(e, start)),
                       SlotFor(LevelFor(due, When(e, start)), When(e, start)))
  {
    CascadeDescends(elapsed, l, When(e, start));
  }

  /** When the clock has passed the last due slot, what is left is due later. */
  lemma {:induction false} FiledIsLater(g: Levels, start: nat, elapsed: nat)
    requires Shaped(g) && AllFiled(g, start, elapsed)
    ensures forall e :: e in Stored(g) ==> When(e, start) > elapsed
  {
    hide SlotDue, Placed;
    forall e | e in Stored(g)
      ensures When(e, start) > elapsed
    {
      var l, i, k := StoredSource(g, e);
      assert SlotFiled(g[l][i], start, elapsed, l, i);
      SlotDueBetween(elapsed, l, When(e, start));
    }
  }

  /** If nothing is due by `now`, the clock may be set to `now`. */
  lemma {:induction false} AdvanceKeepsFiled(g: Levels, start: nat, elapsed: nat, now: nat, x: Option<Expiration>)
    requires Shaped(g) && AllFiled(g, start, elapsed) && elapsed <= now
    requires x == None ==> Stored(g) == multiset{}
    requires x.Some? ==> Earliest(g, start, elapsed, x.value) && now < x.value.deadline
    ensures AllFiled(g, start, now)
  {
    hide SlotDue, Placed, When, Stored;
    forall l, i | 0 <= l < NUM_LEVELS && 0 <= i < LEVEL_MULT
      ensures DueAfter(g[l][i], start, l, now)
    {
      if x == None {
        if g[l][i] != [] {
          StoredAt(g, l, i, 0);
        }
      } else {
        assert (l == x.value.level && i == x.value.slot) || DueAfter(g[l][i], start, l, x.value.deadline);
      }
    }
    JumpKeepsFiled(g, start, elapsed, now);
  }

  /** Filing a new entry keeps the placement exactly when the entry is within the horizon. */
  lemma {:induction false} FileNewPlaced(g: Levels, start: nat, elapsed: nat, e: Entry)
    requires Shaped(g) && AllFiled(g, start, elapsed)
    requires start <= e.expirationTime < W64 && elapsed < When(e, start)
    requires LevelFor(elapsed, When(e, start)) < NUM_LEVELS
    ensures var l := LevelFor(elapsed, When(e, start));
      var i := SlotFor(l, When(e, start));
      AllFiled(WithSlot(g, l, i, g[l][i] + [e]), start, elapsed) <==> InHorizon(elapsed, When(e, start))
  {
    hide LevelFor, SlotFor, InHorizon, Placed;
    var when := When(e, start);
    var l := LevelFor(elapsed, when);
    var i := SlotFor(l, when);
    if InHorizon(elapsed, when) {
      LevelForPlaces(elapsed, when);
      FileKeepsFiled(g, start, elapsed, l, i, e);
    } else {
      FarIsNotPlaced(elapsed, when);
      var h := WithSlot(g, l, i, g[l][i] + [e]);
      assert h[l][i][|g[l][i]|] == e;
      assert !Filed(e, start, elapsed, l, i);
      assert !SlotFiled(h[l][i], start, elapsed, l, i);
    }
  }

  lemma {:induction false} FarIsNotPlaced(elapsed: nat, when: nat)
    requires elapsed < W64 && when < W64 && !InHorizon(elapsed, when)
    ensures !Placed(elapsed, LevelFor(elapsed, when), when)
  {
    hide LevelFor, InHorizon;
    HorizonIndex(elapsed, when);
    LevelForIsHighestDifference(elapsed, when);
    var h := HighestDifference(elapsed, when, 0);
    if h < NUM_LEVELS - 1 {
      IndexAgreesAbove(elapsed, when, h + 1, 5);
    }
  }

  /** The entries of the slot that falls due: all filed there, all due then or later,
      and on level 0 all due exactly then. */
  lemma {:induction false} SlotEntries(g: Levels, start: nat, elapsed: nat, x: Expiration)
    requires Shaped(g) && AllFiled(g, start, elapsed) && Earliest(g, start, elapsed, x)
    ensures forall e :: e in g[x.level][x.slot] ==>
      && Filed(e, start, elapsed, x.level, x.slot)
      && SlotDue(x.level, When(e, start)) == x.deadline <= When(e, start)
    ensures x.level == 0 ==> DueAt(g[0][x.slot], start, x.deadline) == g[0][x.slot]
  {
    hide SlotDue, Placed, When, DueAt, DueAfter;
    var slot := g[x.level][x.slot];
    forall e | e in slot
      ensures Filed(e, start, elapsed, x.level, x.slot) && x.deadline <= When(e, start)
    {
      assert SlotFiled(slot, start, elapsed, x.level, x.slot);
      SlotDueBetween(elapsed, x.level, When(e, start));
    }
    if x.level == 0 {
      EarliestBounds(g, start, elapsed, x);
      DueAtMembers(slot, start, x.deadline);
    }
  }

  lemma EarliestLater(g: Levels, start: nat, elapsed: nat, x: Expiration)
    requires Shaped(g) && Earliest(g, start, elapsed, x)
    ensures elapsed < x.deadline
  {
  }
}

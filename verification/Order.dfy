/** Entries with the same deadline stay in the order in which they were filed: through
    the slots, the jumps of the clock and the cascade they form one line. */
module Order {
  import opened Words
  import opened Wheel
  import opened Grid
  import opened Search

  /** The entries that are due at `time`, in their order. */
  function OfTime(es: seq<Entry>, start: nat, time: nat): seq<Entry> {
    if es == [] then []
    else
      var n := |es| - 1;
      OfTime(es[..n], start, time) + if When(es[n], start) == time then [es[n]] else []
  }

  lemma {:induction false} OfTimeAppend(es: seq<Entry>, fs: seq<Entry>, start: nat, time: nat)
    ensures OfTime(es + fs, start, time) == OfTime(es, start, time) + OfTime(fs, start, time)
  {
    if fs == [] {
      assert es + fs == es;
    } else {
      var n := |fs| - 1;
      assert (es + fs)[..|es + fs| - 1] == es + fs[..n];
      OfTimeAppend(es, fs[..n], start, time);
    }
  }

  lemma OfTimeOne(e: Entry, start: nat, time: nat)
    ensures OfTime([e], start, time) == if When(e, start) == time then [e] else []
  {
    assert [e][..0] == [];
  }

  lemma {:induction false} OfTimeNone(es: seq<Entry>, start: nat, time: nat)
    ensures OfTime(es, start, time) == [] <==> forall e :: e in es ==> When(e, start) != time
  {
    if es != [] {
      var n := |es| - 1;
      OfTimeNone(es[..n], start, time);
      assert es == es[..n] + [es[n]];
    }
  }

  // ----- the line of a time over the whole wheel

  /** What the slots hold for `time`, one slot after the other. */
  function SlotsLine(slots: Slots, start: nat, time: nat): seq<Entry> {
    if slots == [] then []
    else SlotsLine(slots[..|slots| - 1], start, time) + OfTime(slots[|slots| - 1], start, time)
  }

  function Line(g: Levels, start: nat, time: nat): seq<Entry> {
    if g == [] then [] else Line(g[..|g| - 1], start, time) + SlotsLine(g[|g| - 1], start, time)
  }

  lemma {:induction false} SlotsLineEmpty(slots: Slots, start: nat, time: nat)
    requires forall i :: 0 <= i < |slots| ==> OfTime(slots[i], start, time) == []
    ensures SlotsLine(slots, start, time) == []
  {
    hide OfTime;
    if slots != [] {
      SlotsLineEmpty(slots[..|slots| - 1], start, time);
    }
  }

  lemma {:induction false} SlotsLineOnly(slots: Slots, i: nat, start: nat, time: nat)
    requires i < |slots| && forall j :: 0 <= j < |slots| && j != i ==> OfTime(slots[j], start, time) == []
    ensures SlotsLine(slots, start, time) == OfTime(slots[i], start, time)
  {
    hide OfTime;
    var n := |slots| - 1;
    if i == n {
      SlotsLineEmpty(slots[..n], start, time);
    } else {
      SlotsLineOnly(slots[..n], i, start, time);
    }
  }

  lemma {:induction false} LineEmpty(g: Levels, start: nat, time: nat)
    requires forall l :: 0 <= l < |g| ==> SlotsLine(g[l], start, time) == []
    ensures Line(g, start, time) == []
  {
    hide SlotsLine;
    if g != [] {
      LineEmpty(g[..|g| - 1], start, time);
    }
  }

  lemma {:induction false} LineOnly(g: Levels, l: nat, start: nat, time: nat)
    requires l < |g| && forall m :: 0 <= m < |g| && m != l ==> SlotsLine(g[m], start, time) == []
    ensures Line(g, start, time) == SlotsLine(g[l], start, time)
  {
    hide SlotsLine;
    var n := |g| - 1;
    if l == n {
      LineEmpty(g[..n], start, time);
    } else {
      LineOnly(g[..n], l, start, time);
    }
  }

  /** If only one slot has entries of a time, they are the line. */
  lemma {:induction false} LineOfSlot(g: Levels, l: nat, i: nat, start: nat, time: nat)
    requires l < |g| && i < |g[l]|
    requires forall m, j :: 0 <= m < |g| && 0 <= j < |g[m]| && (m != l || j != i) ==> OfTime(g[m][j], start, time) == []
    ensures Line(g, start, time) == OfTime(g[l][i], start, time)
  {
    hide OfTime, Line, SlotsLine;
    forall m | 0 <= m < |g| && m != l
      ensures SlotsLine(g[m], start, time) == []
    {
      SlotsLineEmpty(g[m], start, time);
    }
    LineOnly(g, l, start, time);
    SlotsLineOnly(g[l], i, start, time);
  }

  lemma {:induction false} SlotsLineSame(slots: Slots, i: nat, slot: seq<Entry>, start: nat, time: nat)
    requires i < |slots| && OfTime(slot, start, time) == OfTime(slots[i], start, time)
    ensures SlotsLine(slots[i := slot], start, time) == SlotsLine(slots, start, time)
  {
    hide OfTime;
    var n := |slots| - 1;
    if i == n {
      assert slots[i := slot][..n] == slots[..n];
    } else {
      SlotsLineSame(slots[..n], i, slot, start, time);
      assert slots[i := slot][..n] == slots[..n][i := slot];
    }
  }

  lemma {:induction false} LevelsLineSame(g: Levels, l: nat, slots: Slots, start: nat, time: nat)
    requires l < |g| && SlotsLine(slots, start, time) == SlotsLine(g[l], start, time)
    ensures Line(g[l := slots], start, time) == Line(g, start, time)
  {
    hide SlotsLine;
    var n := |g| - 1;
    if l == n {
      assert g[l := slots][..n] == g[..n];
    } else {
      LevelsLineSame(g[..n], l, slots, start, time);
      assert g[l := slots][..n] == g[..n][l := slots];
    }
  }

  lemma {:induction false} LineSame(g: Levels, l: nat, i: nat, slot: seq<Entry>, start: nat, time: nat)
    requires l < |g| && i < |g[l]| && OfTime(slot, start, time) == OfTime(g[l][i], start, time)
    ensures Line(WithSlot(g, l, i, slot), start, time) == Line(g, start, time)
  {
    hide OfTime, Line, SlotsLine;
    SlotsLineSame(g[l], i, slot, start, time);
    LevelsLineSame(g, l, g[l][i := slot], start, time);
  }

  // ----- entries of one time share a slot

  /** There is one level where a time belongs. */
  lemma {:induction false} PlacedOnce(elapsed: nat, l: nat, m: nat, when: nat)
    requires Placed(elapsed, l, when) && Placed(elapsed, m, when)
    ensures l == m
  {
    hide Index;
    if l < m {
      IndexAgreesAbove(elapsed, when, l + 1, m);
    } else if m < l {
      IndexAgreesAbove(elapsed, when, m + 1, l);
    }
  }

  lemma {:induction false} ElsewhereNone(g: Levels, start: nat, elapsed: nat, l: nat, i: nat, e: Entry, m: nat, j: nat)
    requires Shaped(g) && AllFiled(g, start, elapsed) && Filed(e, start, elapsed, l, i)
    requires m < NUM_LEVELS && j < LEVEL_MULT && (m != l || j != i)
    ensures OfTime(g[m][j], start, When(e, start)) == []
  {
    hide OfTime, Placed, SlotFor, When;
    assert SlotFiled(g[m][j], start, elapsed, m, j);
    forall f | f in g[m][j]
      ensures When(f, start) != When(e, start)
    {
      assert Filed(f, start, elapsed, m, j);
      if When(f, start) == When(e, start) {
        PlacedOnce(elapsed, l, m, When(e, start));
      }
    }
    OfTimeNone(g[m][j], start, When(e, start));
  }

  // ----- what filing and taking do to the lines

  /** Each line of `g` is that of `g0` with what `es` has for it behind. */
  ghost predicate Added(g: Levels, g0: Levels, start: nat, es: seq<Entry>) {
    forall time: nat :: Line(g, start, time) == Line(g0, start, time) + OfTime(es, start, time)
  }

  /** Each line of `g0` is what `gone` has for it, and then that of `g`. */
  ghost predicate Leaves(g: Levels, g0: Levels, start: nat, gone: seq<Entry>) {
    forall time: nat :: OfTime(gone, start, time) + Line(g, start, time) == Line(g0, start, time)
  }

  lemma {:induction false} FileAdds(g: Levels, start: nat, elapsed: nat, l: nat, i: nat, e: Entry)
    requires Shaped(g) && AllFiled(g, start, elapsed)
    requires l < NUM_LEVELS && i < LEVEL_MULT && Filed(e, start, elapsed, l, i)
    ensures Added(WithSlot(g, l, i, g[l][i] + [e]), g, start, [e])
  {
    hide AllFiled, Filed, OfTime, Line, When;
    var h := WithSlot(g, l, i, g[l][i] + [e]);
    forall time: nat
      ensures Line(h, start, time) == Line(g, start, time) + OfTime([e], start, time)
    {
      OfTimeAppend(g[l][i], [e], start, time);
      OfTimeOne(e, start, time);
      if When(e, start) == time {
        forall m, j | 0 <= m < NUM_LEVELS && 0 <= j < LEVEL_MULT && (m != l || j != i)
          ensures OfTime(g[m][j], start, time) == []
        {
          ElsewhereNone(g, start, elapsed, l, i, e, m, j);
        }
        LineOfSlot(g, l, i, start, time);
        LineOfSlot(h, l, i, start, time);
      } else {
        LineSame(g, l, i, g[l][i] + [e], start, time);
      }
    }
  }

  /** Of each time either the slot that is taken out has all entries, or none. */
  lemma {:induction false} TakeLeaves(g: Levels, start: nat, elapsed: nat, l: nat, i: nat)
    requires Shaped(g) && AllFiled(g, start, elapsed) && l < NUM_LEVELS && i < LEVEL_MULT
    ensures var h := WithSlot(g, l, i, []);
      && Leaves(h, g, start, g[l][i])
      && forall time: nat :: OfTime(g[l][i], start, time) == [] || Line(h, start, time) == []
  {
    hide AllFiled, Filed, OfTime, Line, When;
    forall time: nat
      ensures var h := WithSlot(g, l, i, []);
        OfTime(g[l][i], start, time) + Line(h, start, time) == Line(g, start, time)
        && (OfTime(g[l][i], start, time) == [] || Line(h, start, time) == [])
    {
      TakeLeavesLine(g, start, elapsed, l, i, time);
    }
  }

  lemma {:induction false} TakeLeavesLine(g: Levels, start: nat, elapsed: nat, l: nat, i: nat, time: nat)
    requires Shaped(g) && AllFiled(g, start, elapsed) && l < NUM_LEVELS && i < LEVEL_MULT
    ensures var h := WithSlot(g, l, i, []);
      && OfTime(g[l][i], start, time) + Line(h, start, time) == Line(g, start, time)
      && (OfTime(g[l][i], start, time) == [] || Line(h, start, time) == [])
  {
    hide Filed, Line, When;
    var h, slot := WithSlot(g, l, i, []), g[l][i];
    OfTimeNone(slot, start, time);
    if OfTime(slot, start, time) == [] {
      LineSame(g, l, i, [], start, time);
    } else {
      var e :| e in slot && When(e, start) == time;
      assert SlotFiled(slot, start, elapsed, l, i);
      forall m, j | 0 <= m < NUM_LEVELS && 0 <= j < LEVEL_MULT && (m != l || j != i)
        ensures OfTime(g[m][j], start, time) == []
      {
        ElsewhereNone(g, start, elapsed, l, i, e, m, j);
      }
      LineOfSlot(g, l, i, start, time);
      LineOfSlot(h, l, i, start, time);
    }
  }

  // ----- putting steps together

  lemma LeavesNothing(g: Levels, start: nat)
    ensures Leaves(g, g, start, [])
  {
  }

  lemma {:induction false} LeavesMore(g: Levels, g1: Levels, g0: Levels, start: nat, gone: seq<Entry>, more: seq<Entry>)
    requires Leaves(g1, g0, start, gone) && Leaves(g, g1, start, more)
    ensures Leaves(g, g0, start, gone + more)
  {
    hide OfTime, Line;
    forall time: nat
      ensures OfTime(gone + more, start, time) + Line(g, start, time) == Line(g0, start, time)
    {
      OfTimeAppend(gone, more, start, time);
    }
  }

  /** What a cascade does: those of `es` that are not due yet join their lines. */
  ghost predicate Joined(g: Levels, g0: Levels, start: nat, es: seq<Entry>, deadline: nat) {
    forall time: nat ::
      Line(g, start, time) == Line(g0, start, time) + if time > deadline then OfTime(es, start, time) else []
  }

  lemma JoinedNothing(g: Levels, start: nat, deadline: nat)
    ensures Joined(g, g, start, [], deadline)
  {
  }

  lemma {:induction false} JoinedOne(g: Levels, g0: Levels, start: nat, e: Entry, deadline: nat)
    requires if When(e, start) > deadline then Added(g, g0, start, [e]) else g == g0
    ensures Joined(g, g0, start, [e], deadline)
  {
    hide OfTime, Line;
    forall time: nat
      ensures Line(g, start, time) == Line(g0, start, time) + if time > deadline then OfTime([e], start, time) else []
    {
      OfTimeOne(e, start, time);
    }
  }

  lemma {:induction false} JoinedMore(g: Levels, g1: Levels, g0: Levels, start: nat, es: seq<Entry>, more: seq<Entry>,
                                      deadline: nat)
    requires Joined(g1, g0, start, es, deadline) && Joined(g, g1, start, more, deadline)
    ensures Joined(g, g0, start, es + more, deadline)
  {
    hide OfTime, Line;
    forall time: nat
      ensures Line(g, start, time) ==
              Line(g0, start, time) + if time > deadline then OfTime(es + more, start, time) else []
    {
      OfTimeAppend(es, more, start, time);
    }
  }

  lemma {:induction false} OfTimeDue(es: seq<Entry>, start: nat, deadline: nat, time: nat)
    ensures OfTime(DueAt(es, start, deadline), start, time) == if time <= deadline then OfTime(es, start, time) else []
  {
    hide OfTime, DueAt;
    if es == [] {
      DueAtNone(start, deadline);
      OfTimeNone([], start, time);
    } else {
      var n := |es| - 1;
      var last := [es[n]];
      assert es == es[..n] + last;
      OfTimeDue(es[..n], start, deadline, time);
      DueAtAppend(es[..n], last, start, deadline);
      DueAtOne(es[n], start, deadline);
      OfTimeAppend(es[..n], last, start, time);
      OfTimeAppend(DueAt(es[..n], start, deadline), DueAt(last, start, deadline), start, time);
      OfTimeOne(es[n], start, time);
      OfTimeNone([], start, time);
    }
  }

  lemma DueAtOne(e: Entry, start: nat, deadline: nat)
    ensures DueAt([e], start, deadline) == if When(e, start) <= deadline then [e] else []
  {
    assert [e][1..] == [];
  }

  /** Taking a slot and handing its entries on leaves everything in line: the due ones first. */
  lemma {:induction false} CascadeLeaves(g: Levels, g1: Levels, g0: Levels, start: nat, slot: seq<Entry>, deadline: nat)
    requires Leaves(g1, g0, start, slot)
    requires forall time: nat :: OfTime(slot, start, time) == [] || Line(g1, start, time) == []
    requires Joined(g, g1, start, slot, deadline)
    ensures Leaves(g, g0, start, DueAt(slot, start, deadline))
  {
    hide OfTime, Line, DueAt;
    forall time: nat
      ensures OfTime(DueAt(slot, start, deadline), start, time) + Line(g, start, time) == Line(g0, start, time)
    {
      OfTimeDue(slot, start, deadline, time);
    }
  }

  // ----- what this determines

  /** Entries in the order of their deadlines are determined by the line of each time. */
  lemma {:induction false} InOrderOnce(es: seq<Entry>, fs: seq<Entry>, start: nat)
    requires InOrder(es, start) && InOrder(fs, start)
    requires forall time: nat :: OfTime(es, start, time) == OfTime(fs, start, time)
    ensures es == fs
  {
    if es == [] || fs == [] {
      EmptyOnce(es, fs, start);
    } else {
      var m, n := |es| - 1, |fs| - 1;
      LastIsLatest(es, fs, start);
      LastIsLatest(fs, es, start);
      var latest := OfTime(es, start, When(es[m], start));
      assert latest == OfTime(fs, start, When(fs[n], start));
      assert latest[|latest| - 1] == es[m] == fs[n];
      forall time: nat
        ensures OfTime(es[..m], start, time) == OfTime(fs[..n], start, time)
      {
        var last := if When(es[m], start) == time then [es[m]] else [];
        assert OfTime(es, start, time) == OfTime(fs, start, time);
        SameFront(OfTime(es[..m], start, time), OfTime(fs[..n], start, time), last);
      }
      InOrderOnce(es[..m], fs[..n], start);
      assert es == es[..m] + [es[m]] && fs == fs[..n] + [fs[n]];
    }
  }

  lemma SameFront(a: seq<Entry>, b: seq<Entry>, c: seq<Entry>)
    requires a + c == b + c
    ensures a == b
  {
    assert a == (a + c)[..|a + c| - |c|] && b == (b + c)[..|b + c| - |c|];
  }

  lemma EmptyOnce(es: seq<Entry>, fs: seq<Entry>, start: nat)
    requires es == [] || fs == []
    requires forall time: nat :: OfTime(es, start, time) == OfTime(fs, start, time)
    ensures es == fs
  {
    var all := es + fs;
    if all != [] {
      var time := When(all[0], start);
      assert all[0] in es || all[0] in fs;
      OfTimeNone(es, start, time);
      OfTimeNone(fs, start, time);
    }
  }

  lemma LastIsLatest(es: seq<Entry>, fs: seq<Entry>, start: nat)
    requires es != [] && fs != [] && InOrder(fs, start)
    requires forall time: nat :: OfTime(es, start, time) == OfTime(fs, start, time)
    ensures When(es[|es| - 1], start) <= When(fs[|fs| - 1], start)
  {
    var time := When(es[|es| - 1], start);
    OfTimeNone(es, start, time);
    OfTimeNone(fs, start, time);
    assert es[|es| - 1] in es;
    assert OfTime(fs, start, time) != [];
    var e :| e in fs && When(e, start) == time;
  }

  lemma {:induction false} LineLater(g: Levels, start: nat, now: nat, time: nat)
    requires Shaped(g) && AllFiled(g, start, now) && time <= now
    ensures Line(g, start, time) == []
  {
    hide OfTime, Line, SlotsLine, AllFiled, Filed, When;
    FiledIsLater(g, start, now);
    forall l | 0 <= l < |g|
      ensures SlotsLine(g[l], start, time) == []
    {
      forall i | 0 <= i < |g[l]|
        ensures OfTime(g[l][i], start, time) == []
      {
        forall e | e in g[l][i]
          ensures When(e, start) != time
        {
          var k :| 0 <= k < |g[l][i]| && g[l][i][k] == e;
          StoredAt(g, l, i, k);
        }
        OfTimeNone(g[l][i], start, time);
      }
      SlotsLineEmpty(g[l], start, time);
    }
    LineEmpty(g, start, time);
  }

  /** What a drain executes, and in which order, is determined by what was filed. */
  lemma {:induction false} DrainedOnlySo(g0: Levels, start: nat, now: nat, g: Levels, fired: seq<Entry>,
                                         h: Levels, gone: seq<Entry>)
    requires Shaped(g) && AllFiled(g, start, now) && Leaves(g, g0, start, fired) && InOrder(fired, start)
    requires Shaped(h) && AllFiled(h, start, now) && Leaves(h, g0, start, gone) && InOrder(gone, start)
    requires forall e :: e in fired + gone ==> When(e, start) <= now
    ensures fired == gone
  {
    hide OfTime, Line, AllFiled, When, InOrder;
    forall time: nat
      ensures OfTime(fired, start, time) == OfTime(gone, start, time)
    {
      if time <= now {
        LineLater(g, start, now, time);
        LineLater(h, start, now, time);
        assert OfTime(fired, start, time) + Line(g, start, time) == Line(g0, start, time);
        assert OfTime(gone, start, time) + Line(h, start, time) == Line(g0, start, time);
        SameFront(OfTime(fired, start, time), OfTime(gone, start, time), []);
      } else {
        assert forall e :: e in fired || e in gone ==> e in fired + gone;
        OfTimeNone(fired, start, time);
        OfTimeNone(gone, start, time);
      }
    }
    InOrderOnce(fired, gone, start);
  }

  // ----- over any sequence of insertions and drains

  datatype Event = Inserted(entry: Entry) | Drained(fired: seq<Entry>)

  ghost predicate Run(gs: seq<Levels>, events: seq<Event>, start: nat) {
    && |gs| == |events| + 1
    && (forall time: nat :: Line(gs[0], start, time) == [])
    && forall i :: 0 <= i < |events| ==>
         match events[i]
         case Inserted(entry) => Added(gs[i + 1], gs[i], start, [entry])
         case Drained(fired) => Leaves(gs[i + 1], gs[i], start, fired)
  }

  function AllInserted(events: seq<Event>): seq<Entry> {
    if events == [] then []
    else
      var last := events[|events| - 1];
      AllInserted(events[..|events| - 1]) + if last.Inserted? then [last.entry] else []
  }

  function AllDrained(events: seq<Event>): seq<Entry> {
    if events == [] then []
    else
      var last := events[|events| - 1];
      AllDrained(events[..|events| - 1]) + if last.Drained? then last.fired else []
  }

  /** In every run the entries of a deadline are executed in the order in which they came in:
      those executed and then those waiting are all that were filed for it. */
  lemma {:induction false} SameDeadlineInTurn(gs: seq<Levels>, events: seq<Event>, start: nat, time: nat)
    requires Run(gs, events, start)
    ensures OfTime(AllDrained(events), start, time) + Line(gs[|events|], start, time) ==
            OfTime(AllInserted(events), start, time)
  {
    hide OfTime, Line;
    var n := |events|;
    if n == 0 {
      OfTimeNone([], start, time);
    } else {
      var last, before, filed := events[n - 1], AllDrained(events[..n - 1]), AllInserted(events[..n - 1]);
      SameDeadlineInTurn(gs[..n], events[..n - 1], start, time);
      OfTimeNone([], start, time);
      match last
      case Inserted(entry) =>
        OfTimeAppend(filed, [entry], start, time);
        assert AllDrained(events) == before && AllInserted(events) == filed + [entry];
        assert Line(gs[n], start, time) == Line(gs[n - 1], start, time) + OfTime([entry], start, time);
      case Drained(fired) =>
        OfTimeAppend(before, fired, start, time);
        assert AllDrained(events) == before + fired && AllInserted(events) == filed;
        assert OfTime(fired, start, time) + Line(gs[n], start, time) == Line(gs[n - 1], start, time);
    }
  }
}

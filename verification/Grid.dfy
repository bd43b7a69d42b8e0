/** Timer entries, the callbacks they belong to, and what is filed where in the
    six levels of slots, as values. */
module Grid {
  import opened Bags
  import opened Words
  import opened Wheel

  /** An opaque coroutine handle. */
  type Handle = nat

  /** An I/O request in flight; `entry` links it to its timeout, if it has one. */
  class Callback {
    const handle: Handle
    var result: int
    var entry: Entry?

    constructor (handle: Handle)
      ensures this.handle == handle && entry == null
    {
      this.handle := handle;
      result := 0;
      entry := null;
    }
  }

  /** A timeout: of an I/O request (`data`) or of a sleeping coroutine (`handle`). */
  class Entry {
    var data: Callback?
    var handle: Option<Handle>
    const expirationTime: nat

    constructor ForCallback(data: Callback?, expirationTime: nat)
      ensures this.data == data && handle == None && this.expirationTime == expirationTime
    {
      this.data := data;
      handle := None;
      this.expirationTime := expirationTime;
    }

    constructor ForHandle(handle: Handle, expirationTime: nat)
      ensures data == null && this.handle == Some(handle) && this.expirationTime == expirationTime
    {
      data := null;
      this.handle := Some(handle);
      this.expirationTime := expirationTime;
    }

    /** Unlink the request that timed out, or wake the sleeping coroutine; an
        entry whose request completed first has neither, and does nothing. */
    method Execute(queue: RunQueue)
      modifies queue, Request()`entry
      ensures queue.tasks == old(queue.tasks) + Wakes(this)
      ensures data != null ==> data.entry == null
    {
      if data != null {
        data.entry := null;
      } else if handle.Some? {
        queue.Push(handle.value);
      }
    }

    ghost function Request(): set<Callback>
      reads this
    {
      if data == null then {} else {data}
    }
  }

  /** The coroutines an entry wakes when it is drained. */
  function Wakes(e: Entry): seq<Handle>
    reads e
  {
    if e.data == null && e.handle.Some? then [e.handle.value] else []
  }

  function AllWakes(es: seq<Entry>): seq<Handle>
    reads es
  {
    if es == [] then [] else AllWakes(es[..|es| - 1]) + Wakes(es[|es| - 1])
  }

  lemma NoWakes()
    ensures AllWakes([]) == []
  {
  }

  lemma {:induction false} AllWakesOne(es: seq<Entry>, e: Entry)
    ensures AllWakes(es + [e]) == AllWakes(es) + Wakes(e)
  {
    assert (es + [e])[..|es|] == es;
  }

  lemma {:induction false} AllWakesAppend(es: seq<Entry>, fs: seq<Entry>)
    ensures AllWakes(es + fs) == AllWakes(es) + AllWakes(fs)
  {
    if fs == [] {
      assert es + fs == es;
    } else {
      var n := |fs| - 1;
      assert (es + fs)[..|es + fs| - 1] == es + fs[..n];
      AllWakesAppend(es, fs[..n]);
    }
  }

  /** Where drained entries take effect: the run queue of the worker. */
  class RunQueue {
    var tasks: seq<Handle>

    constructor ()
      ensures tasks == []
    {
      tasks := [];
    }

    method Push(handle: Handle)
      modifies this
      ensures tasks == old(tasks) + [handle]
    {
      tasks := tasks + [handle];
    }
  }

  /** The slots of a level, and of all levels. */
  type Slots = seq<seq<Entry>>
  type Levels = seq<Slots>

  datatype Expiration = Expiration(level: nat, slot: nat, deadline: nat)

  /** When an entry is due, counted from the start of the wheel. */
  function When(e: Entry, start: nat): nat {
    if e.expirationTime < start then 0 else e.expirationTime - start
  }

  /** The requests that the given entries belong to. */
  ghost function Requests(es: seq<Entry>): set<Callback>
    reads es
  {
    set i | 0 <= i < |es| && es[i].data != null :: es[i].data
  }

  lemma NoRequests()
    ensures Requests([]) == {}
  {
  }

  lemma RequestsHave(es: seq<Entry>, i: nat)
    requires i < |es|
    ensures es[i].Request() <= Requests(es)
  {
  }

  lemma RequestsOne(es: seq<Entry>, e: Entry)
    ensures Requests(es + [e]) == Requests(es) + e.Request()
  {
    assert (es + [e])[|es|] == e;
    forall c | c in Requests(es)
      ensures c in Requests(es + [e])
    {
      var i :| 0 <= i < |es| && es[i].data == c;
      assert (es + [e])[i].data == c;
    }
  }

  lemma RequestsAppend(es: seq<Entry>, fs: seq<Entry>)
    ensures Requests(es + fs) == Requests(es) + Requests(fs)
  {
    forall c | c in Requests(es)
      ensures c in Requests(es + fs)
    {
      var i :| 0 <= i < |es| && es[i].data == c;
      assert (es + fs)[i].data == c;
    }
    forall c | c in Requests(fs)
      ensures c in Requests(es + fs)
    {
      var i :| 0 <= i < |fs| && fs[i].data == c;
      assert (es + fs)[|es| + i].data == c;
    }
  }

  lemma PendingWaited(all: multiset<Entry>, fired: seq<Entry>, pending: seq<Entry>,
                      waiting: multiset<Entry>, live: set<Callback>)
    requires multiset(fired) + (multiset(pending) + waiting) == all
    requires forall e :: e in all && e.data != null ==> e.data in live
    ensures Requests(pending) <= live
  {
    forall i | 0 <= i < |pending|
      ensures pending[i] in all
    {
      assert pending[i] in multiset(pending);
    }
  }

  ghost predicate InOrder(es: seq<Entry>, start: nat) {
    forall i, j :: 0 <= i < j < |es| ==> When(es[i], start) <= When(es[j], start)
  }

  lemma InOrderAppend(es: seq<Entry>, fs: seq<Entry>, start: nat, time: nat)
    requires InOrder(es, start)
    requires forall i :: 0 <= i < |es| ==> When(es[i], start) <= time
    requires forall e :: e in fs ==> When(e, start) == time
    ensures InOrder(es + fs, start)
    ensures forall i :: 0 <= i < |es + fs| ==> When((es + fs)[i], start) <= time
  {
  }

  /** The entries of a slot that are due by `deadline`, in their order. */
  function DueAt(entries: seq<Entry>, start: nat, deadline: nat): seq<Entry> {
    if entries == [] then []
    else (if When(entries[0], start) <= deadline then [entries[0]] else []) + DueAt(entries[1..], start, deadline)
  }

  lemma {:induction false} DueAtMembers(entries: seq<Entry>, start: nat, deadline: nat)
    ensures forall e :: e in DueAt(entries, start, deadline) ==> e in entries && When(e, start) <= deadline
    ensures (forall e :: e in entries ==> When(e, start) <= deadline) ==> DueAt(entries, start, deadline) == entries
  {
    if entries != [] {
      DueAtMembers(entries[1..], start, deadline);
      assert entries == [entries[0]] + entries[1..];
    }
  }

  lemma DueAtNone(start: nat, deadline: nat)
    ensures DueAt([], start, deadline) == []
  {
  }

  lemma {:induction false} DueAtAppend(es: seq<Entry>, fs: seq<Entry>, start: nat, deadline: nat)
    ensures DueAt(es + fs, start, deadline) == DueAt(es, start, deadline) + DueAt(fs, start, deadline)
  {
    if es == [] {
      assert es + fs == fs;
    } else {
      assert (es + fs)[1..] == es[1..] + fs;
      DueAtAppend(es[1..], fs, start, deadline);
    }
  }

  predicate Shaped(g: Levels) {
    |g| == NUM_LEVELS && forall l :: 0 <= l < NUM_LEVELS ==> |g[l]| == LEVEL_MULT
  }

  ghost predicate Filed(e: Entry, start: nat, elapsed: nat, l: nat, i: nat) {
    && start <= e.expirationTime < W64
    && Placed(elapsed, l, When(e, start))
    && SlotFor(l, When(e, start)) == i
  }

  ghost predicate SlotFiled(slot: seq<Entry>, start: nat, elapsed: nat, l: nat, i: nat) {
    forall k :: 0 <= k < |slot| ==> Filed(slot[k], start, elapsed, l, i)
  }

  /** Every entry is filed in the slot of the level where it belongs at time `elapsed`. */
  ghost predicate AllFiled(g: Levels, start: nat, elapsed: nat)
    requires Shaped(g)
  {
    forall l, i :: 0 <= l < NUM_LEVELS && 0 <= i < LEVEL_MULT ==> SlotFiled(g[l][i], start, elapsed, l, i)
  }

  // ----- the bag of all filed entries

  ghost function SlotBags(slots: Slots): (bags: seq<multiset<Entry>>)
    ensures |bags| == |slots|
    ensures forall i :: 0 <= i < |slots| ==> bags[i] == multiset(slots[i])
  {
    seq(|slots|, i requires 0 <= i < |slots| => multiset(slots[i]))
  }

  ghost function LevelBag(slots: Slots): multiset<Entry> {
    Sum(SlotBags(slots))
  }

  ghost function LevelBags(g: Levels): (bags: seq<multiset<Entry>>)
    ensures |bags| == |g|
    ensures forall l :: 0 <= l < |g| ==> bags[l] == LevelBag(g[l])
  {
    seq(|g|, l requires 0 <= l < |g| => LevelBag(g[l]))
  }

  ghost function Stored(g: Levels): multiset<Entry> {
    Sum(LevelBags(g))
  }

  function WithSlot(g: Levels, l: nat, i: nat, slot: seq<Entry>): Levels
    requires l < |g| && i < |g[l]|
  {
    g[l := g[l][i := slot]]
  }

  lemma {:induction false} LevelBagUpdate(slots: Slots, i: nat, slot: seq<Entry>)
    requires i < |slots|
    ensures LevelBag(slots[i := slot]) + multiset(slots[i]) == LevelBag(slots) + multiset(slot)
  {
    assert SlotBags(slots[i := slot]) == SlotBags(slots)[i := multiset(slot)];
    SumUpdate(SlotBags(slots), i, multiset(slot));
  }

  lemma {:induction false} StoredUpdate(g: Levels, l: nat, i: nat, slot: seq<Entry>)
    requires l < |g| && i < |g[l]|
    ensures Stored(WithSlot(g, l, i, slot)) + multiset(g[l][i]) == Stored(g) + multiset(slot)
  {
    var slots := g[l][i := slot];
    LevelBagUpdate(g[l], i, slot);
    assert LevelBags(WithSlot(g, l, i, slot)) == LevelBags(g)[l := LevelBag(slots)];
    SumUpdate(LevelBags(g), l, LevelBag(slots));
    Exchange(Stored(g), Stored(WithSlot(g, l, i, slot)), LevelBag(g[l]), LevelBag(slots),
             multiset(g[l][i]), multiset(slot));
  }

  lemma {:induction false} StoredAppend(g: Levels, l: nat, i: nat, e: Entry)
    requires l < |g| && i < |g[l]|
    ensures Stored(WithSlot(g, l, i, g[l][i] + [e])) == Stored(g) + multiset{e}
  {
    hide Stored, WithSlot;
    StoredUpdate(g, l, i, g[l][i] + [e]);
    Exchange(Stored(g), Stored(WithSlot(g, l, i, g[l][i] + [e])), multiset(g[l][i]), multiset(g[l][i] + [e]),
             multiset{}, multiset{e});
  }

  lemma {:induction false} StoredTake(g: Levels, l: nat, i: nat)
    requires l < |g| && i < |g[l]|
    ensures multiset(g[l][i]) + Stored(WithSlot(g, l, i, [])) == Stored(g)
  {
    hide Stored, WithSlot;
    StoredUpdate(g, l, i, []);
    assert multiset(g[l][i]) + Stored(WithSlot(g, l, i, [])) == Stored(WithSlot(g, l, i, [])) + multiset(g[l][i]);
  }

  lemma {:induction false} StoredAt(g: Levels, l: nat, i: nat, k: nat)
    requires l < |g| && i < |g[l]| && k < |g[l][i]|
    ensures g[l][i][k] in Stored(g)
  {
    var e := g[l][i][k];
    assert e in SlotBags(g[l])[i];
    SumHas(SlotBags(g[l]), i);
    assert e in LevelBags(g)[l];
    SumHas(LevelBags(g), l);
  }

  lemma {:induction false} StoredSource(g: Levels, e: Entry) returns (l: nat, i: nat, k: nat)
    requires e in Stored(g)
    ensures l < |g| && i < |g[l]| && k < |g[l][i]| && g[l][i][k] == e
  {
    l := SumSource(LevelBags(g), e);
    i := SumSource(SlotBags(g[l]), e);
    k :| 0 <= k < |g[l][i]| && g[l][i][k] == e;
  }

  lemma {:induction false} StoredEmpty(g: Levels)
    requires Shaped(g)
    requires forall l, i :: 0 <= l < NUM_LEVELS && 0 <= i < LEVEL_MULT ==> g[l][i] == []
    ensures Stored(g) == multiset{}
  {
    forall l | 0 <= l < |g|
      ensures LevelBags(g)[l] == multiset{}
    {
      SumEmpty(SlotBags(g[l]));
    }
    SumEmpty(LevelBags(g));
  }

  // ----- how far entries still have to descend

  /** The sum, over all filed entries, of the level each is filed at. */
  ghost function Height(g: Levels): nat
    requires |g| == NUM_LEVELS
  {
    |LevelBag(g[1])| + 2 * |LevelBag(g[2])| + 3 * |LevelBag(g[3])| + 4 * |LevelBag(g[4])| + 5 * |LevelBag(g[5])|
  }

  lemma {:induction false} HeightUpdate(g: Levels, l: nat, i: nat, slot: seq<Entry>)
    requires |g| == NUM_LEVELS && l < NUM_LEVELS && i < |g[l]|
    ensures Height(WithSlot(g, l, i, slot)) + l * |g[l][i]| == Height(g) + l * |slot|
  {
    LevelBagUpdate(g[l], i, slot);
    var before, after := LevelBag(g[l]), LevelBag(g[l][i := slot]);
    assert |after| + |multiset(g[l][i])| == |after + multiset(g[l][i])|;
    assert |before| + |multiset(slot)| == |before + multiset(slot)|;
    var h := WithSlot(g, l, i, slot);
    assert forall m :: 0 <= m < NUM_LEVELS && m != l ==> h[m] == g[m];
    assert l == 0 || l == 1 || l == 2 || l == 3 || l == 4 || l == 5;
  }

  /** A product with one factor a level, by repeated addition. */
  function Times(n: nat, l: nat): nat {
    if n == 0 then 0 else Times(n - 1, l) + l
  }

  lemma {:induction false} TimesIsProduct(n: nat, l: nat)
    ensures Times(n, l) == n * l
  {
    if n > 0 {
      TimesIsProduct(n - 1, l);
    }
  }

  lemma {:induction false} HeightTake(g: Levels, l: nat, i: nat)
    requires |g| == NUM_LEVELS && l < NUM_LEVELS && i < |g[l]|
    ensures Height(WithSlot(g, l, i, [])) + Times(|g[l][i]|, l) == Height(g)
  {
    hide Height, WithSlot, Times;
    HeightUpdate(g, l, i, []);
    TimesIsProduct(|g[l][i]|, l);
  }

  lemma {:induction false} HeightAppend(g: Levels, l: nat, i: nat, e: Entry)
    requires |g| == NUM_LEVELS && l < NUM_LEVELS && i < |g[l]|
    ensures Height(WithSlot(g, l, i, g[l][i] + [e])) == Height(g) + l
  {
    hide Height, WithSlot, Times;
    HeightUpdate(g, l, i, g[l][i] + [e]);
    TimesIsProduct(|g[l][i]|, l);
    TimesIsProduct(|g[l][i]| + 1, l);
    assert Times(|g[l][i]| + 1, l) == Times(|g[l][i]|, l) + l by {
      TimesStep(|g[l][i]|, l);
    }
  }

  lemma TimesStep(n: nat, l: nat)
    ensures Times(n + 1, l) == Times(n, l) + l
  {
  }

  lemma {:induction false} HeightBound(g: Levels)
    requires |g| == NUM_LEVELS
    ensures Height(g) <= 5 * |Stored(g)|
  {
    var b := LevelBags(g);
    SumPrefixSize(b, 0);
    SumPrefixSize(b, 1);
    SumPrefixSize(b, 2);
    SumPrefixSize(b, 3);
    SumPrefixSize(b, 4);
    SumPrefixSize(b, 5);
    assert b[..6] == b;
  }
}

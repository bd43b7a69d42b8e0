/** The timing wheel itself: levels that keep an occupancy word beside their
    slots, and the timer that files, removes, searches, cascades and drains. */
module Timer {
  import opened Bags
  import opened Words
  import opened Wheel
  import opened Grid
  import opened Search
  import opened Order

  datatype Result<+T> = Ok(value: T) | PassedTime

  class Level {
    const level: nat
    var occupied: nat
    var slots: Slots

    ghost predicate Valid()
      reads this
    {
      level < NUM_LEVELS && Occupancy(occupied, slots)
    }

    constructor (level: nat)
      requires level < NUM_LEVELS
      ensures Valid() && this.level == level
      ensures forall i :: 0 <= i < LEVEL_MULT ==> slots[i] == []
    {
      this.level := level;
      occupied := 0;
      slots := seq(LEVEL_MULT, _ => []);
      new;
      forall i | 0 <= i < LEVEL_MULT
        ensures !Bit(0, i)
      {
        ZeroHasNoBits(i);
      }
    }

    method AddEntry(entry: Entry, when: nat)
      requires Valid()
      modifies this
      ensures Valid()
      ensures var slot := SlotFor(level, when);
        slots == old(slots)[slot := old(slots)[slot] + [entry]]
    {
      var slot := SlotFor(level, when);
      slots := slots[slot := slots[slot] + [entry]];
      SetBitEffect(occupied, slot);
      occupied := SetBit(occupied, slot);
    }

    /** The expiration of this level, computed from the occupancy word alone. */
    function NextExpiration(now: nat): (x: Option<Expiration>)
      requires Valid() && now < W64
      reads this
    {
      LevelExpiration(level, occupied, now)
    }

    method TakeSlot(slot: nat) returns (entries: seq<Entry>)
      requires Valid() && slot < LEVEL_MULT
      modifies this
      ensures Valid()
      ensures entries == old(slots)[slot] && slots == old(slots)[slot := []]
    {
      entries := slots[slot];
      slots := slots[slot := []];
      ClearBitEffect(occupied, slot);
      occupied := ClearBit(occupied, slot);
    }
  }

  class Timer {
    const startTime: nat
    var elapsed: nat
    const levels: seq<Level>
    var pending: seq<Entry>

    /** The levels are six distinct objects, each in good order. */
    ghost predicate Formed()
      reads levels
    {
      && |levels| == NUM_LEVELS
      && (forall l, m :: 0 <= l < m < NUM_LEVELS ==> levels[l] != levels[m])
      && forall l :: 0 <= l < NUM_LEVELS ==> levels[l].level == l && levels[l].Valid()
    }

    /** What is filed where. */
    ghost function Filing(): (g: Levels)
      requires Formed()
      reads levels
      ensures Shaped(g)
      ensures forall l :: 0 <= l < NUM_LEVELS ==> g[l] == levels[l].slots
    {
      [levels[0].slots, levels[1].slots, levels[2].slots, levels[3].slots, levels[4].slots, levels[5].slots]
    }

    /** The bag of entries waiting in the wheel. */
    ghost function Waiting(): multiset<Entry>
      requires Formed()
      reads levels
    {
      Stored(Filing())
    }

    /** Every waiting entry is filed in the slot where it belongs, and nothing is left to drain. */
    ghost predicate Valid()
      reads this, levels
    {
      Formed() && elapsed < W64 && pending == [] && AllFiled(Filing(), startTime, elapsed)
    }

    lemma NothingPending()
      requires Valid()
      ensures Formed() && pending == []
    {
    }

    constructor (now: nat)
      ensures Valid() && fresh(levels) && startTime == now && elapsed == 0
      ensures Waiting() == multiset{}
    {
      startTime := now;
      elapsed := 0;
      pending := [];
      var made: seq<Level> := [];
      for l := 0 to NUM_LEVELS
        invariant |made| == l && fresh(made)
        invariant forall k, m :: 0 <= k < m < l ==> made[k] != made[m]
        invariant forall k :: 0 <= k < l ==> made[k].level == k && made[k].Valid()
        invariant forall k, i :: 0 <= k < l && 0 <= i < LEVEL_MULT ==> made[k].slots[i] == []
      {
        var level := new Level(l);
        made := made + [level];
      }
      levels := made;
      new;
      StoredEmpty(Filing());
    }

    /** File an entry in the level `level`, at the slot for `when`. */
    method File(level: nat, entry: Entry, when: nat)
      requires Formed() && level < NUM_LEVELS
      modifies levels[level]
      ensures Formed()
      ensures var slot := SlotFor(level, when);
        Filing() == WithSlot(old(Filing()), level, slot, old(Filing()[level][slot]) + [entry])
    {
      levels[level].AddEntry(entry, when);
    }

    /** File a timeout for a request.  The result is the new entry. */
    method Insert(data: Callback, expirationTime: nat) returns (r: Result<Entry>)
      requires Valid() && expirationTime < W64
      modifies levels
      ensures Formed() && elapsed == old(elapsed) && pending == []
      ensures r == PassedTime <==> expirationTime <= startTime + elapsed
      ensures r == PassedTime ==> Filing() == old(Filing()) && Waiting() == old(Waiting())
      ensures r.Ok? ==>
        && fresh(r.value) && r.value.expirationTime == expirationTime
        && r.value.data == data && r.value.handle == None
        && Waiting() == old(Waiting()) + multiset{r.value}
      ensures Valid() <==> r == PassedTime || InHorizon(elapsed, expirationTime - startTime)
      ensures Valid() && r.Ok? ==> Added(Filing(), old(Filing()), startTime, [r.value])
    {
      hide InHorizon, AllFiled, Stored, Added;
      if expirationTime <= startTime + elapsed {
        return PassedTime;
      }
      var when := expirationTime - startTime;
      var entry := new Entry.ForCallback(data, expirationTime);
      FileNew(entry, when);
      return Ok(entry);
    }

    /** File a sleeping coroutine. */
    method InsertHandle(handle: Handle, expirationTime: nat) returns (r: Result<Entry>)
      requires Valid() && expirationTime < W64
      modifies levels
      ensures Formed() && elapsed == old(elapsed) && pending == []
      ensures r == PassedTime <==> expirationTime <= startTime + elapsed
      ensures r == PassedTime ==> Filing() == old(Filing()) && Waiting() == old(Waiting())
      ensures r.Ok? ==>
        && fresh(r.value) && r.value.expirationTime == expirationTime
        && r.value.data == null && r.value.handle == Some(handle)
        && Waiting() == old(Waiting()) + multiset{r.value}
      ensures Valid() <==> r == PassedTime || InHorizon(elapsed, expirationTime - startTime)
      ensures Valid() && r.Ok? ==> Added(Filing(), old(Filing()), startTime, [r.value])
    {
      hide InHorizon, AllFiled, Stored, Added;
      if expirationTime <= startTime + elapsed {
        return PassedTime;
      }
      var when := expirationTime - startTime;
      var entry := new Entry.ForHandle(handle, expirationTime);
      FileNew(entry, when);
      return Ok(entry);
    }

    method FileNew(entry: Entry, when: nat)
      requires Valid() && startTime <= entry.expirationTime < W64
      requires when == When(entry, startTime) && elapsed < when
      modifies levels
      ensures Formed() && elapsed == old(elapsed) && pending == []
      ensures Waiting() == old(Waiting()) + multiset{entry}
      ensures Valid() <==> InHorizon(elapsed, when)
      ensures Valid() ==> Added(Filing(), old(Filing()), startTime, [entry])
    {
      hide InHorizon, AllFiled, Stored, SlotFor, LevelFor, Added, Placed;
      ghost var g := Filing();
      LevelForIsHighestDifference(elapsed, when);
      var level := LevelFor(elapsed, when);
      File(level, entry, when);
      ghost var slot := SlotFor(level, when);
      StoredAppend(g, level, slot, entry);
      FileNewPlaced(g, startTime, elapsed, entry);
      if InHorizon(elapsed, when) {
        LevelForPlaces(elapsed, when);
        FileAdds(g, startTime, elapsed, level, slot, entry);
      }
    }

    /** Forget a timeout whose request completed: its entry stays filed but no longer
        refers to anything.  A sleeping coroutine's handle is refiled at the present moment. */
    method Remove(entry: Entry)
      requires Valid() && startTime + elapsed < W64
      modifies entry, levels
      ensures Formed() && elapsed == old(elapsed) && pending == []
      ensures entry.data == null && entry.handle == None
      ensures old(entry.handle) == None ==> Filing() == old(Filing()) && Waiting() == old(Waiting()) && Valid()
      ensures old(entry.handle).Some? ==> !Valid()
    {
      entry.data := null;
      if entry.handle.Some? {
        var newEntry := new Entry.ForHandle(entry.handle.value, startTime + elapsed);
        ghost var g := Filing();
        File(0, newEntry, elapsed);
        entry.handle := None;
        ghost var slot := SlotFor(0, elapsed);
        assert Filing()[0][slot][|g[0][slot]|] == newEntry;
        assert !Filed(newEntry, startTime, elapsed, 0, slot);
        assert !SlotFiled(Filing()[0][slot], startTime, elapsed, 0, slot);
      }
    }

    /** The earliest expiration over all levels, searched from the lowest level up. */
    method NextExpiration() returns (x: Option<Expiration>)
      requires Valid()
      ensures x == None <==> Waiting() == multiset{}
      ensures x.Some? ==> Earliest(Filing(), startTime, elapsed, x.value)
    {
      ghost var g := Filing();
      for level := 0 to NUM_LEVELS
        invariant forall l, i :: 0 <= l < level && 0 <= i < LEVEL_MULT ==> g[l][i] == []
      {
        var expiration := levels[level].NextExpiration(elapsed);
        EmptyLevel(g[level], levels[level].occupied);
        if expiration.Some? {
          FirstLevelIsEarliest(g, startTime, elapsed, levels[level].occupied, expiration.value);
          StoredAt(g, expiration.value.level, expiration.value.slot, 0);
          return expiration;
        }
      }
      StoredEmpty(g);
      return None;
    }

    /** How long the worker may sleep: until the earliest moment at which a slot is due, which is never past
        a waiting entry, and is the time of the next entry if that is due within the clock's own 64 milliseconds. */
    method NextExpirationTime() returns (t: Option<nat>)
      requires Valid()
      ensures t == None <==> Waiting() == multiset{}
      ensures t.Some? ==> exists x :: Earliest(Filing(), startTime, elapsed, x) && elapsed + t.value == x.deadline
      ensures t.Some? ==> t.value > 0 && forall e :: e in Waiting() ==> elapsed + t.value <= When(e, startTime)
      ensures forall e :: e in Waiting() && When(e, startTime) / LEVEL_MULT == elapsed / LEVEL_MULT ==>
        t.Some? && exists f :: f in Waiting() && When(f, startTime) == elapsed + t.value
    {
      hide Earliest, When, Stored, AllFiled;
      var expiration := NextExpiration();
      if expiration.Some? {
        EarliestBounds(Filing(), startTime, elapsed, expiration.value);
        EarliestLater(Filing(), startTime, elapsed, expiration.value);
        forall e | e in Waiting() && When(e, startTime) / LEVEL_MULT == elapsed / LEVEL_MULT
          ensures exists f :: f in Waiting() && When(f, startTime) == expiration.value.deadline
        {
          EarliestExact(Filing(), startTime, elapsed, expiration.value, e);
        }
        return Some(expiration.value.deadline - elapsed);
      } else {
        return None;
      }
    }

    /** Hand one entry of a due slot on: to `pending` if it is due at the deadline,
        otherwise to a strictly lower level, as seen from that deadline. */
    method Descend(x: Expiration, entry: Entry, ghost filedAt: nat) returns (ghost moved: nat)
      requires Formed() && AllFiled(Filing(), startTime, x.deadline)
      requires x.level < NUM_LEVELS
      requires Filed(entry, startTime, filedAt, x.level, x.slot)
      requires SlotDue(x.level, When(entry, startTime)) == x.deadline
      modifies this`pending, levels
      ensures Formed() && AllFiled(Filing(), startTime, x.deadline)
      ensures pending == old(pending) + DueAt([entry], startTime, x.deadline)
      ensures multiset(pending) + Waiting() == old(multiset(pending) + Waiting()) + multiset{entry}
      ensures moved + Height(Filing()) <= old(Height(Filing())) + x.level
      ensures moved == |[entry]| - |DueAt([entry], startTime, x.deadline)|
      ensures Joined(Filing(), old(Filing()), startTime, [entry], x.deadline)
    {
      hide AllFiled, Stored, Filed, SlotDue, When, SlotFor, LevelFor, Height, Joined, Added;
      var when := When(entry, startTime);
      DueEntryDescends(startTime, filedAt, x.level, x.slot, entry, x.deadline);
      DueAtOne(entry, startTime, x.deadline);
      if when <= x.deadline {
        JoinedOne(Filing(), Filing(), startTime, entry, x.deadline);
        pending := pending + [entry];
        moved := 0;
      } else {
        ghost var g := Filing();
        var level := LevelFor(x.deadline, when);
        ghost var slot := SlotFor(level, when);
        StoredAppend(g, level, slot, entry);
        HeightAppend(g, level, slot, entry);
        FileKeepsFiled(g, startTime, x.deadline, level, slot, entry);
        FileAdds(g, startTime, x.deadline, level, slot, entry);
        File(level, entry, when);
        JoinedOne(Filing(), g, startTime, entry, x.deadline);
        moved := 1;
      }
    }

    /** The loop over the entries of a due slot above level 0. */
    method Cascade(x: Expiration, taken: seq<Entry>, ghost filedAt: nat) returns (ghost moves: nat)
      requires Formed() && pending == [] && AllFiled(Filing(), startTime, x.deadline)
      requires x.level < NUM_LEVELS
      requires forall e :: e in taken ==>
        Filed(e, startTime, filedAt, x.level, x.slot) && SlotDue(x.level, When(e, startTime)) == x.deadline
      modifies this`pending, levels
      ensures Formed() && AllFiled(Filing(), startTime, x.deadline)
      ensures pending == DueAt(taken, startTime, x.deadline)
      ensures multiset(pending) + Waiting() == old(Waiting()) + multiset(taken)
      ensures moves + Height(Filing()) <= old(Height(Filing())) + Times(|taken|, x.level)
      ensures moves == |taken| - |pending|
      ensures Joined(Filing(), old(Filing()), startTime, taken, x.deadline)
    {
      hide AllFiled, Stored, Filed, SlotDue, When, Height, DueAt, Waiting, Joined;
      moves := 0;
      var entries := taken;
      ghost var gone: seq<Entry> := [];
      DueAtNone(startTime, x.deadline);
      JoinedNothing(Filing(), startTime, x.deadline);
      while entries != []
        invariant taken == gone + entries
        invariant Formed() && AllFiled(Filing(), startTime, x.deadline)
        invariant pending == DueAt(gone, startTime, x.deadline)
        invariant multiset(pending) + Waiting() == old(Waiting()) + multiset(gone)
        invariant moves + Height(Filing()) <= old(Height(Filing())) + Times(|gone|, x.level)
        invariant moves == |gone| - |pending|
        invariant Joined(Filing(), old(Filing()), startTime, gone, x.deadline)
        decreases |entries|
      {
        var entry := entries[0];
        entries := entries[1..];
        ghost var g := Filing();
        ghost var moved := Descend(x, entry, filedAt);
        JoinedMore(Filing(), g, old(Filing()), startTime, gone, [entry], x.deadline);
        moves := moves + moved;
        DueAtAppend(gone, [entry], startTime, x.deadline);
        gone := gone + [entry];
      }
      assert gone == taken;
    }

    /** Take the slot that falls due and hand its entries on.  `moves` counts the
        entries that were refiled. */
    method ProcessExpiration(x: Expiration) returns (ghost moves: nat)
      requires Valid() && Earliest(Filing(), startTime, elapsed, x)
      modifies this`pending, levels
      ensures Formed() && AllFiled(Filing(), startTime, x.deadline)
      ensures pending == DueAt(old(Filing()[x.level][x.slot]), startTime, x.deadline)
      ensures forall e :: e in pending ==> When(e, startTime) == x.deadline
      ensures multiset(pending) + Waiting() == old(Waiting())
      ensures moves + Height(Filing()) <= old(Height(Filing()))
      ensures moves == |old(Filing()[x.level][x.slot])| - |pending|
      ensures Leaves(Filing(), old(Filing()), startTime, pending)
    {
      hide AllFiled, Stored, Filed, SlotDue, When, Height, DueAt, DueAfter, Joined, Leaves, OfTime, Line;
      ghost var g := Filing();
      TakeKeepsFiled(g, startTime, elapsed, x);
      StoredTake(g, x.level, x.slot);
      HeightTake(g, x.level, x.slot);
      SlotEntries(g, startTime, elapsed, x);
      TakeLeaves(g, startTime, elapsed, x.level, x.slot);
      var entries := levels[x.level].TakeSlot(x.slot);
      assert Filing() == WithSlot(g, x.level, x.slot, []);
      moves := 0;
      if x.level == 0 {
        pending := pending + entries;
      } else {
        moves := Cascade(x, entries, elapsed);
        CascadeLeaves(Filing(), WithSlot(g, x.level, x.slot, []), g, startTime, entries, x.deadline);
      }
      DueAtMembers(entries, startTime, x.deadline);
    }

    /** Execute the due entries, in order.  `live` is any set of requests that includes
        those of the due entries. */
    method DrainPending(queue: RunQueue, ghost live: set<Callback>) returns (count: nat, ghost drained: seq<Entry>)
      requires Formed() && Requests(pending) <= live
      modifies this`pending, queue, live`entry
      ensures pending == [] && drained == old(pending) && count == |drained|
      ensures queue.tasks == old(queue.tasks) + AllWakes(drained)
      ensures forall c :: c in live ==> c.entry == if c in Requests(drained) then null else old(c.entry)
    {
      hide Formed, AllWakes, Wakes, Requests;
      count := |pending|;
      drained := pending;
      ghost var n := 0;
      NoWakes();
      NoRequests();
      assert drained[..0] == [];
      while pending != []
        invariant n <= |drained| && pending == drained[n..]
        invariant queue.tasks == old(queue.tasks) + AllWakes(drained[..n])
        invariant forall c :: c in live ==> c.entry == if c in Requests(drained[..n]) then null else old(c.entry)
        decreases |pending|
      {
        var entry := pending[0];
        pending := pending[1..];
        assert entry == drained[n];
        RequestsHave(drained, n);
        entry.Execute(queue);
        AllWakesOne(drained[..n], entry);
        RequestsOne(drained[..n], entry);
        assert drained[..n + 1] == drained[..n] + [entry];
        n := n + 1;
      }
      assert drained[..n] == drained;
    }

    /** Unless nothing more is due by `now`, move the clock to the next deadline and
        collect what is due there. */
    method Advance(now: nat) returns (done: bool, ghost moves: nat)
      requires Valid() && elapsed <= now < W64
      modifies this`pending, this`elapsed, levels
      ensures Formed() && AllFiled(Filing(), startTime, elapsed)
      ensures multiset(pending) + Waiting() == old(Waiting())
      ensures forall e :: e in pending ==> When(e, startTime) == elapsed
      ensures done ==> pending == [] && elapsed == old(elapsed) && AllFiled(Filing(), startTime, now)
      ensures !done ==> old(elapsed) < elapsed <= now
      ensures moves + Height(Filing()) <= old(Height(Filing()))
      ensures Leaves(Filing(), old(Filing()), startTime, pending)
    {
      hide AllFiled, Stored, Earliest, When, Height, Leaves;
      moves := 0;
      var expiration := NextExpiration();
      if expiration == None || expiration.value.deadline > now {
        AdvanceKeepsFiled(Filing(), startTime, elapsed, now, expiration);
        LeavesNothing(Filing(), startTime);
        done := true;
      } else {
        EarliestLater(Filing(), startTime, elapsed, expiration.value);
        moves := ProcessExpiration(expiration.value);
        elapsed := expiration.value.deadline;
        done := false;
      }
    }

    /** What draining the entries `fired`, in order, did to the run queue `tasks` and the links `links`. */
    static ghost predicate Executed(queue: RunQueue, live: set<Callback>, fired: seq<Entry>,
                                    tasks: seq<Handle>, links: map<Callback, Entry?>)
      reads queue, live, fired
    {
      && queue.tasks == tasks + AllWakes(fired)
      && live <= links.Keys
      && forall c :: c in live ==> c.entry == if c in Requests(fired) then null else links[c]
    }

    /** Between two rounds of a drain that started with the entries `all`, filed as in `g`, and has executed
        `fired` so far. */
    ghost predicate Draining(now: nat, live: set<Callback>, all: multiset<Entry>, g: Levels, fired: seq<Entry>)
      reads this, levels, set e | e in all
    {
      && Formed() && AllFiled(Filing(), startTime, elapsed) && elapsed <= now < W64
      && multiset(fired) + (multiset(pending) + Waiting()) == all
      && (forall e :: e in all && e.data != null ==> e.data in live)
      && (forall e :: e in pending ==> When(e, startTime) == elapsed)
      && (forall i :: 0 <= i < |fired| ==> When(fired[i], startTime) <= elapsed)
      && InOrder(fired, startTime)
      && Leaves(Filing(), g, startTime, fired + pending)
    }

    method ExecutePending(queue: RunQueue, ghost live: set<Callback>, ghost fired: seq<Entry>,
                          ghost tasks: seq<Handle>, ghost links: map<Callback, Entry?>)
      returns (count: nat, ghost drained: seq<Entry>)
      requires Formed() && Requests(pending) <= live
      requires Executed(queue, live, fired, tasks, links)
      modifies this`pending, queue, live`entry
      ensures pending == [] && drained == old(pending) && count == |drained|
      ensures Executed(queue, live, fired + drained, tasks, links)
    {
      hide Formed, AllWakes, Wakes, Requests;
      count, drained := DrainPending(queue, live);
      AllWakesAppend(fired, drained);
      RequestsAppend(fired, drained);
    }

    /** The first half of a round: execute what is due. */
    method Settle(now: nat, queue: RunQueue, ghost live: set<Callback>, ghost all: multiset<Entry>,
                  ghost g: Levels, ghost fired: seq<Entry>, ghost tasks: seq<Handle>,
                  ghost links: map<Callback, Entry?>)
      returns (count: nat, ghost drained: seq<Entry>)
      requires Draining(now, live, all, g, fired) && Executed(queue, live, fired, tasks, links)
      modifies this`pending, queue, live`entry
      ensures Draining(now, live, all, g, fired + drained) && Executed(queue, live, fired + drained, tasks, links)
      ensures pending == [] && count == |drained|
    {
      hide AllFiled, Formed, Filing, Stored, When, Height, Requests, InOrder, Executed, Leaves;
      ghost var due := pending;
      PendingWaited(all, fired, pending, Waiting(), live);
      InOrderAppend(fired, pending, startTime, elapsed);
      count, drained := ExecutePending(queue, live, fired, tasks, links);
      assert multiset(fired + drained) == multiset(fired) + multiset(drained);
      assert (fired + drained) + pending == fired + due;
    }

    /** One round of the drain: execute what is due, then advance. */
    method Round(now: nat, queue: RunQueue, ghost live: set<Callback>, ghost all: multiset<Entry>,
                 ghost g: Levels, ghost fired: seq<Entry>, ghost tasks: seq<Handle>, ghost links: map<Callback, Entry?>)
      returns (done: bool, count: nat, ghost drained: seq<Entry>, ghost moves: nat)
      requires Draining(now, live, all, g, fired) && Executed(queue, live, fired, tasks, links)
      modifies this, levels, queue, live`entry
      ensures Draining(now, live, all, g, fired + drained) && Executed(queue, live, fired + drained, tasks, links)
      ensures count == |drained|
      ensures Formed() && elapsed <= now
      ensures done ==> pending == [] && elapsed == old(elapsed) && AllFiled(Filing(), startTime, now)
      ensures !done ==> old(elapsed) < elapsed
      ensures moves + Height(Filing()) <= old(Height(Filing()))
    {
      hide AllFiled, Formed, Filing, Stored, When, Height, Requests, InOrder, Executed, Leaves;
      count, drained := Settle(now, queue, live, all, g, fired, tasks, links);
      ghost var before := Filing();
      assert (fired + drained) + pending == fired + drained;
      done, moves := Advance(now);
      LeavesMore(Filing(), before, g, startTime, fired + drained, pending);
      assert Executed(queue, live, fired + drained, tasks, links);
    }

    lemma StartDraining(now: nat, queue: RunQueue, live: set<Callback>, links: map<Callback, Entry?>)
      requires Valid() && elapsed <= now < W64
      requires forall e :: e in Waiting() && e.data != null ==> e.data in live
      requires live <= links.Keys && forall c :: c in live ==> c.entry == links[c]
      ensures Draining(now, live, Waiting(), Filing(), []) && Executed(queue, live, [], queue.tasks, links)
    {
      NoWakes();
      NoRequests();
      LeavesNothing(Filing(), startTime);
    }

    lemma EndDraining(now: nat, live: set<Callback>, all: multiset<Entry>, g: Levels, fired: seq<Entry>)
      requires Draining(now, live, all, g, fired)
      requires pending == [] && AllFiled(Filing(), startTime, now)
      ensures multiset(fired) + Waiting() == all
      ensures forall e :: e in fired ==> When(e, startTime) <= now
      ensures forall e :: e in Waiting() ==> When(e, startTime) > now
      ensures InOrder(fired, startTime)
      ensures Leaves(Filing(), g, startTime, fired)
    {
      assert fired + pending == fired;
      FiledIsLater(Filing(), startTime, now);
    }

    /** The loop of the drain. */
    method Rounds(now: nat, queue: RunQueue, ghost live: set<Callback>, ghost links: map<Callback, Entry?>)
      returns (count: nat, ghost fired: seq<Entry>, ghost moves: nat)
      requires Valid() && elapsed <= now < W64
      requires forall e :: e in Waiting() && e.data != null ==> e.data in live
      requires live <= links.Keys && forall c :: c in live ==> c.entry == links[c]
      modifies this, levels, queue, live`entry
      ensures Formed() && pending == [] && AllFiled(Filing(), startTime, now)
      ensures Executed(queue, live, fired, old(queue.tasks), links)
      ensures multiset(fired) + Waiting() == old(Waiting())
      ensures forall e :: e in fired ==> When(e, startTime) <= now
      ensures forall e :: e in Waiting() ==> When(e, startTime) > now
      ensures InOrder(fired, startTime) && Leaves(Filing(), old(Filing()), startTime, fired)
      ensures count == |fired|
      ensures moves <= 5 * |old(Waiting())|
    {
      hide AllFiled, Formed, Filing, Stored, Height, Draining, Executed, When, InOrder;
      HeightBound(Filing());
      StartDraining(now, queue, live, links);
      count, fired, moves := 0, [], 0;
      var done := false;
      while !done
        invariant Draining(now, live, old(Waiting()), old(Filing()), fired)
        invariant Executed(queue, live, fired, old(queue.tasks), links)
        invariant Formed() && elapsed <= now
        invariant done ==> pending == [] && AllFiled(Filing(), startTime, now)
        invariant count == |fired|
        invariant moves + Height(Filing()) <= old(Height(Filing()))
        decreases now - elapsed, !done
      {
        var n;
        ghost var drained: seq<Entry>, refiled: nat;
        done, n, drained, refiled :=
          Round(now, queue, live, old(Waiting()), old(Filing()), fired, old(queue.tasks), links);
        count := count + n;
        fired := fired + drained;
        moves := moves + refiled;
      }
      EndDraining(now, live, old(Waiting()), old(Filing()), fired);
    }

    /** Bring the wheel to the time `now` and drain what is due: exactly the entries with
        a deadline up to `now`, each once, in the order of their deadlines.  `live` is any
        set of requests that includes those of the waiting entries. */
    method HandleExpiredEntries(now: nat, queue: RunQueue, ghost live: set<Callback>)
      returns (count: nat, ghost fired: seq<Entry>, ghost moves: nat)
      requires Valid() && elapsed <= now < W64
      requires forall e :: e in Waiting() && e.data != null ==> e.data in live
      modifies this, levels, queue, live`entry
      ensures Valid() && elapsed == now
      ensures multiset(fired) + Waiting() == old(Waiting())
      ensures forall e :: e in fired ==> When(e, startTime) <= now
      ensures forall e :: e in Waiting() ==> When(e, startTime) > now
      ensures InOrder(fired, startTime) && Leaves(Filing(), old(Filing()), startTime, fired)
      ensures count == |fired|
      ensures queue.tasks == old(queue.tasks) + AllWakes(fired)
      ensures forall c :: c in live ==> c.entry == if c in Requests(fired) then null else old(c.entry)
      ensures moves <= 5 * |old(Waiting())|
    {
      hide AllFiled, Formed, Filing, Stored, When, InOrder, AllWakes, Requests;
      ghost var links := map c | c in live :: c.entry;
      count, fired, moves := Rounds(now, queue, live, links);
      elapsed := now;
    }
  }
}

/** The local and the global queue as the runtime lays them out: a 64-bit head
    that packs two 32-bit counters, a 32-bit tail, an array of 256 slots; and a
    list with a counter of its length.

    Each method of LocalQueue up to the line "whole operations" is one atomic
    access to the queue, and changes the ring described in module Ring exactly
    as the step of the protocol does, so that what is proved there of every
    interleaving holds of these words. */
module LocalQueue {
  import opened Words
  import opened Wheel
  import opened Ring
  import opened StealingInv
  import opened GlobalQueue

  function Pack(steal: nat, head: nat): nat
    requires steal < W32 && head < W32
  {
    Or(Shl(steal, 32), head)
  }

  function Unpack(word: nat): (r: (nat, nat)) {
    (Low(Shr(word, 32), 32), Low(word, 32))
  }

  // ----- packing is a bijection between pairs of counters and words

  lemma {:induction false} PackIsSum(steal: nat, head: nat)
    requires steal < W32 && head < W32
    ensures Pack(steal, head) == steal * W32 + head < W64
  {
    Pow2Literals();
    ShlIsMul(steal, 32);
    OrIsPlus(steal, head, 32);
  }

  lemma {:induction false} UnpackIsDivision(word: nat)
    requires word < W64
    ensures Unpack(word) == (word / W32, word % W32)
  {
    hide Low, Shr, Pow2;
    Pow2Literals();
    Halves(word, 32);
  }

  lemma {:induction false} Halves(word: nat, bits: nat)
    requires word < W64 && Pow2(bits) == W32
    ensures Low(word, bits) == word % W32
    ensures Low(Shr(word, bits), bits) == word / W32
  {
    LowShr(word, bits);
    LowSize(word, bits);
    assert word == Shr(word, bits) * W32 + Low(word, bits);
    LowAll(Shr(word, bits), bits);
  }

  lemma {:induction false} UnpackPack(steal: nat, head: nat)
    requires steal < W32 && head < W32
    ensures Unpack(Pack(steal, head)) == (steal, head)
  {
    hide Pack, Unpack;
    PackIsSum(steal, head);
    UnpackIsDivision(Pack(steal, head));
  }

  lemma {:induction false} PackUnpack(word: nat)
    requires word < W64
    ensures Unpack(word).0 < W32 && Unpack(word).1 < W32
    ensures Pack(Unpack(word).0, Unpack(word).1) == word
  {
    hide Pack, Unpack;
    UnpackIsDivision(word);
    PackIsSum(word / W32, word % W32);
  }

  lemma {:induction false} PackInjective(a: nat, b: nat, c: nat, d: nat)
    requires a < W32 && b < W32 && c < W32 && d < W32
    ensures Pack(a, b) == Pack(c, d) <==> a == c && b == d
  {
    hide Pack, Unpack;
    UnpackPack(a, b);
    UnpackPack(c, d);
  }

  function Add32(a: nat, b: nat): (w: nat)
    ensures w < W32
  {
    (a + b) % W32
  }

  lemma Add32IsSum(counter: nat, n: nat)
    ensures Add32(Word(counter), n) == Word(counter + n)
  {
  }

  class LocalQueue {
    var head: nat
    var tail: nat
    const buffer: array<Task>
    ghost var ring: Queue

    ghost predicate Valid()
      reads this, buffer
    {
      && QueueInv(ring)
      && head == Pack(Word(ring.steal), Word(ring.head))
      && tail == Word(ring.Tail())
      && buffer.Length == CAPACITY
      && buffer[..] == ring.buffer
    }

    constructor ()
      ensures Valid() && fresh(buffer)
      ensures ring.steal == ring.head == 0 && ring.log == [] && ring.thief == None
    {
      head := 0;
      tail := 0;
      buffer := new Task[CAPACITY];
      new;
      ring := Queue(0, 0, [], buffer[..], None);
      PackIsSum(0, 0);
    }

    function Size(): nat
      requires Valid()
      reads this, buffer
    {
      UnpackPack(Word(ring.steal), Word(ring.head));
      Sub32(tail, Unpack(head).1)
    }

    function RemainingSlots(): int
      requires Valid()
      reads this, buffer
    {
      UnpackPack(Word(ring.steal), Word(ring.head));
      CAPACITY - Sub32(tail, Unpack(head).0)
    }

    /** The two sizes the code computes from wrapped words are the numbers of waiting tasks and of free slots. */
    lemma SizesExact()
      requires Valid()
      ensures Size() == |ring.Content()|
      ensures RemainingSlots() == ring.steal + CAPACITY - ring.Tail() >= 0
    {
      hide Word, Sub32, Pack, Unpack, Slot;
      UnpackPack(Word(ring.steal), Word(ring.head));
      Sub32IsDifference(ring.Tail(), ring.head);
      Sub32IsDifference(ring.Tail(), ring.steal);
    }

    /** A compare-exchange of the head, which may fail spuriously. */
    method CompareExchange(expected: nat, desired: nat, spurious: bool) returns (ok: bool, current: nat)
      modifies this`head
      ensures ok <==> !spurious && old(head) == expected
      ensures head == if ok then desired else old(head)
      ensures current == old(head)
    {
      current := head;
      ok := !spurious && head == expected;
      if ok {
        head := desired;
      }
    }

    /** The owner takes the first task; `idx` is where to read it. */
    method SwapPop(expected: nat, spurious: bool, ghost steal0: nat, ghost head0: nat)
      returns (ok: bool, current: nat, idx: nat)
      requires Valid() && Loaded(ring, steal0, head0) && expected == Pack(Word(steal0), Word(head0))
      requires ring.Tail() < steal0 + W32 && head0 < ring.Tail()
      modifies this
      ensures Valid()
      ensures ok <==> !spurious && old(ring.steal) == steal0 && old(ring.head) == head0
      ensures ring == if ok then TakeOne(old(ring)) else old(ring)
      ensures ok ==> idx == Slot(head0)
      ensures !ok ==> current == head
    {
      hide Pack, Unpack, Word, Slot;
      UnpackPack(Word(steal0), Word(head0));
      HeadMatches(ring, steal0, head0);
      var (steal, realHead) := Unpack(expected);
      var nextRealHead := Add32(realHead, 1);
      Add32IsSum(head0, 1);
      var next := if steal == realHead then Pack(nextRealHead, nextRealHead) else Pack(steal, nextRealHead);
      ok, current := CompareExchange(expected, next, spurious);
      idx := Slot(realHead);
      SlotOfWord(head0);
      if ok {
        TakeOneKeeps(ring);
        ring := TakeOne(ring);
      }
    }

    /** A thief claims the first `n` tasks. */
    method SwapClaim(expected: nat, n: nat, spurious: bool, ghost thief: nat, ghost steal0: nat, ghost head0: nat)
      returns (ok: bool, current: nat)
      requires Valid() && Loaded(ring, steal0, head0) && expected == Pack(Word(steal0), Word(head0))
      requires ring.Tail() < steal0 + W32 && steal0 == head0 && 0 < n && head0 + n <= ring.Tail()
      modifies this
      ensures Valid()
      ensures ok <==> !spurious && old(ring.steal) == steal0 && old(ring.head) == head0
      ensures ring == if ok then Claim(old(ring), n, thief) else old(ring)
      ensures !ok ==> current == head
    {
      hide Pack, Unpack, Word, Slot;
      UnpackPack(Word(steal0), Word(head0));
      HeadMatches(ring, steal0, head0);
      var (steal, realHead) := Unpack(expected);
      Add32IsSum(head0, n);
      ok, current := CompareExchange(expected, Pack(steal, Add32(realHead, n)), spurious);
      if ok {
        ClaimKeeps(ring, n, thief);
        ring := Claim(ring, n, thief);
      }
    }

    /** A thief gives its claimed slots back. */
    method SwapRelease(expected: nat, spurious: bool, ghost steal0: nat, ghost head0: nat)
      returns (ok: bool, current: nat)
      requires Valid() && Loaded(ring, steal0, head0) && expected == Pack(Word(steal0), Word(head0))
      requires ring.Tail() < steal0 + W32
      modifies this
      ensures Valid()
      ensures ok <==> !spurious && old(ring.steal) == steal0 && old(ring.head) == head0
      ensures ring == if ok then Release(old(ring)) else old(ring)
      ensures !ok ==> current == head
    {
      hide Pack, Unpack, Word, Slot;
      UnpackPack(Word(steal0), Word(head0));
      HeadMatches(ring, steal0, head0);
      var (_, realHead) := Unpack(expected);
      ok, current := CompareExchange(expected, Pack(realHead, realHead), spurious);
      if ok {
        ReleaseKeeps(ring);
        ring := Release(ring);
      }
    }

    /** The owner takes half of a full ring. */
    method SwapHalf(realHead: nat, spurious: bool, ghost head0: nat) returns (ok: bool)
      requires Valid() && Loaded(ring, head0, head0) && realHead == Word(head0) && ring.Tail() == head0 + CAPACITY
      modifies this
      ensures Valid()
      ensures ok <==> !spurious && old(ring.steal) == head0 && old(ring.head) == head0
      ensures ring == if ok then TakeHalf(old(ring)) else old(ring)
    {
      hide Pack, Unpack, Word, Slot;
      HeadMatches(ring, head0, head0);
      var next := Add32(realHead, CAPACITY / 2);
      Add32IsSum(head0, CAPACITY / 2);
      var current;
      ok, current := CompareExchange(Pack(realHead, realHead), Pack(next, next), spurious);
      if ok {
        TakeHalfKeeps(ring);
        ring := TakeHalf(ring);
      }
    }

    /** The owner writes the slot of a number beyond its tail. */
    method WriteSlot(number: nat, task: Task, ghost number0: nat)
      requires Valid() && number == Word(number0) && ring.Tail() <= number0 < ring.steal + CAPACITY
      modifies this`ring, buffer
      ensures Valid() && ring == Write(old(ring), number0, task)
    {
      hide Pack, Unpack, Word;
      SlotOfWord(number0);
      WriteKeeps(ring, number0, task);
      buffer[Slot(number)] := task;
      ring := Write(ring, number0, task);
    }

    /** The owner stores a new tail: the tasks it wrote become visible. */
    method StoreTail(newTail: nat, ghost tasks: seq<Task>)
      requires Valid() && newTail == Word(ring.Tail() + |tasks|)
      requires Room(ring, |tasks|) && Written(ring, tasks, |tasks|)
      modifies this`tail, this`ring
      ensures Valid() && ring == Publish(old(ring), tasks)
    {
      PublishKeeps(ring, tasks);
      tail := newTail;
      ring := Publish(ring, tasks);
    }

    // ----- whole operations, when no other thread interferes
    // `failures` is how many compare-exchanges fail spuriously before one succeeds.

    method Pop(failures: nat) returns (r: Option<Task>)
      requires Valid()
      modifies this
      ensures Valid()
      ensures old(ring.Content()) == [] ==> r == None && ring == old(ring)
      ensures old(ring.Content()) != [] ==>
        && r == Some(old(ring.Content())[0]) && ring.Content() == old(ring.Content())[1..]
        && ring.head == old(ring.head) + 1
        && ring.steal == if old(ring.steal == ring.head) then ring.head else old(ring.steal)
    {
      hide Pack, Unpack, Word, Slot;
      var expected, left := head, failures;
      while true
        invariant Valid() && ring == old(ring) && expected == head
        decreases left
      {
        UnpackPack(Word(ring.steal), Word(ring.head));
        WordsEqual(ring.head, ring.Tail());
        var (_, realHead) := Unpack(expected);
        if realHead == tail {
          return None;
        }
        var ok, current, idx := SwapPop(expected, left > 0, ring.steal, ring.head);
        if ok {
          TakeOneKeeps(old(ring));
          assert old(ring.buffer)[Slot(old(ring.head))] == old(ring.log)[old(ring.head)];
          return Some(buffer[idx]);
        }
        expected, left := current, left - 1;
      }
    }

    /** Append to the ring, or move its first half with the task to the global queue if
        it is full, or only the task if it is full because a thief is at work. */
    method PushBackOrOverflow(task: Task, global: GlobalQueue, failures: nat)
      requires Valid() && global.Valid()
      modifies this, buffer, global
      ensures Valid() && global.Valid()
      ensures old(ring.Tail() < ring.steal + CAPACITY) ==>
        && ring.Content() == old(ring.Content()) + [task] && global.tasks == old(global.tasks)
        && ring.steal == old(ring.steal) && ring.head == old(ring.head)
      ensures old(ring.Tail() == ring.steal + CAPACITY && ring.steal != ring.head) ==>
        && ring == old(ring)
        && global.tasks == if global.isClosed then old(global.tasks) else old(global.tasks) + [task]
      ensures old(ring.Tail() == ring.steal + CAPACITY && ring.steal == ring.head) ==>
        && old(ring.Content()) == old(ring.Content())[..CAPACITY / 2] + ring.Content()
        && ring.steal == ring.head == old(ring.head) + CAPACITY / 2
        && global.tasks == if global.isClosed then old(global.tasks)
                           else old(global.tasks) + (old(ring.Content())[..CAPACITY / 2] + [task])
    {
      hide Pack, Unpack, Word, Slot, Sub32;
      var left := failures;
      while true
        invariant Valid() && global.Valid() && ring == old(ring) && global.tasks == old(global.tasks)
        decreases left
      {
        UnpackPack(Word(ring.steal), Word(ring.head));
        Sub32IsDifference(ring.Tail(), ring.steal);
        WordsEqual(ring.steal, ring.head);
        var (steal, realHead) := Unpack(head);
        if Sub32(tail, steal) < CAPACITY {
          break;
        } else if steal != realHead {
          global.Push(task);
          return;
        } else {
          var done := PushOverflow(task, realHead, global, left > 0);
          if done {
            return;
          }
          left := left - 1;
        }
      }
      WriteSlot(tail, task, ring.Tail());
      Add32IsSum(ring.Tail(), 1);
      PublishContent(old(ring), [task]);
      StoreTail(Add32(tail, 1), [task]);
    }

    method PushOverflow(task: Task, realHead: nat, global: GlobalQueue, spurious: bool) returns (done: bool)
      requires Valid() && global.Valid()
      requires ring.steal == ring.head && ring.Tail() == ring.head + CAPACITY && realHead == Word(ring.head)
      modifies this, global
      ensures Valid() && global.Valid() && global.isClosed == old(global.isClosed)
      ensures done <==> !spurious
      ensures !done ==> ring == old(ring) && global.tasks == old(global.tasks)
      ensures done ==>
        && ring == TakeHalf(old(ring))
        && global.tasks == if global.isClosed then old(global.tasks)
                           else old(global.tasks) + (old(ring.Content())[..CAPACITY / 2] + [task])
    {
      hide Pack, Unpack, Word, Slot, Sub32;
      ghost var first := ring.head;
      done := SwapHalf(realHead, spurious, first);
      if !done {
        return false;
      }
      var tasks: seq<Task> := [];
      for i := 0 to CAPACITY / 2
        invariant |tasks| == i
        invariant forall k :: 0 <= k < i ==> tasks[k] == old(ring.log)[first + k]
        invariant Valid() && ring == TakeHalf(old(ring)) && global.Valid()
        invariant global.tasks == old(global.tasks) && global.isClosed == old(global.isClosed)
        invariant buffer[..] == old(buffer[..])
      {
        Add32IsSum(first, i);
        SlotOfWord(first + i);
        assert old(ring.buffer)[Slot(first + i)] == old(ring.log)[first + i];
        tasks := tasks + [buffer[Slot(Add32(realHead, i))]];
      }
      assert tasks == old(ring.Content())[..CAPACITY / 2];
      global.PushBatch(tasks + [task], CAPACITY / 2 + 1);
    }

    /** Append a batch; refused, with nothing written, if it does not fit. */
    method PushBatch(tasks: seq<Task>) returns (ok: bool)
      requires Valid() && 0 < |tasks| <= CAPACITY
      modifies this, buffer
      ensures Valid()
      ensures ok <==> old(ring.Tail()) + |tasks| <= old(ring.steal) + CAPACITY
      ensures ok ==> ring.Content() == old(ring.Content()) + tasks
      ensures ring.steal == old(ring.steal) && ring.head == old(ring.head)
      ensures !ok ==> ring == old(ring)
    {
      hide Pack, Unpack, Word, Slot, Sub32;
      UnpackPack(Word(ring.steal), Word(ring.head));
      Sub32IsDifference(ring.Tail(), ring.steal);
      var (steal, _) := Unpack(head);
      if Sub32(tail, steal) > CAPACITY - |tasks| {
        return false;
      }
      var next := tail;
      for i := 0 to |tasks|
        invariant Valid() && next == Word(ring.Tail() + i) && Written(ring, tasks, i)
        invariant ring.steal == old(ring.steal) && ring.head == old(ring.head) && ring.log == old(ring.log)
      {
        WriteExtends(ring, tasks, i);
        WriteSlot(next, tasks[i], ring.Tail() + i);
        Add32IsSum(ring.Tail() + i, 1);
        next := Add32(next, 1);
      }
      PublishContent(ring, tasks);
      StoreTail(next, tasks);
      return true;
    }

    /** How many tasks a thief moves: none from an empty queue or while another thief is
        at work, else the larger half of what is waiting. */
    ghost function Haul(): (n: nat)
      requires Valid()
      reads this, buffer
      ensures n <= CAPACITY / 2 && n <= |ring.Content()|
    {
      if ring.steal != ring.head then 0 else |ring.Content()| - |ring.Content()| / 2
    }

    /** The first loop of a steal: claim the larger half. */
    method ClaimHalf(failures: nat) returns (n: nat)
      requires Valid()
      modifies this
      ensures Valid() && n == old(Haul())
      ensures ring == if n == 0 then old(ring) else Claim(old(ring), n, 0)
    {
      hide Pack, Unpack, Word, Slot, Sub32;
      var expected, left := head, failures;
      while true
        invariant Valid() && ring == old(ring) && expected == head
        decreases left
      {
        UnpackPack(Word(ring.steal), Word(ring.head));
        WordsEqual(ring.steal, ring.head);
        Sub32IsDifference(ring.Tail(), ring.head);
        var (steal, realHead) := Unpack(expected);
        if steal != realHead {
          return 0;
        }
        n := Sub32(tail, realHead);
        n := n - n / 2;
        if n == 0 {
          return 0;
        }
        var ok, current := SwapClaim(expected, n, left > 0, 0, ring.steal, ring.head);
        if ok {
          return n;
        }
        expected, left := current, left - 1;
      }
    }

    /** The copying loop of a steal. */
    method CopyHaul(dst: LocalQueue, firstWord: nat, dstTail: nat, n: nat, ghost haul: seq<Task>)
      requires Valid() && dst.Valid() && this != dst && buffer != dst.buffer
      requires firstWord == Word(ring.steal) && dstTail == dst.tail
      requires n == |haul| <= CAPACITY / 2 && Room(dst.ring, n)
      requires ring.steal + n <= ring.Tail() && haul == ring.log[ring.steal..ring.steal + n]
      modifies dst`ring, dst.buffer
      ensures Valid() && dst.Valid() && Written(dst.ring, haul, n)
      ensures dst.ring.steal == old(dst.ring.steal) && dst.ring.head == old(dst.ring.head)
      ensures dst.ring.log == old(dst.ring.log)
    {
      hide Pack, Unpack, Word, Slot, Sub32, QueueInv;
      for i := 0 to n
        invariant Valid() && dst.Valid() && Written(dst.ring, haul, i)
        invariant dst.ring.steal == old(dst.ring.steal) && dst.ring.head == old(dst.ring.head)
        invariant dst.ring.log == old(dst.ring.log)
      {
        Add32IsSum(ring.steal, i);
        Add32IsSum(dst.ring.Tail(), i);
        SlotOfWord(ring.steal + i);
        InItsSlot(ring, ring.steal + i);
        WriteExtends(dst.ring, haul, i);
        dst.WriteSlot(Add32(dstTail, i), buffer[Slot(Add32(firstWord, i))], dst.ring.Tail() + i);
      }
    }

    /** The last loop of a steal: give the claimed slots back. */
    method ReleaseAll(failures: nat)
      requires Valid()
      modifies this
      ensures Valid() && ring == Release(old(ring))
    {
      hide Pack, Unpack, Word, Slot, Sub32;
      var expected, left := head, failures;
      while true
        invariant Valid() && ring == old(ring) && head == expected
        decreases left
      {
        var ok, current := SwapRelease(expected, left > 0, ring.steal, ring.head);
        if ok {
          return;
        }
        expected, left := current, left - 1;
      }
    }

    /** Claim, copy beyond the tail of `dst`, release. */
    method StealInto2(dst: LocalQueue, dstTail: nat, claimFailures: nat, releaseFailures: nat) returns (n: nat)
      requires Valid() && dst.Valid() && this != dst && buffer != dst.buffer
      requires dstTail == dst.tail && Room(dst.ring, CAPACITY / 2)
      modifies this, dst`ring, dst.buffer
      ensures Valid() && dst.Valid() && n == old(Haul())
      ensures ring == if n == 0 then old(ring) else Release(Claim(old(ring), n, 0))
      ensures ring.Content() == old(ring.Content())[n..]
      ensures Written(dst.ring, old(ring.Content())[..n], n)
      ensures dst.ring.steal == old(dst.ring.steal) && dst.ring.head == old(dst.ring.head)
      ensures dst.ring.log == old(dst.ring.log)
    {
      hide Pack, Unpack, Word, Slot, Sub32, Intact;
      n := ClaimHalf(claimFailures);
      if n == 0 {
        return 0;
      }
      ghost var haul := old(ring.Content())[..n];
      UnpackPack(Word(ring.steal), Word(ring.head));
      var (firstWord, _) := Unpack(head);
      CopyHaul(dst, firstWord, dstTail, n, haul);
      ReleaseAll(releaseFailures);
    }

    /** Move the larger half of the waiting tasks to `dst`, unless that is more than half
        full, and hand out the last of them. */
    method StealInto(dst: LocalQueue, claimFailures: nat, releaseFailures: nat) returns (r: Option<Task>)
      requires Valid() && dst.Valid() && this != dst && buffer != dst.buffer
      modifies this, dst, dst.buffer
      ensures Valid() && dst.Valid()
      ensures var n := if old(Room(dst.ring, CAPACITY / 2)) then old(Haul()) else 0;
        && ring.Content() == old(ring.Content())[n..]
        && ring.head == old(ring.head) + n && ring.steal == (if n == 0 then old(ring.steal) else ring.head)
        && dst.ring.steal == old(dst.ring.steal) && dst.ring.head == old(dst.ring.head)
        && dst.ring.Content() == old(dst.ring.Content()) + old(ring.Content())[..if n == 0 then 0 else n - 1]
        && r == if n == 0 then None else Some(old(ring.Content())[n - 1])
    {
      hide Pack, Unpack, Word, Slot, Sub32, Intact;
      UnpackPack(Word(dst.ring.steal), Word(dst.ring.head));
      Sub32IsDifference(dst.ring.Tail(), dst.ring.steal);
      var (steal, _) := Unpack(dst.head);
      var dstTail := dst.tail;
      if Sub32(dstTail, steal) > CAPACITY / 2 {
        return None;
      }
      var n := StealInto2(dst, dstTail, claimFailures, releaseFailures);
      if n == 0 {
        return None;
      }
      n := n - 1;
      ghost var haul := old(ring.Content())[..n];
      Add32IsSum(dst.ring.Tail(), n);
      SlotOfWord(dst.ring.Tail() + n);
      var dstNewTail := Add32(dstTail, n);
      r := Some(dst.buffer[Slot(dstNewTail)]);
      PublishContent(dst.ring, haul);
      if n > 0 {
        dst.StoreTail(dstNewTail, haul);
      }
    }
  }

  /** Under the assumption on wrap-around, the packed words match exactly when the counters do. */
  lemma {:induction false} HeadMatches(ring: Queue, steal0: nat, head0: nat)
    requires QueueInv(ring) && Loaded(ring, steal0, head0) && ring.Tail() < steal0 + W32
    ensures Pack(Word(ring.steal), Word(ring.head)) == Pack(Word(steal0), Word(head0))
            <==> ring.steal == steal0 && ring.head == head0
  {
    hide Pack, Word, Slot;
    PackInjective(Word(ring.steal), Word(ring.head), Word(steal0), Word(head0));
    WordsEqual(steal0, ring.steal);
    WordsEqual(head0, ring.head);
  }
}

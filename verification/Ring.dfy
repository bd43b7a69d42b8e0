/** One local queue of the scheduler: a ring of 256 slots, a word that packs two
    counters, `steal` and `head` (the runtime calls it `real`), and a tail.

    The counters are kept here without wrap-around.  `log` holds every task ever
    published, so the tail is its length and the task with number `i` is `log[i]`;
    memory holds the counters modulo 2^32 and the task number `i` in slot `i % 256`.
    `thief` says which thread, if any, is between its claim and its release. */
module Ring {
  import opened Words
  import opened Wheel

  const CAPACITY: nat := 256

  type Task = nat

  datatype Queue = Queue(steal: nat, head: nat, log: seq<Task>, buffer: seq<Task>, thief: Option<nat>) {
    function Tail(): nat {
      |log|
    }

    /** The tasks waiting in the queue. */
    function Content(): seq<Task>
      requires head <= |log|
    {
      log[head..]
    }
  }

  /** A 32-bit counter as memory holds it, and 32-bit subtraction. */
  function Word(counter: nat): (w: nat)
    ensures w < W32
  {
    counter % W32
  }

  function Sub32(a: nat, b: nat): nat
    requires a < W32 && b < W32
  {
    (a + W32 - b) % W32
  }

  function Slot(number: nat): (i: nat)
    ensures i < CAPACITY
  {
    number % CAPACITY
  }

  /** Counters in order, at most a ring apart, and every published task that has not
      been released still in its slot. */
  ghost predicate QueueInv(q: Queue) {
    && |q.buffer| == CAPACITY
    && q.steal <= q.head <= q.Tail() <= q.steal + CAPACITY
    && (q.thief == None <==> q.steal == q.head)
    && Intact(q, q.steal, q.Tail())
  }

  /** The tasks numbered from `lo` to `hi` are in their slots. */
  ghost predicate Intact(q: Queue, lo: nat, hi: nat) {
    && |q.buffer| == CAPACITY
    && hi <= q.Tail()
    && forall i :: lo <= i < hi ==> q.buffer[Slot(i)] == q.log[i]
  }

  lemma InItsSlot(q: Queue, number: nat)
    requires QueueInv(q) && q.steal <= number < q.Tail()
    ensures q.buffer[Slot(number)] == q.log[number]
  {
  }

  // ----- the writes to shared memory

  /** The owner writes a slot beyond the tail. */
  function Write(q: Queue, number: nat, task: Task): Queue
    requires |q.buffer| == CAPACITY
  {
    q.(buffer := q.buffer[Slot(number) := task])
  }

  /** The owner stores the tail: the tasks it wrote become visible. */
  function Publish(q: Queue, tasks: seq<Task>): Queue {
    q.(log := q.log + tasks)
  }

  /** The owner takes the first task; `steal` follows unless a thief is at work. */
  function TakeOne(q: Queue): Queue {
    q.(head := q.head + 1, steal := if Word(q.steal) == Word(q.head) then q.head + 1 else q.steal)
  }

  /** The owner takes half of a full ring for the global queue. */
  function TakeHalf(q: Queue): Queue {
    q.(head := q.head + CAPACITY / 2, steal := q.head + CAPACITY / 2)
  }

  /** A thief claims the first `n` tasks. */
  function Claim(q: Queue, n: nat, thief: nat): Queue {
    q.(head := q.head + n, thief := Some(thief))
  }

  /** A thief gives the claimed slots back to the owner. */
  function Release(q: Queue): Queue {
    q.(steal := q.head, thief := None)
  }

  // ----- word arithmetic agrees with the counters

  lemma WordsEqual(a: nat, b: nat)
    requires a <= b < a + W32
    ensures Word(a) == Word(b) <==> a == b
  {
  }

  lemma Sub32IsDifference(a: nat, b: nat)
    requires b <= a < b + W32
    ensures Sub32(Word(a), Word(b)) == a - b
  {
  }

  /** The slot computed from a wrapped counter is the slot of the counter. */
  lemma SlotOfWord(number: nat)
    ensures Slot(Word(number)) == Slot(number)
  {
    var a, w := number / W32, number % W32;
    var b, r := w / CAPACITY, w % CAPACITY;
    var c := 0x100_0000 * a + b;
    assert number == CAPACITY * c + r;
    OneQuotient(number, c, r);
  }

  lemma OneQuotient(number: nat, c: nat, r: nat)
    requires number == CAPACITY * c + r && r < CAPACITY
    ensures number % CAPACITY == r
  {
  }

  lemma SlotsDiffer(a: nat, b: nat)
    requires a < b < a + CAPACITY
    ensures Slot(a) != Slot(b)
  {
  }

  // ----- the writes keep the invariant

  lemma {:induction false} WriteKeeps(q: Queue, number: nat, task: Task)
    requires QueueInv(q) && q.Tail() <= number < q.steal + CAPACITY
    ensures QueueInv(Write(q, number, task))
  {
    forall i | q.steal <= i < q.Tail()
      ensures Write(q, number, task).buffer[Slot(i)] == q.log[i]
    {
      SlotsDiffer(i, number);
    }
  }

  /** Writing slot `number` leaves the slots of all nearby numbers alone. */
  lemma WriteElsewhere(q: Queue, number: nat, task: Task, other: nat)
    requires |q.buffer| == CAPACITY
    requires number < other < number + CAPACITY || other < number < other + CAPACITY
    ensures Write(q, number, task).buffer[Slot(other)] == q.buffer[Slot(other)]
  {
    if number < other {
      SlotsDiffer(number, other);
    } else {
      SlotsDiffer(other, number);
    }
  }

  lemma {:induction false} PublishKeeps(q: Queue, tasks: seq<Task>)
    requires QueueInv(q) && q.Tail() + |tasks| <= q.steal + CAPACITY
    requires forall k :: 0 <= k < |tasks| ==> q.buffer[Slot(q.Tail() + k)] == tasks[k]
    ensures QueueInv(Publish(q, tasks))
  {
    var p := Publish(q, tasks);
    forall i | p.steal <= i < p.Tail()
      ensures p.buffer[Slot(i)] == p.log[i]
    {
      if i >= q.Tail() {
        assert p.log[i] == tasks[i - q.Tail()];
      }
    }
  }

  lemma {:induction false} PublishContent(q: Queue, tasks: seq<Task>)
    requires QueueInv(q)
    ensures Publish(q, tasks).Content() == q.Content() + tasks
  {
    assert (q.log + tasks)[q.head..] == q.log[q.head..] + tasks;
  }

  lemma {:induction false} TakeOneKeeps(q: Queue)
    requires QueueInv(q) && q.head < q.Tail()
    ensures QueueInv(TakeOne(q))
    ensures q.Content() == [q.log[q.head]] + TakeOne(q).Content()
  {
    WordsEqual(q.steal, q.head);
  }

  lemma {:induction false} TakeHalfKeeps(q: Queue)
    requires QueueInv(q) && q.steal == q.head && q.Tail() == q.head + CAPACITY
    ensures QueueInv(TakeHalf(q))
    ensures q.Content() == q.log[q.head..q.head + CAPACITY / 2] + TakeHalf(q).Content()
  {
  }

  lemma {:induction false} ClaimKeeps(q: Queue, n: nat, thief: nat)
    requires QueueInv(q) && q.thief == None && 0 < n && q.head + n <= q.Tail()
    ensures QueueInv(Claim(q, n, thief))
    ensures q.Content() == q.log[q.head..q.head + n] + Claim(q, n, thief).Content()
  {
  }

  lemma {:induction false} ReleaseKeeps(q: Queue)
    requires QueueInv(q)
    ensures QueueInv(Release(q))
    ensures Release(q).Content() == q.Content()
  {
  }
}

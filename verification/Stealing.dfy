/** The work-stealing protocol: every worker owns a local queue, pushes to it,
    pops from it, moves half of it to the global queue when it is full, refills
    it from the global queue, and steals from the queues of others.

    Each atomic access to shared memory is a step of its own, in any
    interleaving, and a compare-exchange may fail spuriously.  The decisions are
    taken on 32-bit words, as the code takes them.  Registers record the counters
    a thread loaded, whose words are what the code holds. */
module Stealing {
  import opened Bags
  import opened Words
  import opened Wheel
  import opened Ring

  /** Where a thread is in its current operation, with its registers. */
  datatype Pc =
    | Idle
    // push_back_or_overflow
    | PushHead(task: Task)
    | PushTail(task: Task, steal: nat, head: nat)
    | PushWrite(task: Task)
    | PushPublish(task: Task)
    | PushGlobal(task: Task)
    | OverflowSwap(task: Task, head: nat)
    | OverflowCopy(task: Task, head: nat, copied: seq<Task>)
    | OverflowFlush(batch: seq<Task>)
    // pop
    | PopHead
    | PopTail(steal: nat, head: nat)
    | PopSwap(steal: nat, head: nat)
    | PopRead(number: nat)
    // refill from the global queue: remaining_slots, pop_n, push_batch
    | RoomHead
    | RoomTail(steal: nat)
    | Refill(room: nat)
    | BatchHead(tasks: seq<Task>)
    | BatchTail(tasks: seq<Task>, steal: nat)
    | BatchWrite(tasks: seq<Task>, written: nat)
    | Overflowed
    // steal_into, steal_into2
    | StealOwnHead(src: nat)
    | StealOwnTail(src: nat, steal: nat)
    | StealHead(src: nat)
    | StealTail(src: nat, steal: nat, head: nat)
    | StealClaim(src: nat, steal: nat, head: nat, n: nat)
    | StealCopy(src: nat, first: nat, n: nat, moved: nat)
    | StealRelease(src: nat, steal: nat, head: nat, n: nat)
    | StealTake(n: nat)
    | StealPublish

  /** A thread, and the tasks it has taken out of one place and not yet put in another. */
  datatype Thread = Thread(pc: Pc, held: seq<Task>)

  /** The global queue, and what came into and went out of the scheduler.  A push after
      the close is dropped by the code; `dropped` records it. */
  datatype World = World(global: seq<Task>, closed: bool,
                         submitted: multiset<Task>, delivered: multiset<Task>, dropped: multiset<Task>)

  datatype State = State(queues: seq<Queue>, threads: seq<Thread>, world: World)

  /** What a thread may choose: which operation to start, and which of the outcomes open to it. */
  datatype Choice =
    | Go
    | Spurious
    | Push(task: Task)
    | Pop
    | PullOne
    | Pull
    | Amount(want: nat)
    | Steal(src: nat)

  /** The effect of one step: on the thread, on one queue, and on the world. */
  datatype Change = Change(queue: nat, q: Queue, th: Thread, world: World)

  // ----- the global queue, under its mutex

  function PushAll(w: World, tasks: seq<Task>): World {
    if w.closed then w.(dropped := w.dropped + multiset(tasks))
    else w.(global := w.global + tasks)
  }

  function Deliver(w: World, task: Task): World {
    w.(delivered := w.delivered + multiset{task})
  }

  function Min(a: nat, b: nat): nat {
    if a < b then a else b
  }

  // ----- the steps

  /** A compare-exchange on the packed head succeeds when both words match, unless it fails spuriously. */
  predicate Swaps(q: Queue, steal: nat, head: nat, c: Choice) {
    c != Spurious && Word(q.steal) == Word(steal) && Word(q.head) == Word(head)
  }

  /** The first `n` waiting tasks of a queue. */
  function First(q: Queue, n: nat): seq<Task> {
    if q.head + n <= q.Tail() then q.log[q.head..q.head + n] else []
  }

  function StartStep(s: State, t: nat, c: Choice): Change
    requires Shaped(s) && t < |s.threads|
  {
    var q, w := s.queues[t], s.world;
    match c
    case Push(task) => Change(t, q, Thread(PushHead(task), [task]), w.(submitted := w.submitted + multiset{task}))
    case Pop => Change(t, q, Thread(PopHead, []), w)
    case PullOne =>
      if w.global == [] then Change(t, q, Thread(Idle, []), w)
      else Change(t, q, Thread(Idle, []), Deliver(w.(global := w.global[1..]), w.global[0]))
    case Pull => Change(t, q, Thread(RoomHead, []), w)
    case Steal(src) =>
      if src < |s.threads| && src != t then Change(t, q, Thread(StealOwnHead(src), []), w)
      else Change(t, q, Thread(Idle, []), w)
    case _ => Change(t, q, Thread(Idle, []), w)
  }

  function PushStep(q: Queue, th: Thread, w: World, t: nat, c: Choice): Change
    requires |q.buffer| == CAPACITY
  {
    match th.pc
    case PushHead(task) => Change(t, q, th.(pc := PushTail(task, q.steal, q.head)), w)
    case PushTail(task, steal, head) =>
      if Sub32(Word(q.Tail()), Word(steal)) < CAPACITY then Change(t, q, th.(pc := PushWrite(task)), w)
      else if Word(steal) != Word(head) then Change(t, q, th.(pc := PushGlobal(task)), w)
      else Change(t, q, th.(pc := OverflowSwap(task, head)), w)
    case PushWrite(task) => Change(t, Write(q, q.Tail(), task), th.(pc := PushPublish(task)), w)
    case PushPublish(task) => Change(t, Publish(q, [task]), Thread(Idle, []), w)
    case PushGlobal(task) => Change(t, q, Thread(Idle, []), PushAll(w, [task]))
    case OverflowSwap(task, head) =>
      if Swaps(q, head, head, c) then
        Change(t, TakeHalf(q), Thread(OverflowCopy(task, head, []), First(q, CAPACITY / 2) + [task]), w)
      else Change(t, q, th.(pc := PushHead(task)), w)
    case OverflowCopy(task, head, copied) =>
      if |copied| < CAPACITY / 2 then
        Change(t, q, th.(pc := OverflowCopy(task, head, copied + [q.buffer[Slot(head + |copied|)]])), w)
      else Change(t, q, th.(pc := OverflowFlush(copied + [task])), w)
    case OverflowFlush(batch) => Change(t, q, Thread(Idle, []), PushAll(w, batch))
    case _ => Change(t, q, th, w)
  }

  function PopStep(q: Queue, th: Thread, w: World, t: nat, c: Choice): Change
    requires |q.buffer| == CAPACITY
  {
    match th.pc
    case PopHead => Change(t, q, th.(pc := PopTail(q.steal, q.head)), w)
    case PopTail(steal, head) =>
      if Word(head) == Word(q.Tail()) then Change(t, q, Thread(Idle, []), w)
      else Change(t, q, th.(pc := PopSwap(steal, head)), w)
    case PopSwap(steal, head) =>
      if Swaps(q, steal, head, c) then Change(t, TakeOne(q), Thread(PopRead(head), First(q, 1)), w)
      else Change(t, q, th.(pc := PopTail(q.steal, q.head)), w)
    case PopRead(number) => Change(t, q, Thread(Idle, []), Deliver(w, q.buffer[Slot(number)]))
    case _ => Change(t, q, th, w)
  }

  function RefillStep(q: Queue, th: Thread, w: World, t: nat, c: Choice): Change
    requires |q.buffer| == CAPACITY
  {
    match th.pc
    case RoomHead => Change(t, q, th.(pc := RoomTail(q.steal)), w)
    case RoomTail(steal) =>
      var used := Sub32(Word(q.Tail()), Word(steal));
      var room := if used <= CAPACITY then Min(CAPACITY - used, CAPACITY / 2) else 0;
      if room == 0 then
        // all of the ring is being stolen: take a single task
        (if w.global == [] then Change(t, q, Thread(Idle, []), w)
         else Change(t, q, Thread(Idle, []), Deliver(w.(global := w.global[1..]), w.global[0])))
      else Change(t, q, th.(pc := Refill(room)), w)
    case Refill(room) =>
      // the amount asked for is at least one and at most the room, whatever the sizes it is computed from
      var want := if c.Amount? && 0 < c.want <= room then c.want else room;
      var n := Min(|w.global|, want);
      if n == 0 then Change(t, q, Thread(Idle, []), w)
      else
        var w' := Deliver(w.(global := w.global[n..]), w.global[0]);
        if n == 1 then Change(t, q, Thread(Idle, []), w')
        else Change(t, q, Thread(BatchHead(w.global[1..n]), w.global[1..n]), w')
    case BatchHead(tasks) => Change(t, q, th.(pc := BatchTail(tasks, q.steal)), w)
    case BatchTail(tasks, steal) =>
      if |tasks| > CAPACITY || Sub32(Word(q.Tail()), Word(steal)) > CAPACITY - |tasks| then
        Change(t, q, th.(pc := Overflowed), w)
      else Change(t, q, th.(pc := BatchWrite(tasks, 0)), w)
    case BatchWrite(tasks, written) =>
      if written < |tasks| then
        Change(t, Write(q, q.Tail() + written, tasks[written]), th.(pc := BatchWrite(tasks, written + 1)), w)
      else Change(t, Publish(q, tasks), Thread(Idle, []), w)
    case _ => Change(t, q, th, w)
  }

  /** The steps of a thief; `q` is its own queue, `v` the victim's, numbered `src`. */
  function StealStep(q: Queue, v: Queue, th: Thread, w: World, t: nat, src: nat, c: Choice): Change
    requires |q.buffer| == CAPACITY && |v.buffer| == CAPACITY
  {
    match th.pc
    case StealOwnHead(_) => Change(t, q, th.(pc := StealOwnTail(src, q.steal)), w)
    case StealOwnTail(_, steal) =>
      if Sub32(Word(q.Tail()), Word(steal)) > CAPACITY / 2 then Change(t, q, Thread(Idle, []), w)
      else Change(t, q, th.(pc := StealHead(src)), w)
    case StealHead(_) => Change(t, q, th.(pc := StealTail(src, v.steal, v.head)), w)
    case StealTail(_, steal, head) =>
      var size := Sub32(Word(v.Tail()), Word(head));
      var n := size - size / 2;
      if Word(steal) != Word(head) || n == 0 then Change(t, q, Thread(Idle, []), w)
      else Change(t, q, th.(pc := StealClaim(src, steal, head, n)), w)
    case StealClaim(_, steal, head, n) =>
      if Swaps(v, steal, head, c) then
        Change(src, Claim(v, n, t), Thread(StealCopy(src, steal, n, 0), First(v, n)), w)
      else Change(t, q, th.(pc := StealTail(src, v.steal, v.head)), w)
    case StealCopy(_, first, n, moved) =>
      if moved < n then
        Change(t, Write(q, q.Tail() + moved, v.buffer[Slot(first + moved)]),
               th.(pc := StealCopy(src, first, n, moved + 1)), w)
      else Change(t, q, th.(pc := StealRelease(src, first, first + n, n)), w)
    case StealRelease(_, steal, head, n) =>
      if Swaps(v, steal, head, c) then Change(src, Release(v), th.(pc := StealTake(n)), w)
      else Change(t, q, th.(pc := StealRelease(src, v.steal, v.head, n)), w)
    case StealTake(n) =>
      var rest := if |th.held| > 0 then th.held[..|th.held| - 1] else [];
      Change(t, q, Thread(if n > 1 then StealPublish else Idle, rest),
             Deliver(w, q.buffer[Slot(q.Tail() + (if n > 0 then n - 1 else 0))]))
    case StealPublish => Change(t, Publish(q, th.held), Thread(Idle, []), w)
    case _ => Change(t, q, th, w)
  }

  /** The queue a thread works on besides its own. */
  function Victim(pc: Pc, t: nat): nat {
    match pc
    case StealOwnHead(src) => src
    case StealOwnTail(src, _) => src
    case StealHead(src) => src
    case StealTail(src, _, _) => src
    case StealClaim(src, _, _, _) => src
    case StealCopy(src, _, _, _) => src
    case StealRelease(src, _, _, _) => src
    case _ => t
  }

  predicate Shaped(s: State) {
    && |s.queues| == |s.threads|
    && (forall x :: 0 <= x < |s.queues| ==> |s.queues[x].buffer| == CAPACITY)
    && (forall t :: 0 <= t < |s.threads| ==> Victim(s.threads[t].pc, t) < |s.queues|)
  }

  function Step(s: State, t: nat, c: Choice): Change
    requires Shaped(s) && t < |s.threads|
  {
    var q, th, w := s.queues[t], s.threads[t], s.world;
    var src := Victim(th.pc, t);
    match Kind(th.pc)
    case Starting => StartStep(s, t, c)
    case Pushing => PushStep(q, th, w, t, c)
    case Popping => PopStep(q, th, w, t, c)
    case Refilling => RefillStep(q, th, w, t, c)
    case Stealing => StealStep(q, s.queues[src], th, w, t, src, c)
  }

  datatype Operation = Starting | Pushing | Popping | Refilling | Stealing

  function Kind(pc: Pc): Operation {
    match pc
    case Idle => Starting
    case PushHead(_) => Pushing
    case PushTail(_, _, _) => Pushing
    case PushWrite(_) => Pushing
    case PushPublish(_) => Pushing
    case PushGlobal(_) => Pushing
    case OverflowSwap(_, _) => Pushing
    case OverflowCopy(_, _, _) => Pushing
    case OverflowFlush(_) => Pushing
    case PopHead => Popping
    case PopTail(_, _) => Popping
    case PopSwap(_, _) => Popping
    case PopRead(_) => Popping
    case RoomHead => Refilling
    case RoomTail(_) => Refilling
    case Refill(_) => Refilling
    case BatchHead(_) => Refilling
    case BatchTail(_, _) => Refilling
    case BatchWrite(_, _) => Refilling
    case Overflowed => Refilling
    case _ => Stealing
  }

  function Apply(s: State, t: nat, k: Change): State
    requires t < |s.threads| && k.queue < |s.queues|
  {
    State(s.queues[k.queue := k.q], s.threads[t := k.th], k.world)
  }

  /** A step of a worker, a submission from outside, or the close of the global queue. */
  datatype Event = Work(t: nat, c: Choice) | Submit(task: Task) | Close

  predicate Enabled(s: State, e: Event) {
    Shaped(s) && (e.Work? ==> e.t < |s.threads|)
  }

  function Next(s: State, e: Event): State
    requires Enabled(s, e)
  {
    match e
    case Work(t, c) => Apply(s, t, Step(s, t, c))
    case Submit(task) =>
      s.(world := PushAll(s.world.(submitted := s.world.submitted + multiset{task}), [task]))
    case Close => s.(world := s.world.(closed := true))
  }
}

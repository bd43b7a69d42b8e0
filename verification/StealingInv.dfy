/** What every step of the work-stealing protocol keeps: the state of each
    operation in terms of its queue, and the balance of tasks. */
module StealingInv {
  import opened Bags
  import opened Words
  import opened Wheel
  import opened Ring
  import opened Stealing

  /** Counters loaded earlier: consistent then, and not ahead of the queue now. */
  ghost predicate Loaded(q: Queue, steal: nat, head: nat) {
    steal <= q.steal && steal <= head <= q.head && head <= steal + CAPACITY
  }

  /** The tasks `tasks` are written beyond the tail, in room that nobody else uses. */
  ghost predicate Written(q: Queue, tasks: seq<Task>, n: nat) {
    && |q.buffer| == CAPACITY
    && n <= |tasks|
    && forall k :: 0 <= k < n ==> q.buffer[Slot(q.Tail() + k)] == tasks[k]
  }

  ghost predicate Room(q: Queue, n: nat) {
    q.Tail() + n <= q.steal + CAPACITY
  }

  ghost predicate PushInv(th: Thread, q: Queue) {
    match th.pc
    case PushHead(task) => th.held == [task]
    case PushTail(task, steal, head) =>
      th.held == [task] && Loaded(q, steal, head) && q.Tail() <= steal + CAPACITY
    case PushWrite(task) => th.held == [task] && Room(q, 1)
    case PushPublish(task) => th.held == [task] && Room(q, 1) && Written(q, [task], 1)
    case PushGlobal(task) => th.held == [task]
    case OverflowSwap(task, head) =>
      th.held == [task] && Loaded(q, head, head) && q.Tail() == head + CAPACITY
    case OverflowCopy(task, head, copied) =>
      && |copied| <= CAPACITY / 2
      && head + CAPACITY / 2 <= q.Tail()
      && Intact(q, head, head + CAPACITY / 2)
      && copied == q.log[head..head + |copied|]
      && th.held == q.log[head..head + CAPACITY / 2] + [task]
    case OverflowFlush(batch) => th.held == batch && |batch| == CAPACITY / 2 + 1
    case _ => th.held == []
  }

  ghost predicate PopInv(th: Thread, q: Queue) {
    match th.pc
    case PopTail(steal, head) => th.held == [] && Loaded(q, steal, head) && q.Tail() <= steal + CAPACITY
    case PopSwap(steal, head) =>
      th.held == [] && Loaded(q, steal, head) && q.Tail() <= steal + CAPACITY && head < q.Tail()
    case PopRead(number) =>
      number < q.Tail() && Intact(q, number, number + 1) && th.held == [q.log[number]]
    case _ => th.held == []
  }

  ghost predicate RefillInv(th: Thread, q: Queue) {
    match th.pc
    case RoomTail(steal) => th.held == [] && steal <= q.steal && steal <= q.Tail() <= steal + CAPACITY
    case Refill(room) => th.held == [] && 0 < room <= CAPACITY / 2 && Room(q, room)
    case BatchHead(tasks) => th.held == tasks && 0 < |tasks| <= CAPACITY && Room(q, |tasks|)
    case BatchTail(tasks, steal) =>
      && th.held == tasks && 0 < |tasks| <= CAPACITY
      && steal <= q.steal && steal <= q.Tail() && q.Tail() + |tasks| <= steal + CAPACITY
    case BatchWrite(tasks, written) => th.held == tasks && Room(q, |tasks|) && Written(q, tasks, written)
    case Overflowed => false
    case _ => th.held == []
  }

  /** A thief's own queue `q` and its victim's queue `v`. */
  ghost predicate StealInv(th: Thread, q: Queue, v: Queue, t: nat) {
    (Victim(th.pc, t) != t || th.pc.StealTake? || th.pc.StealPublish?) &&
    match th.pc
    case StealOwnTail(_, steal) =>
      th.held == [] && steal <= q.steal && steal <= q.Tail() <= steal + CAPACITY
    case StealHead(_) => th.held == [] && Room(q, CAPACITY / 2)
    case StealTail(_, steal, head) => th.held == [] && Room(q, CAPACITY / 2) && Loaded(v, steal, head)
    case StealClaim(_, steal, head, n) =>
      && th.held == [] && Room(q, CAPACITY / 2)
      && Loaded(v, steal, head) && steal == head
      && 0 < n && head + 2 * n <= v.Tail() + 1
    case StealCopy(_, first, n, moved) =>
      && 0 < n <= CAPACITY / 2 && Room(q, n) && |th.held| == n && Written(q, th.held, moved)
      && v.thief == Some(t) && v.steal == first && first + n <= v.head <= v.Tail()
      && th.held == v.log[first..first + n]
    case StealRelease(_, steal, head, n) =>
      && 0 < n <= CAPACITY / 2 && Room(q, n) && |th.held| == n && Written(q, th.held, n)
      && v.thief == Some(t) && Loaded(v, steal, head)
    case StealTake(n) => 0 < n <= CAPACITY / 2 && Room(q, n) && |th.held| == n && Written(q, th.held, n)
    case StealPublish => 0 < |th.held| && Room(q, |th.held|) && Written(q, th.held, |th.held|)
    case _ => th.held == []
  }

  /** The one assumption: a thief does not sleep through 2^32 pushes to its victim's
      queue between loading the victim's counters and swapping them. */
  ghost predicate NoFullWrap(pc: Pc, v: Queue) {
    match pc
    case StealTail(_, steal, _) => v.Tail() < steal + W32
    case StealClaim(_, steal, _, _) => v.Tail() < steal + W32
    case StealRelease(_, steal, _, _) => v.Tail() < steal + W32
    case _ => true
  }

  ghost predicate ThreadInv(th: Thread, q: Queue, v: Queue, t: nat) {
    match Kind(th.pc)
    case Starting => th.held == []
    case Pushing => PushInv(th, q)
    case Popping => PopInv(th, q)
    case Refilling => RefillInv(th, q)
    case Stealing => StealInv(th, q, v, t)
  }

  /** A thread is between its claim on queue `x` and its release. */
  predicate Stealer(pc: Pc, x: nat) {
    (pc.StealCopy? || pc.StealRelease?) && pc.src == x
  }

  /** How a step of thread `actor` may change queue `x`: the counters grow, only the owner
      touches the slots and the tail, and nobody interferes with another thread's claim. */
  ghost predicate Evolves(q: Queue, q': Queue, actor: nat, x: nat) {
    && q.steal <= q'.steal && q.head <= q'.head
    && q.log <= q'.log
    && (actor != x ==> q'.log == q.log && q'.buffer == q.buffer)
    && (forall u :: u != actor && q.thief == Some(u) ==> q'.thief == Some(u) && q'.steal == q.steal)
    && (forall u :: u != actor && q'.thief == Some(u) ==> q.thief == Some(u))
  }

  ghost function Outside(w: World): multiset<Task> {
    multiset(w.global) + w.delivered + w.dropped
  }

  ghost function Waiting(q: Queue): multiset<Task> {
    if q.head <= q.Tail() then multiset(q.Content()) else multiset{}
  }

  /** A step moves tasks between the queue, the thread and the world, and only a submission adds any. */
  ghost predicate Balanced(q: Queue, th: Thread, w: World, k: Change) {
    Waiting(k.q) + multiset(k.th.held) + Outside(k.world) + w.submitted
    == Waiting(q) + multiset(th.held) + Outside(w) + k.world.submitted
  }

  /** What a step must achieve for the thread that takes it and the queue it changes. */
  ghost predicate Good(q: Queue, th: Thread, w: World, t: nat, k: Change) {
    QueueInv(k.q) && Evolves(q, k.q, t, k.queue) && Balanced(q, th, w, k)
  }

  /** The outcome of a step on the thread's own queue. */
  ghost predicate Kept(q: Queue, th: Thread, w: World, t: nat, k: Change) {
    && k.queue == t && Good(q, th, w, t, k) && ThreadInv(k.th, k.q, k.q, t)
    && k.q.thief == q.thief && !k.th.pc.StealCopy? && !k.th.pc.StealRelease?
  }

  /** The outcome of a thief's step, which changes its own queue `q` or its victim's queue `v`. */
  ghost predicate StealKept(q: Queue, v: Queue, th: Thread, w: World, t: nat, src: nat, k: Change) {
    && (k.queue == t || k.queue == src)
    && (k.queue == t ==>
          Good(q, th, w, t, k) && ThreadInv(k.th, k.q, v, t) && k.q.thief == q.thief
          && (Stealer(k.th.pc, src) <==> Stealer(th.pc, src)))
    && (k.queue != t ==>
          Good(v, th, w, t, k) && ThreadInv(k.th, q, k.q, t)
          && (Stealer(k.th.pc, src) <==> k.q.thief == Some(t)))
    && (Victim(k.th.pc, t) == t || Victim(k.th.pc, t) == src)
    && forall x :: x != src ==> !Stealer(k.th.pc, x)
  }

  // ----- the ways a step is balanced

  /** Nothing moves. */
  lemma {:induction false} Quiet(q: Queue, th: Thread, w: World, t: nat, k: Change)
    requires QueueInv(q) && k.q == q && k.th.held == th.held && k.world == w
    ensures Good(q, th, w, t, k)
  {
    hide QueueInv, Waiting, Outside;
  }

  /** The owner writes beyond its tail. */
  lemma {:induction false} QuietWrite(q: Queue, number: nat, task: Task, th: Thread, w: World, t: nat, k: Change)
    requires QueueInv(q) && q.Tail() <= number < q.steal + CAPACITY
    requires k.q == Write(q, number, task) && k.queue == t && k.th.held == th.held && k.world == w
    ensures Good(q, th, w, t, k)
  {
    hide Outside;
    WriteKeeps(q, number, task);
    assert k.q.Content() == q.Content();
  }

  /** The thread hands what it holds to the world. */
  lemma {:induction false} HandOut(q: Queue, th: Thread, w: World, t: nat, k: Change)
    requires QueueInv(q) && k.q == q && k.world.submitted == w.submitted
    requires Outside(k.world) + multiset(k.th.held) == Outside(w) + multiset(th.held)
    ensures Good(q, th, w, t, k)
  {
    hide QueueInv, Waiting, Outside;
    assert Waiting(q) + multiset(k.th.held) + Outside(k.world) == Waiting(q) + (Outside(k.world) + multiset(k.th.held));
    assert Waiting(q) + multiset(th.held) + Outside(w) == Waiting(q) + (Outside(w) + multiset(th.held));
  }

  /** The thread publishes what it holds. */
  lemma {:induction false} PutIn(q: Queue, tasks: seq<Task>, th: Thread, w: World, t: nat, k: Change)
    requires QueueInv(q) && Room(q, |tasks|) && Written(q, tasks, |tasks|)
    requires k.q == Publish(q, tasks) && k.queue == t && th.held == tasks && k.th.held == [] && k.world == w
    ensures Good(q, th, w, t, k)
  {
    hide Slot, Outside;
    PublishKeeps(q, tasks);
    assert k.q.Content() == q.Content() + tasks;
    assert Waiting(k.q) == Waiting(q) + multiset(tasks);
  }

  /** The thread takes the first tasks out of the queue. */
  lemma {:induction false} TakeOut(q: Queue, taken: seq<Task>, th: Thread, w: World, t: nat, k: Change)
    requires QueueInv(q) && QueueInv(k.q) && Evolves(q, k.q, t, k.queue)
    requires q.Content() == taken + k.q.Content()
    requires k.th.held == taken + th.held && k.world == w
    ensures Good(q, th, w, t, k)
  {
    hide Evolves, Outside, Intact;
    assert Waiting(q) == multiset(taken) + Waiting(k.q);
  }

  lemma {:induction false} PushAllOutside(w: World, tasks: seq<Task>)
    ensures Outside(PushAll(w, tasks)) == Outside(w) + multiset(tasks)
    ensures PushAll(w, tasks).submitted == w.submitted
  {
  }

  lemma {:induction false} DeliverOutside(w: World, task: Task)
    ensures Outside(Deliver(w, task)) == Outside(w) + multiset{task}
    ensures Deliver(w, task).submitted == w.submitted
  {
  }

  // ----- push_back_or_overflow

  lemma {:induction false} PushKeeps(q: Queue, th: Thread, w: World, t: nat, c: Choice)
    requires QueueInv(q) && Kind(th.pc) == Pushing && PushInv(th, q)
    ensures Kept(q, th, w, t, PushStep(q, th, w, t, c))
  {
    hide Kept, PushStep, PushInv, QueueInv;
    match th.pc
    case PushHead(_) => PushHeadKeeps(q, th, w, t, c);
    case PushTail(_, _, _) => PushTailKeeps(q, th, w, t, c);
    case PushWrite(_) => PushWriteKeeps(q, th, w, t, c);
    case PushPublish(_) => PushPublishKeeps(q, th, w, t, c);
    case PushGlobal(_) => PushGlobalKeeps(q, th, w, t, c);
    case OverflowSwap(_, _) => OverflowSwapKeeps(q, th, w, t, c);
    case OverflowCopy(_, _, _) => OverflowCopyKeeps(q, th, w, t, c);
    case OverflowFlush(_) => OverflowFlushKeeps(q, th, w, t, c);
  }

  lemma {:induction false} PushHeadKeeps(q: Queue, th: Thread, w: World, t: nat, c: Choice)
    requires QueueInv(q) && th.pc.PushHead? && PushInv(th, q)
    ensures Kept(q, th, w, t, PushStep(q, th, w, t, c))
  {
    hide Good, Intact;
    Quiet(q, th, w, t, PushStep(q, th, w, t, c));
  }

  lemma {:induction false} PushTailKeeps(q: Queue, th: Thread, w: World, t: nat, c: Choice)
    requires QueueInv(q) && th.pc.PushTail? && PushInv(th, q)
    ensures Kept(q, th, w, t, PushStep(q, th, w, t, c))
  {
    hide Good, Intact, Word, Sub32;
    Quiet(q, th, w, t, PushStep(q, th, w, t, c));
    Sub32IsDifference(q.Tail(), th.pc.steal);
    WordsEqual(th.pc.steal, th.pc.head);
  }

  lemma {:induction false} PushWriteKeeps(q: Queue, th: Thread, w: World, t: nat, c: Choice)
    requires QueueInv(q) && th.pc.PushWrite? && PushInv(th, q)
    ensures Kept(q, th, w, t, PushStep(q, th, w, t, c))
  {
    hide Good, Intact, Slot;
    QuietWrite(q, q.Tail(), th.pc.task, th, w, t, PushStep(q, th, w, t, c));
  }

  lemma {:induction false} PushPublishKeeps(q: Queue, th: Thread, w: World, t: nat, c: Choice)
    requires QueueInv(q) && th.pc.PushPublish? && PushInv(th, q)
    ensures Kept(q, th, w, t, PushStep(q, th, w, t, c))
  {
    hide Good, Intact, Slot;
    PutIn(q, [th.pc.task], th, w, t, PushStep(q, th, w, t, c));
  }

  lemma {:induction false} PushGlobalKeeps(q: Queue, th: Thread, w: World, t: nat, c: Choice)
    requires QueueInv(q) && th.pc.PushGlobal? && PushInv(th, q)
    ensures Kept(q, th, w, t, PushStep(q, th, w, t, c))
  {
    hide Good, Intact, PushAll, Outside;
    PushAllOutside(w, [th.pc.task]);
    HandOut(q, th, w, t, PushStep(q, th, w, t, c));
  }

  lemma {:induction false} OverflowSwapKeeps(q: Queue, th: Thread, w: World, t: nat, c: Choice)
    requires QueueInv(q) && th.pc.OverflowSwap? && PushInv(th, q)
    ensures Kept(q, th, w, t, PushStep(q, th, w, t, c))
  {
    hide Good, Word, Slot;
    var k := PushStep(q, th, w, t, c);
    WordsEqual(th.pc.head, q.steal);
    WordsEqual(th.pc.head, q.head);
    if Swaps(q, th.pc.head, th.pc.head, c) {
      TakeHalfKeeps(q);
      TakeOut(q, First(q, CAPACITY / 2), th, w, t, k);
    } else {
      Quiet(q, th, w, t, k);
    }
  }

  lemma {:induction false} OverflowCopyKeeps(q: Queue, th: Thread, w: World, t: nat, c: Choice)
    requires QueueInv(q) && th.pc.OverflowCopy? && PushInv(th, q)
    ensures Kept(q, th, w, t, PushStep(q, th, w, t, c))
  {
    hide Good, Slot;
    Quiet(q, th, w, t, PushStep(q, th, w, t, c));
  }

  lemma {:induction false} OverflowFlushKeeps(q: Queue, th: Thread, w: World, t: nat, c: Choice)
    requires QueueInv(q) && th.pc.OverflowFlush? && PushInv(th, q)
    ensures Kept(q, th, w, t, PushStep(q, th, w, t, c))
  {
    hide Good, Intact, PushAll, Outside;
    PushAllOutside(w, th.pc.batch);
    HandOut(q, th, w, t, PushStep(q, th, w, t, c));
  }

  // ----- pop

  /** What each step of `pop` achieves: it ends empty-handed only if the queue is empty, and otherwise goes on to
      the swap; a swap that finds the counters it loaded, and does not fail spuriously, takes the first task; and the
      task that was taken is handed out. */
  ghost predicate PopGoesOn(q: Queue, th: Thread, w: World, c: Choice, k: Change)
    requires q.head <= q.Tail()
  {
    match th.pc
    case PopHead => k == Change(k.queue, q, Thread(PopTail(q.steal, q.head), th.held), w)
    case PopTail(steal, head) =>
      && k.q == q && k.world == w && k.th.held == []
      && if head < q.Tail() then k.th.pc == PopSwap(steal, head) else q.Content() == [] && k.th.pc == Idle
    case PopSwap(steal, head) =>
      && k.world == w
      && if c != Spurious && q.steal == steal && q.head == head then
           && k.q.head <= k.q.Tail() && q.Content() == k.th.held + k.q.Content() && |k.th.held| == 1
           && k.th.pc == PopRead(head)
         else k.q == q && k.th == Thread(PopTail(q.steal, q.head), [])
    case _ =>
      && k.q == q && k.th == Thread(Idle, []) && |th.held| == 1 && k.world == Deliver(w, th.held[0])
  }

  lemma {:induction false} PopKeeps(q: Queue, th: Thread, w: World, t: nat, c: Choice)
    requires QueueInv(q) && Kind(th.pc) == Popping && PopInv(th, q)
    ensures Kept(q, th, w, t, PopStep(q, th, w, t, c))
    ensures q.head <= q.Tail() && PopGoesOn(q, th, w, c, PopStep(q, th, w, t, c))
  {
    hide Kept, PopStep, PopInv, QueueInv, PopGoesOn;
    QueueBounds(q);
    PopAchieves(q, th, w, t, c);
    match th.pc
    case PopHead => PopHeadKeeps(q, th, w, t, c);
    case PopTail(_, _) => PopTailKeeps(q, th, w, t, c);
    case PopSwap(_, _) => PopSwapKeeps(q, th, w, t, c);
    case PopRead(_) => PopReadKeeps(q, th, w, t, c);
  }

  lemma {:induction false} PopAchieves(q: Queue, th: Thread, w: World, t: nat, c: Choice)
    requires QueueInv(q) && Kind(th.pc) == Popping && PopInv(th, q)
    ensures PopGoesOn(q, th, w, c, PopStep(q, th, w, t, c))
  {
    hide Word, Slot, QueueInv;
    QueueBounds(q);
    match th.pc
    case PopTail(steal, head) => WordsEqual(head, q.Tail());
    case PopSwap(steal, head) =>
      WordsEqual(steal, q.steal);
      WordsEqual(head, q.head);
      if c != Spurious && q.steal == steal && q.head == head {
        PopTaken(q, t);
      }
    case _ =>
  }

  lemma {:induction false} PopHeadKeeps(q: Queue, th: Thread, w: World, t: nat, c: Choice)
    requires QueueInv(q) && th.pc.PopHead? && PopInv(th, q)
    ensures Kept(q, th, w, t, PopStep(q, th, w, t, c))
  {
    hide Good, Intact;
    Quiet(q, th, w, t, PopStep(q, th, w, t, c));
  }

  lemma {:induction false} PopTailKeeps(q: Queue, th: Thread, w: World, t: nat, c: Choice)
    requires QueueInv(q) && th.pc.PopTail? && PopInv(th, q)
    ensures Kept(q, th, w, t, PopStep(q, th, w, t, c))
  {
    hide Good, Intact, Word;
    WordsEqual(th.pc.head, q.Tail());
    Quiet(q, th, w, t, PopStep(q, th, w, t, c));
  }

  lemma {:induction false} PopSwapKeeps(q: Queue, th: Thread, w: World, t: nat, c: Choice)
    requires QueueInv(q) && th.pc.PopSwap? && PopInv(th, q)
    ensures Kept(q, th, w, t, PopStep(q, th, w, t, c))
  {
    hide Good, Word, Slot, QueueInv;
    QueueBounds(q);
    var k := PopStep(q, th, w, t, c);
    WordsEqual(th.pc.steal, q.steal);
    if Swaps(q, th.pc.steal, th.pc.head, c) {
      WordsEqual(th.pc.head, q.head);
      PopTaken(q, t);
      TakeOut(q, First(q, 1), th, w, t, k);
    } else {
      Quiet(q, th, w, t, k);
    }
  }

  lemma QueueBounds(q: Queue)
    requires QueueInv(q)
    ensures q.steal <= q.head <= q.Tail() <= q.steal + CAPACITY && |q.buffer| == CAPACITY
  {
  }

  lemma {:induction false} PopTaken(q: Queue, t: nat)
    requires QueueInv(q) && q.head < q.Tail()
    ensures var q' := TakeOne(q);
      && QueueInv(q') && Evolves(q, q', t, t) && q'.thief == q.thief
      && q.Content() == First(q, 1) + q'.Content()
      && Intact(q', q.head, q.head + 1)
  {
    hide Word, Slot;
    WordsEqual(q.steal, q.head);
    TakeOneKeeps(q);
  }

  lemma {:induction false} PopReadKeeps(q: Queue, th: Thread, w: World, t: nat, c: Choice)
    requires QueueInv(q) && th.pc.PopRead? && PopInv(th, q)
    ensures Kept(q, th, w, t, PopStep(q, th, w, t, c))
  {
    hide Good, Deliver, Outside, Slot;
    DeliverOutside(w, q.buffer[Slot(th.pc.number)]);
    HandOut(q, th, w, t, PopStep(q, th, w, t, c));
  }

  // ----- refill from the global queue

  /** The front of the global queue is handed out, the next tasks go to the thread. */
  lemma {:induction false} PullBag(w: World, n: nat)
    requires 0 < n <= |w.global|
    ensures var w' := Deliver(w.(global := w.global[n..]), w.global[0]);
      Outside(w') + multiset(w.global[1..n]) == Outside(w) && w'.submitted == w.submitted
  {
    assert w.global == [w.global[0]] + w.global[1..n] + w.global[n..];
    assert multiset(w.global) == multiset{w.global[0]} + multiset(w.global[1..n]) + multiset(w.global[n..]);
  }

  /** `push_batch` refuses a batch exactly if it does not fit behind the tail, as seen from the loaded counter. */
  lemma {:induction false} BatchRefusedExactly(q: Queue, th: Thread, w: World, t: nat, c: Choice)
    requires QueueInv(q) && th.pc.BatchTail? && th.pc.steal <= q.Tail() < th.pc.steal + W32
    ensures RefillStep(q, th, w, t, c).th.pc == Overflowed <==>
            q.Tail() + |th.pc.tasks| > th.pc.steal + CAPACITY
  {
    hide Word, Slot;
    Sub32IsDifference(q.Tail(), th.pc.steal);
  }

  lemma {:induction false} RefillKeeps(q: Queue, th: Thread, w: World, t: nat, c: Choice)
    requires QueueInv(q) && Kind(th.pc) == Refilling && RefillInv(th, q)
    ensures Kept(q, th, w, t, RefillStep(q, th, w, t, c))
  {
    hide Kept, RefillStep, QueueInv;
    match th.pc
    case RoomHead => RoomHeadKeeps(q, th, w, t, c);
    case RoomTail(_) => RoomTailKeeps(q, th, w, t, c);
    case Refill(_) => RefillPullKeeps(q, th, w, t, c);
    case BatchHead(_) => BatchHeadKeeps(q, th, w, t, c);
    case BatchTail(_, _) => BatchTailKeeps(q, th, w, t, c);
    case BatchWrite(_, _) => BatchWriteKeeps(q, th, w, t, c);
  }

  lemma {:induction false} RoomHeadKeeps(q: Queue, th: Thread, w: World, t: nat, c: Choice)
    requires QueueInv(q) && th.pc.RoomHead? && RefillInv(th, q)
    ensures Kept(q, th, w, t, RefillStep(q, th, w, t, c))
  {
    hide Good, Intact;
    Quiet(q, th, w, t, RefillStep(q, th, w, t, c));
  }

  lemma {:induction false} RoomTailKeeps(q: Queue, th: Thread, w: World, t: nat, c: Choice)
    requires QueueInv(q) && th.pc.RoomTail? && RefillInv(th, q)
    ensures Kept(q, th, w, t, RefillStep(q, th, w, t, c))
  {
    hide Good, Intact, Word, Sub32, Outside, Deliver;
    var k := RefillStep(q, th, w, t, c);
    Sub32IsDifference(q.Tail(), th.pc.steal);
    if k.world == w {
      Quiet(q, th, w, t, k);
    } else {
      PullBag(w, 1);
      HandOut(q, th, w, t, k);
    }
  }

  lemma {:induction false} RefillPullKeeps(q: Queue, th: Thread, w: World, t: nat, c: Choice)
    requires QueueInv(q) && th.pc.Refill? && RefillInv(th, q)
    ensures Kept(q, th, w, t, RefillStep(q, th, w, t, c))
  {
    hide Good, Intact, Outside, Deliver;
    var k := RefillStep(q, th, w, t, c);
    var want := if c.Amount? && 0 < c.want <= th.pc.room then c.want else th.pc.room;
    var n := Min(|w.global|, want);
    if n == 0 {
      Quiet(q, th, w, t, k);
    } else {
      PullBag(w, n);
      HandOut(q, th, w, t, k);
    }
  }

  lemma {:induction false} BatchHeadKeeps(q: Queue, th: Thread, w: World, t: nat, c: Choice)
    requires QueueInv(q) && th.pc.BatchHead? && RefillInv(th, q)
    ensures Kept(q, th, w, t, RefillStep(q, th, w, t, c))
  {
    hide Good, Intact;
    Quiet(q, th, w, t, RefillStep(q, th, w, t, c));
  }

  lemma {:induction false} BatchTailKeeps(q: Queue, th: Thread, w: World, t: nat, c: Choice)
    requires QueueInv(q) && th.pc.BatchTail? && RefillInv(th, q)
    ensures Kept(q, th, w, t, RefillStep(q, th, w, t, c))
  {
    hide Good, Intact, Word, Sub32, Slot;
    Sub32IsDifference(q.Tail(), th.pc.steal);
    Quiet(q, th, w, t, RefillStep(q, th, w, t, c));
  }

  lemma {:induction false} BatchWriteKeeps(q: Queue, th: Thread, w: World, t: nat, c: Choice)
    requires QueueInv(q) && th.pc.BatchWrite? && RefillInv(th, q)
    ensures Kept(q, th, w, t, RefillStep(q, th, w, t, c))
  {
    hide Good, Intact, Slot;
    var k := RefillStep(q, th, w, t, c);
    var tasks, n := th.pc.tasks, th.pc.written;
    if n < |tasks| {
      QuietWrite(q, q.Tail() + n, tasks[n], th, w, t, k);
      WriteExtends(q, tasks, n);
    } else {
      PutIn(q, tasks, th, w, t, k);
    }
  }

  lemma {:induction false} WriteExtends(q: Queue, tasks: seq<Task>, n: nat)
    requires Written(q, tasks, n) && n < |tasks| <= CAPACITY
    ensures Written(Write(q, q.Tail() + n, tasks[n]), tasks, n + 1)
  {
    hide Slot;
    var q' := Write(q, q.Tail() + n, tasks[n]);
    forall k | 0 <= k < n
      ensures q'.buffer[Slot(q'.Tail() + k)] == tasks[k]
    {
      WriteElsewhere(q, q.Tail() + n, tasks[n], q.Tail() + k);
    }
  }

  // ----- steal_into

  lemma {:induction false} StealKeeps(q: Queue, v: Queue, th: Thread, w: World, t: nat, c: Choice)
    requires QueueInv(q) && QueueInv(v) && Kind(th.pc) == Stealing && StealInv(th, q, v, t) && NoFullWrap(th.pc, v)
    ensures StealKept(q, v, th, w, t, Victim(th.pc, t), StealStep(q, v, th, w, t, Victim(th.pc, t), c))
  {
    hide StealKept, StealStep, QueueInv, StealInv, NoFullWrap;
    match th.pc
    case StealOwnHead(_) => StealOwnKeeps(q, v, th, w, t, c);
    case StealOwnTail(_, _) => StealOwnKeeps(q, v, th, w, t, c);
    case StealHead(_) => StealHeadKeeps(q, v, th, w, t, c);
    case StealTail(_, _, _) => StealTailKeeps(q, v, th, w, t, c);
    case StealClaim(_, _, _, _) => StealClaimKeeps(q, v, th, w, t, c);
    case StealCopy(_, _, _, _) => StealCopyKeeps(q, v, th, w, t, c);
    case StealRelease(_, _, _, _) => StealReleaseKeeps(q, v, th, w, t, c);
    case StealTake(_) => StealTakeKeeps(q, v, th, w, t, c);
    case StealPublish => StealPublishKeeps(q, v, th, w, t, c);
  }

  lemma {:induction false} StealOwnKeeps(q: Queue, v: Queue, th: Thread, w: World, t: nat, c: Choice)
    requires QueueInv(q) && QueueInv(v) && (th.pc.StealOwnHead? || th.pc.StealOwnTail?) && StealInv(th, q, v, t)
    ensures StealKept(q, v, th, w, t, Victim(th.pc, t), StealStep(q, v, th, w, t, Victim(th.pc, t), c))
  {
    hide Good, Intact, Word, Sub32, Slot;
    if th.pc.StealOwnTail? {
      Sub32IsDifference(q.Tail(), th.pc.steal);
    }
    Quiet(q, th, w, t, StealStep(q, v, th, w, t, th.pc.src, c));
  }

  lemma {:induction false} StealHeadKeeps(q: Queue, v: Queue, th: Thread, w: World, t: nat, c: Choice)
    requires QueueInv(q) && QueueInv(v) && th.pc.StealHead? && StealInv(th, q, v, t)
    ensures StealKept(q, v, th, w, t, Victim(th.pc, t), StealStep(q, v, th, w, t, Victim(th.pc, t), c))
  {
    hide Good, Intact;
    Quiet(q, th, w, t, StealStep(q, v, th, w, t, th.pc.src, c));
  }

  /** The number of tasks a thief means to take is half of what it saw, rounded up. */
  lemma {:induction false} StealTailKeeps(q: Queue, v: Queue, th: Thread, w: World, t: nat, c: Choice)
    requires QueueInv(q) && QueueInv(v) && th.pc.StealTail? && StealInv(th, q, v, t) && NoFullWrap(th.pc, v)
    ensures StealKept(q, v, th, w, t, Victim(th.pc, t), StealStep(q, v, th, w, t, Victim(th.pc, t), c))
  {
    hide Good, Intact, Word, Sub32;
    Sub32IsDifference(v.Tail(), th.pc.head);
    WordsEqual(th.pc.steal, th.pc.head);
    Quiet(q, th, w, t, StealStep(q, v, th, w, t, th.pc.src, c));
  }

  lemma {:induction false} StealClaimKeeps(q: Queue, v: Queue, th: Thread, w: World, t: nat, c: Choice)
    requires QueueInv(q) && QueueInv(v) && th.pc.StealClaim? && StealInv(th, q, v, t) && NoFullWrap(th.pc, v)
    ensures StealKept(q, v, th, w, t, Victim(th.pc, t), StealStep(q, v, th, w, t, Victim(th.pc, t), c))
  {
    hide Good, Word, Slot;
    var src, n := th.pc.src, th.pc.n;
    var k := StealStep(q, v, th, w, t, src, c);
    WordsEqual(th.pc.steal, v.steal);
    WordsEqual(th.pc.head, v.head);
    if Swaps(v, th.pc.steal, th.pc.head, c) {
      ClaimKeeps(v, n, t);
      TakeOut(v, First(v, n), th, w, t, k);
    } else {
      Quiet(q, th, w, t, k);
    }
  }

  /** A thief reads the claimed tasks, although the owner keeps working meanwhile. */
  lemma {:induction false} ClaimedIntact(q: Queue, v: Queue, th: Thread, t: nat)
    requires QueueInv(v) && th.pc.StealCopy? && StealInv(th, q, v, t)
    ensures forall k :: 0 <= k < th.pc.n ==> v.buffer[Slot(th.pc.first + k)] == th.held[k]
  {
    hide Slot;
    forall k | 0 <= k < th.pc.n
      ensures v.buffer[Slot(th.pc.first + k)] == th.held[k]
    {
      assert v.buffer[Slot(th.pc.first + k)] == v.log[th.pc.first + k];
    }
  }

  lemma {:induction false} StealCopyKeeps(q: Queue, v: Queue, th: Thread, w: World, t: nat, c: Choice)
    requires QueueInv(q) && QueueInv(v) && th.pc.StealCopy? && StealInv(th, q, v, t)
    ensures StealKept(q, v, th, w, t, Victim(th.pc, t), StealStep(q, v, th, w, t, Victim(th.pc, t), c))
  {
    hide Good, Slot, Intact, Written;
    var src, n, moved := th.pc.src, th.pc.n, th.pc.moved;
    var k := StealStep(q, v, th, w, t, src, c);
    WrittenBound(q, th.held, moved);
    ClaimedIntact(q, v, th, t);
    if moved < n {
      QuietWrite(q, q.Tail() + moved, th.held[moved], th, w, t, k);
      WriteExtends(q, th.held, moved);
    } else {
      Quiet(q, th, w, t, k);
    }
  }

  lemma WrittenBound(q: Queue, tasks: seq<Task>, n: nat)
    requires Written(q, tasks, n)
    ensures n <= |tasks|
  {
  }

  lemma {:induction false} StealReleaseKeeps(q: Queue, v: Queue, th: Thread, w: World, t: nat, c: Choice)
    requires QueueInv(q) && QueueInv(v) && th.pc.StealRelease? && StealInv(th, q, v, t) && NoFullWrap(th.pc, v)
    ensures StealKept(q, v, th, w, t, Victim(th.pc, t), StealStep(q, v, th, w, t, Victim(th.pc, t), c))
  {
    hide Good, Word, Slot;
    var src := th.pc.src;
    var k := StealStep(q, v, th, w, t, src, c);
    WordsEqual(th.pc.steal, v.steal);
    WordsEqual(th.pc.head, v.head);
    if Swaps(v, th.pc.steal, th.pc.head, c) {
      ReleaseKeeps(v);
      TakeOut(v, [], th, w, t, k);
    } else {
      Quiet(q, th, w, t, k);
    }
  }

  lemma {:induction false} StealTakeShape(q: Queue, v: Queue, th: Thread, w: World, t: nat, c: Choice)
    requires th.pc.StealTake? && StealInv(th, q, v, t) && |q.buffer| == |v.buffer| == CAPACITY
    ensures var n := th.pc.n;
      && 0 < n == |th.held|
      && StealStep(q, v, th, w, t, t, c)
         == Change(t, q, Thread(if n > 1 then StealPublish else Idle, th.held[..n - 1]), Deliver(w, th.held[n - 1]))
  {
    hide Slot;
    var n := th.pc.n;
    assert q.buffer[Slot(q.Tail() + (n - 1))] == th.held[n - 1];
  }

  lemma {:induction false} LastBag<T>(s: seq<T>, n: nat)
    requires |s| == n + 1
    ensures multiset(s) == multiset(s[..n]) + multiset{s[n]}
  {
    assert s == s[..n] + [s[n]];
  }

  lemma {:induction false} StealTakeGood(q: Queue, th: Thread, w: World, t: nat, k: Change)
    requires QueueInv(q) && |th.held| > 0
    requires k.q == q && k.world == Deliver(w, th.held[|th.held| - 1]) && k.th.held == th.held[..|th.held| - 1]
    ensures Good(q, th, w, t, k)
  {
    hide Good, QueueInv, Deliver, Outside;
    var n := |th.held| - 1;
    DeliverOutside(w, th.held[n]);
    LastBag(th.held, n);
    assert Outside(w) + multiset{th.held[n]} + multiset(th.held[..n])
        == Outside(w) + (multiset(th.held[..n]) + multiset{th.held[n]});
    HandOut(q, th, w, t, k);
  }

  lemma {:induction false} StealTakeKeeps(q: Queue, v: Queue, th: Thread, w: World, t: nat, c: Choice)
    requires QueueInv(q) && QueueInv(v) && th.pc.StealTake? && StealInv(th, q, v, t)
    ensures StealKept(q, v, th, w, t, Victim(th.pc, t), StealStep(q, v, th, w, t, Victim(th.pc, t), c))
  {
    hide Good, Slot, Deliver, StealStep, Intact;
    StealTakeShape(q, v, th, w, t, c);
    StealTakeGood(q, th, w, t, StealStep(q, v, th, w, t, t, c));
  }

  lemma {:induction false} StealPublishKeeps(q: Queue, v: Queue, th: Thread, w: World, t: nat, c: Choice)
    requires QueueInv(q) && QueueInv(v) && th.pc.StealPublish? && StealInv(th, q, v, t)
    ensures StealKept(q, v, th, w, t, Victim(th.pc, t), StealStep(q, v, th, w, t, Victim(th.pc, t), c))
  {
    hide Good, Slot;
    PutIn(q, th.held, th, w, t, StealStep(q, v, th, w, t, t, c));
  }
}

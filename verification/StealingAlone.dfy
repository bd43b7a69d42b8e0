/** What a worker achieves with an operation that no other thread interrupts: in any
    reachable state a push, a pop, a refill and a steal, each run step by step
    with the other threads wherever they are, do exactly what the queue promises. */
module StealingAlone {
  import opened Bags
  import opened Words
  import opened Wheel
  import opened Ring
  import opened Stealing
  import opened StealingInv
  import opened StealingSafety

  /** The steps of one thread, with these choices and no other event between them. */
  function Alone(s: State, t: nat, cs: seq<Choice>): State
    decreases |cs|
  {
    if cs == [] || !Enabled(s, Work(t, cs[0])) then s else Alone(Next(s, Work(t, cs[0])), t, cs[1..])
  }

  function Gos(n: nat): seq<Choice> {
    seq(n, _ => Go)
  }

  lemma AloneOne(s: State, t: nat, c: Choice)
    requires Enabled(s, Work(t, c))
    ensures Alone(s, t, [c]) == Next(s, Work(t, c))
  {
    assert [c][1..] == [];
  }

  lemma {:induction false} AloneMore(s: State, t: nat, cs: seq<Choice>, ds: seq<Choice>)
    ensures Alone(s, t, cs + ds) == Alone(Alone(s, t, cs), t, ds)
    decreases |cs|
  {
    if cs == [] {
      assert cs + ds == ds;
    } else if Enabled(s, Work(t, cs[0])) {
      assert (cs + ds)[1..] == cs[1..] + ds;
      AloneMore(Next(s, Work(t, cs[0])), t, cs[1..], ds);
    }
  }

  /** After the choices `cs` the thread, if it runs alone from `s`, has reached `r`. */
  ghost predicate Gets(s: State, t: nat, cs: seq<Choice>, r: State) {
    Alone(s, t, cs) == r
  }

  lemma GetsNothing(s: State, t: nat)
    ensures Gets(s, t, [], s)
  {
  }

  lemma GetsOne(s: State, t: nat, cs: seq<Choice>, r: State, c: Choice)
    requires Gets(s, t, cs, r) && Enabled(r, Work(t, c))
    ensures Gets(s, t, cs + [c], Next(r, Work(t, c)))
  {
    AloneMore(s, t, cs, [c]);
    AloneOne(r, t, c);
  }

  lemma GetsMore(s: State, t: nat, cs: seq<Choice>, r: State, ds: seq<Choice>, u: State)
    requires Gets(s, t, cs, r) && Gets(r, t, ds, u)
    ensures Gets(s, t, cs + ds, u)
  {
    AloneMore(s, t, cs, ds);
  }

  // ----- one queue, one thread and the world have changed

  ghost function At(s: State, t: nat, q: Queue, th: Thread, w: World): State
    requires t < |s.queues| && t < |s.threads|
  {
    State(s.queues[t := q], s.threads[t := th], w)
  }

  ghost predicate Stage(s: State, t: nat, q: Queue) {
    Shaped(s) && t < |s.threads| == |s.queues| && |q.buffer| == CAPACITY
  }

  lemma AtSelf(s: State, t: nat)
    requires t < |s.queues| && t < |s.threads|
    ensures At(s, t, s.queues[t], s.threads[t], s.world) == s
  {
  }

  /** One more step of the owner on its own queue. */
  lemma OwnerSteps(s0: State, s: State, t: nat, cs: seq<Choice>, q: Queue, th: Thread, w: World, c: Choice, k: Change)
    requires Stage(s, t, q) && Gets(s0, t, cs, At(s, t, q, th, w)) && k.queue == t
    requires Kind(th.pc) in {Starting, Pushing, Popping, Refilling}
    requires Kind(th.pc) == Starting ==> k == StartStep(At(s, t, q, th, w), t, c)
    requires Kind(th.pc) == Pushing ==> k == PushStep(q, th, w, t, c)
    requires Kind(th.pc) == Popping ==> k == PopStep(q, th, w, t, c)
    requires Kind(th.pc) == Refilling ==> k == RefillStep(q, th, w, t, c)
    ensures Gets(s0, t, cs + [c], At(s, t, k.q, k.th, k.world))
  {
    hide PushStep, PopStep, RefillStep, StartStep, Gets, Victim;
    var a := At(s, t, q, th, w);
    NotStealing(th.pc, t);
    assert Shaped(a);
    GetsOne(s0, t, cs, a, c);
    assert Next(a, Work(t, c)) == At(s, t, k.q, k.th, k.world);
  }

  /** All threads are where they were, the queue of thread `t` holds `content` and is in order, all other queues are
      as they were, and the world is `w`. */
  ghost predicate Results(s: State, r: State, t: nat, content: seq<Task>, w: World)
    requires t < |s.queues|
  {
    && r.threads == s.threads && r.world == w
    && |r.queues| == |s.queues| && (forall x :: 0 <= x < |s.queues| && x != t ==> r.queues[x] == s.queues[x])
    && QueueInv(r.queues[t]) && r.queues[t].thief == s.queues[t].thief
    && r.queues[t].Content() == content
  }

  lemma AtResults(s: State, t: nat, q: Queue, w: World)
    requires t < |s.queues| == |s.threads| && s.threads[t] == Thread(Idle, [])
    requires QueueInv(q) && q.thief == s.queues[t].thief
    ensures Results(s, At(s, t, q, Thread(Idle, []), w), t, q.Content(), w)
  {
  }

  lemma IdleHere(s: State, t: nat)
    requires Inv(s) && t < |s.threads| && s.threads[t].pc == Idle
    ensures s.threads[t] == Thread(Idle, []) && Stage(s, t, s.queues[t]) && QueueInv(s.queues[t])
  {
    assert ThreadOk(s, t);
  }

  lemma Counters(q: Queue)
    requires QueueInv(q)
    ensures q.steal <= q.head <= q.Tail() <= q.steal + CAPACITY && |q.buffer| == CAPACITY
    ensures q.Content() == q.log[q.head..] && |q.Content()| == q.Tail() - q.head
    ensures q.thief == None <==> q.steal == q.head
  {
  }

  // ----- pop

  /** A pop hands out the first task, and finds nothing only in an empty queue. */
  lemma {:induction false} PopAlone(s: State, t: nat)
    requires Inv(s) && t < |s.threads| && s.threads[t].pc == Idle
    ensures t < |s.queues| && QueueInv(s.queues[t])
    ensures s.queues[t].Content() == [] ==> Alone(s, t, [Pop] + Gos(2)) == s
    ensures s.queues[t].Content() != [] ==>
      var task := s.queues[t].Content()[0];
      Results(s, Alone(s, t, [Pop] + Gos(4)), t, s.queues[t].Content()[1..],
              s.world.(delivered := s.world.delivered + multiset{task}))
  {
    hide Inv, Gets, At, Alone, QueueInv, Slot, Word, Results, Stage;
    IdleHere(s, t);
    var q, w := s.queues[t], s.world;
    Counters(q);
    AtSelf(s, t);
    var idle, th1, th2 := Thread(Idle, []), Thread(PopHead, []), Thread(PopTail(q.steal, q.head), []);
    GetsNothing(s, t);
    OwnerSteps(s, s, t, [], q, idle, w, Pop, Change(t, q, th1, w));
    OwnerSteps(s, s, t, [] + [Pop], q, th1, w, Go, Change(t, q, th2, w));
    WordsEqual(q.head, q.Tail());
    var cs := [] + [Pop] + [Go];
    if q.Content() == [] {
      OwnerSteps(s, s, t, cs, q, th2, w, Go, Change(t, q, idle, w));
      assert cs + [Go] == [Pop] + Gos(2);
      GetsMeans(s, t, [Pop] + Gos(2), s);
    } else {
      PopTakes(s, t, q, w, cs);
      var q' := TakeOne(q);
      TakeOneKeeps(q);
      assert cs + [Go] + [Go] + [Go] == [Pop] + Gos(4);
      var w' := Deliver(w, q.log[q.head]);
      GetsMeans(s, t, [Pop] + Gos(4), At(s, t, q', idle, w'));
      AtResults(s, t, q', w');
    }
  }

  lemma GetsMeans(s: State, t: nat, cs: seq<Choice>, r: State)
    requires Gets(s, t, cs, r)
    ensures Alone(s, t, cs) == r
  {
  }

  lemma {:induction false} PopTakes(s: State, t: nat, q: Queue, w: World, cs: seq<Choice>)
    requires Stage(s, t, q) && QueueInv(q) && q.Content() != []
    requires Gets(s, t, cs, At(s, t, q, Thread(PopTail(q.steal, q.head), []), w))
    ensures Gets(s, t, cs + [Go] + [Go] + [Go],
                 At(s, t, TakeOne(q), Thread(Idle, []), Deliver(w, q.log[q.head])))
    ensures TakeOne(q).thief == q.thief
  {
    hide Gets, At, Slot, Word, Stage;
    WordsEqual(q.head, q.Tail());
    var th2, th3 := Thread(PopTail(q.steal, q.head), []), Thread(PopSwap(q.steal, q.head), []);
    OwnerSteps(s, s, t, cs, q, th2, w, Go, Change(t, q, th3, w));
    var q', th4 := TakeOne(q), Thread(PopRead(q.head), First(q, 1));
    OwnerSteps(s, s, t, cs + [Go], q, th3, w, Go, Change(t, q', th4, w));
    InItsSlot(q, q.head);
    StageOther(s, t, q, q');
    OwnerSteps(s, s, t, cs + [Go] + [Go], q', th4, w, Go, Change(t, q', Thread(Idle, []), Deliver(w, q.log[q.head])));
  }

  lemma StageOther(s: State, t: nat, q: Queue, q': Queue)
    requires Stage(s, t, q) && |q'.buffer| == CAPACITY
    ensures Stage(s, t, q')
  {
  }

  // ----- push

  /** What a push does to the world: the task is handed in, and tasks that leave the queue go to the global one. */
  ghost function Overflowing(w: World, task: Task, out: seq<Task>): World {
    var w' := w.(submitted := w.submitted + multiset{task});
    if w.closed then w'.(dropped := w.dropped + multiset(out)) else w'.(global := w.global + out)
  }

  /** A push appends its task if there is room; if the ring is full and being stolen from, the task alone goes to the
      global queue; and otherwise the older half goes there in order, and then the task. */
  lemma {:induction false} PushAlone(s: State, t: nat, task: Task)
    requires Inv(s) && t < |s.threads| && s.threads[t].pc == Idle
    ensures t < |s.queues| && QueueInv(s.queues[t])
    ensures var q := s.queues[t];
      && (q.Tail() < q.steal + CAPACITY ==>
            Results(s, Alone(s, t, [Push(task)] + Gos(4)), t, q.Content() + [task], Overflowing(s.world, task, [])))
      && (q.Tail() == q.steal + CAPACITY && q.thief != None ==>
            Results(s, Alone(s, t, [Push(task)] + Gos(3)), t, q.Content(), Overflowing(s.world, task, [task])))
      && (q.Tail() == q.steal + CAPACITY && q.thief == None ==>
            |q.Content()| == CAPACITY
            && Results(s, Alone(s, t, [Push(task)] + Gos(CAPACITY / 2 + 5)), t, q.Content()[CAPACITY / 2..],
                       Overflowing(s.world, task, q.Content()[..CAPACITY / 2] + [task])))
  {
    hide Inv, Gets, At, Alone, QueueInv, Slot, Word, Results, Stage, Overflowing;
    IdleHere(s, t);
    var q, w := s.queues[t], s.world;
    Counters(q);
    AtSelf(s, t);
    var idle, th1 := Thread(Idle, []), Thread(PushHead(task), [task]);
    var th2 := Thread(PushTail(task, q.steal, q.head), [task]);
    var w1 := w.(submitted := w.submitted + multiset{task});
    GetsNothing(s, t);
    OwnerSteps(s, s, t, [], q, idle, w, Push(task), Change(t, q, th1, w1));
    OwnerSteps(s, s, t, [] + [Push(task)], q, th1, w1, Go, Change(t, q, th2, w1));
    var cs := [] + [Push(task)] + [Go];
    Sub32IsDifference(q.Tail(), q.steal);
    WordsEqual(q.steal, q.head);
    if q.Tail() < q.steal + CAPACITY {
      PushAppends(s, t, q, w1, task, cs);
      assert cs + [Go] + [Go] + [Go] == [Push(task)] + Gos(4);
      var q' := Publish(Write(q, q.Tail(), task), [task]);
      GetsMeans(s, t, [Push(task)] + Gos(4), At(s, t, q', idle, w1));
      AtResults(s, t, q', w1);
      NothingOut(w, task);
    } else if q.thief != None {
      var th3, w2 := Thread(PushGlobal(task), [task]), PushAll(w1, [task]);
      OwnerSteps(s, s, t, cs, q, th2, w1, Go, Change(t, q, th3, w1));
      OwnerSteps(s, s, t, cs + [Go], q, th3, w1, Go, Change(t, q, idle, w2));
      assert cs + [Go] + [Go] == [Push(task)] + Gos(3);
      GetsMeans(s, t, [Push(task)] + Gos(3), At(s, t, q, idle, w2));
      AtResults(s, t, q, w2);
      OutIs(w, task, [task]);
    } else {
      var th3 := Thread(OverflowSwap(task, q.head), [task]);
      OwnerSteps(s, s, t, cs, q, th2, w1, Go, Change(t, q, th3, w1));
      HalfGoes(s, t, q, w1, task, cs + [Go]);
      var half := q.Content()[..CAPACITY / 2];
      var q', w2 := TakeHalf(q), PushAll(w1, half + [task]);
      assert cs + [Go] + Gos(CAPACITY / 2 + 3) == [Push(task)] + Gos(CAPACITY / 2 + 5);
      GetsMeans(s, t, [Push(task)] + Gos(CAPACITY / 2 + 5), At(s, t, q', idle, w2));
      AtResults(s, t, q', w2);
      OutIs(w, task, half + [task]);
    }
  }

  lemma NothingOut(w: World, task: Task)
    ensures Overflowing(w, task, []) == w.(submitted := w.submitted + multiset{task})
  {
    assert w.global + [] == w.global;
  }

  lemma OutIs(w: World, task: Task, out: seq<Task>)
    ensures PushAll(w.(submitted := w.submitted + multiset{task}), out) == Overflowing(w, task, out)
  {
  }

  lemma {:induction false} PushAppends(s: State, t: nat, q: Queue, w: World, task: Task, cs: seq<Choice>)
    requires Stage(s, t, q) && QueueInv(q) && q.Tail() < q.steal + CAPACITY
    requires Gets(s, t, cs, At(s, t, q, Thread(PushTail(task, q.steal, q.head), [task]), w))
    ensures var q' := Publish(Write(q, q.Tail(), task), [task]);
      && Gets(s, t, cs + [Go] + [Go] + [Go], At(s, t, q', Thread(Idle, []), w))
      && QueueInv(q') && q'.thief == q.thief && q'.Content() == q.Content() + [task]
  {
    hide Gets, At, Slot, Word, Stage;
    Sub32IsDifference(q.Tail(), q.steal);
    var th2, th3, th4 := Thread(PushTail(task, q.steal, q.head), [task]), Thread(PushWrite(task), [task]),
      Thread(PushPublish(task), [task]);
    OwnerSteps(s, s, t, cs, q, th2, w, Go, Change(t, q, th3, w));
    var q1 := Write(q, q.Tail(), task);
    OwnerSteps(s, s, t, cs + [Go], q, th3, w, Go, Change(t, q1, th4, w));
    StageOther(s, t, q, q1);
    var q' := Publish(q1, [task]);
    OwnerSteps(s, s, t, cs + [Go] + [Go], q1, th4, w, Go, Change(t, q', Thread(Idle, []), w));
    WriteKeeps(q, q.Tail(), task);
    PublishKeeps(q1, [task]);
    PublishContent(q1, [task]);
  }

  /** The overflow, from its swap on. */
  lemma {:induction false} HalfGoes(s: State, t: nat, q: Queue, w: World, task: Task, cs: seq<Choice>)
    requires Stage(s, t, q) && QueueInv(q) && q.Tail() == q.steal + CAPACITY && q.thief == None
    requires Gets(s, t, cs, At(s, t, q, Thread(OverflowSwap(task, q.head), [task]), w))
    ensures |q.Content()| == CAPACITY
    ensures Gets(s, t, cs + Gos(CAPACITY / 2 + 3),
                 At(s, t, TakeHalf(q), Thread(Idle, []), PushAll(w, q.Content()[..CAPACITY / 2] + [task])))
    ensures QueueInv(TakeHalf(q)) && TakeHalf(q).thief == q.thief
    ensures TakeHalf(q).Content() == q.Content()[CAPACITY / 2..]
  {
    hide Gets, At, Slot, Word, Stage, PushAll;
    Counters(q);
    TakeHalfKeeps(q);
    var half, q' := q.log[q.head..q.head + CAPACITY / 2], TakeHalf(q);
    assert half == q.Content()[..CAPACITY / 2];
    var th3, held := Thread(OverflowSwap(task, q.head), [task]), First(q, CAPACITY / 2) + [task];
    OwnerSteps(s, s, t, cs, q, th3, w, Go, Change(t, q', Thread(OverflowCopy(task, q.head, []), held), w));
    StageOther(s, t, q, q');
    HalfCopies(s, t, q, q', w, task, held, cs + [Go], 0);
    assert half[..0] == [] && half[..CAPACITY / 2] == half;
    var th5, th6 := Thread(OverflowCopy(task, q.head, half), held), Thread(OverflowFlush(half + [task]), held);
    var ds := cs + [Go] + Gos(CAPACITY / 2);
    OwnerSteps(s, s, t, ds, q', th5, w, Go, Change(t, q', th6, w));
    OwnerSteps(s, s, t, ds + [Go], q', th6, w, Go, Change(t, q', Thread(Idle, []), PushAll(w, half + [task])));
    assert ds + [Go] + [Go] == cs + Gos(CAPACITY / 2 + 3);
  }

  lemma {:induction false} HalfCopies(s: State, t: nat, q: Queue, q': Queue, w: World, task: Task, held: seq<Task>,
                                      cs: seq<Choice>, n: nat)
    requires Stage(s, t, q') && QueueInv(q) && q.Tail() == q.head + CAPACITY
    requires q'.buffer == q.buffer && n <= CAPACITY / 2
    requires var half := q.log[q.head..q.head + CAPACITY / 2];
      Gets(s, t, cs, At(s, t, q', Thread(OverflowCopy(task, q.head, half[..n]), held), w))
    ensures var half := q.log[q.head..q.head + CAPACITY / 2];
      Gets(s, t, cs + Gos(CAPACITY / 2 - n), At(s, t, q', Thread(OverflowCopy(task, q.head, half), held), w))
    decreases CAPACITY / 2 - n
  {
    hide Gets, At, Slot, Stage;
    var half := q.log[q.head..q.head + CAPACITY / 2];
    if n == CAPACITY / 2 {
      assert half[..n] == half && cs + Gos(0) == cs;
    } else {
      InItsSlot(q, q.head + n);
      assert half[..n] + [q.buffer[Slot(q.head + n)]] == half[..n + 1];
      OwnerSteps(s, s, t, cs, q', Thread(OverflowCopy(task, q.head, half[..n]), held), w, Go,
                 Change(t, q', Thread(OverflowCopy(task, q.head, half[..n + 1]), held), w));
      HalfCopies(s, t, q, q', w, task, held, cs + [Go], n + 1);
      assert cs + [Go] + Gos(CAPACITY / 2 - n - 1) == cs + Gos(CAPACITY / 2 - n);
    }
  }

  // ----- refill

  /** The first `n` tasks leave the global queue, and the first of them is run. */
  ghost function Pulled(w: World, n: nat): World {
    if n == 0 || n > |w.global| then w
    else w.(global := w.global[n..], delivered := w.delivered + multiset{w.global[0]})
  }

  function RoomFor(q: Queue): nat
    requires q.steal <= q.Tail() <= q.steal + CAPACITY
  {
    Min(q.steal + CAPACITY - q.Tail(), CAPACITY / 2)
  }

  /** A refill asks for `want` tasks, or as many as there is room for if that is no fitting number. */
  function Share(q: Queue, w: World, want: nat): nat
    requires q.steal <= q.Tail() <= q.steal + CAPACITY
  {
    Min(|w.global|, if 0 < want <= RoomFor(q) then want else RoomFor(q))
  }

  /** A refill runs the first of its share of the global queue and appends the others; with all slots in use it
      runs a single task. */
  lemma {:induction false} RefillAlone(s: State, t: nat, want: nat)
    requires Inv(s) && t < |s.threads| && s.threads[t].pc == Idle
    ensures t < |s.queues| && QueueInv(s.queues[t])
    ensures var q, w := s.queues[t], s.world;
      && (RoomFor(q) == 0 ==> Results(s, Alone(s, t, [Pull] + Gos(2)), t, q.Content(), Pulled(w, Min(|w.global|, 1))))
      && (RoomFor(q) > 0 ==>
            var n := Share(q, w, want);
            Results(s, Alone(s, t, [Pull] + Gos(2) + [Amount(want)] + Gos(if n < 2 then 0 else n + 2)), t,
                    q.Content() + (if n < 2 then [] else w.global[1..n]), Pulled(w, n)))
  {
    hide Inv, Gets, At, Alone, QueueInv, Slot, Word, Results, Stage, Pulled;
    IdleHere(s, t);
    var q, w := s.queues[t], s.world;
    Counters(q);
    AtSelf(s, t);
    PulledMeans(w);
    Sub32IsDifference(q.Tail(), q.steal);
    var idle, th1, th2 := Thread(Idle, []), Thread(RoomHead, []), Thread(RoomTail(q.steal), []);
    GetsNothing(s, t);
    OwnerSteps(s, s, t, [], q, idle, w, Pull, Change(t, q, th1, w));
    OwnerSteps(s, s, t, [] + [Pull], q, th1, w, Go, Change(t, q, th2, w));
    var cs := [] + [Pull] + [Go];
    if RoomFor(q) == 0 {
      var w' := Pulled(w, Min(|w.global|, 1));
      OwnerSteps(s, s, t, cs, q, th2, w, Go, Change(t, q, idle, w'));
      assert cs + [Go] == [Pull] + Gos(2);
      GetsMeans(s, t, [Pull] + Gos(2), At(s, t, q, idle, w'));
      AtResults(s, t, q, w');
    } else {
      OwnerSteps(s, s, t, cs, q, th2, w, Go, Change(t, q, Thread(Refill(RoomFor(q)), []), w));
      assert cs + [Go] == [Pull] + Gos(2);
      ShareGoesIn(s, t, want, [Pull] + Gos(2));
    }
  }

  /** The last steps of a refill, once the room is known. */
  lemma {:induction false} ShareGoesIn(s: State, t: nat, want: nat, cs: seq<Choice>)
    requires Inv(s) && t < |s.threads| && s.threads[t].pc == Idle
    requires t < |s.queues| && QueueInv(s.queues[t]) && RoomFor(s.queues[t]) > 0
    requires Gets(s, t, cs, At(s, t, s.queues[t], Thread(Refill(RoomFor(s.queues[t])), []), s.world))
    ensures var q, w, n := s.queues[t], s.world, Share(s.queues[t], s.world, want);
      Results(s, Alone(s, t, cs + [Amount(want)] + Gos(if n < 2 then 0 else n + 2)), t,
              q.Content() + (if n < 2 then [] else w.global[1..n]), Pulled(w, n))
  {
    hide Inv, Gets, At, Alone, QueueInv, Slot, Word, Results, Stage, Pulled;
    IdleHere(s, t);
    var q, w, n := s.queues[t], s.world, Share(s.queues[t], s.world, want);
    Counters(q);
    PulledMeans(w);
    var idle, th3, ds := Thread(Idle, []), Thread(Refill(RoomFor(q)), []), cs + [Amount(want)];
    if n < 2 {
      OwnerSteps(s, s, t, cs, q, th3, w, Amount(want), Change(t, q, idle, Pulled(w, n)));
      assert ds + Gos(0) == ds && q.Content() + [] == q.Content();
      GetsMeans(s, t, ds, At(s, t, q, idle, Pulled(w, n)));
      AtResults(s, t, q, Pulled(w, n));
    } else {
      var tasks := w.global[1..n];
      OwnerSteps(s, s, t, cs, q, th3, w, Amount(want),
                 Change(t, q, Thread(BatchHead(tasks), tasks), Pulled(w, n)));
      BatchGoesIn(s, t, q, Pulled(w, n), tasks, ds);
      var q' := Batched(q, tasks, n - 1);
      GetsMeans(s, t, ds + Gos(n + 2), At(s, t, Publish(q', tasks), idle, Pulled(w, n)));
      AtResults(s, t, Publish(q', tasks), Pulled(w, n));
    }
  }

  lemma PulledMeans(w: World)
    ensures Pulled(w, 0) == w
    ensures w.global != [] ==> Pulled(w, 1) == Deliver(w.(global := w.global[1..]), w.global[0])
    ensures forall n: nat :: 0 < n <= |w.global| ==>
      Pulled(w, n) == Deliver(w.(global := w.global[n..]), w.global[0])
  {
  }

  /** The first `n` tasks of a batch are written behind the tail. */
  function Batched(q: Queue, tasks: seq<Task>, n: nat): (r: Queue)
    requires |q.buffer| == CAPACITY && n <= |tasks|
    ensures r == q.(buffer := r.buffer) && |r.buffer| == CAPACITY
    decreases n
  {
    if n == 0 then q else Write(Batched(q, tasks, n - 1), q.Tail() + n - 1, tasks[n - 1])
  }

  lemma {:induction false} BatchedInv(q: Queue, tasks: seq<Task>, n: nat)
    requires QueueInv(q) && n <= |tasks| && q.Tail() + |tasks| <= q.steal + CAPACITY
    ensures QueueInv(Batched(q, tasks, n))
    decreases n
  {
    hide Slot, QueueInv;
    Counters(q);
    if n > 0 {
      BatchedInv(q, tasks, n - 1);
      WriteKeeps(Batched(q, tasks, n - 1), q.Tail() + n - 1, tasks[n - 1]);
    }
  }

  lemma {:induction false} BatchedKeeps(q: Queue, tasks: seq<Task>, n: nat)
    requires QueueInv(q) && n <= |tasks| && q.Tail() + |tasks| <= q.steal + CAPACITY
    ensures QueueInv(Batched(q, tasks, n))
    ensures forall k :: 0 <= k < n ==> Batched(q, tasks, n).buffer[Slot(q.Tail() + k)] == tasks[k]
    decreases n
  {
    hide Slot, QueueInv;
    Counters(q);
    BatchedInv(q, tasks, n);
    if n > 0 {
      BatchedKeeps(q, tasks, n - 1);
      var b := Batched(q, tasks, n - 1);
      WriteKeeps(b, q.Tail() + n - 1, tasks[n - 1]);
      forall k | 0 <= k < n - 1
        ensures Batched(q, tasks, n).buffer[Slot(q.Tail() + k)] == tasks[k]
      {
        WriteElsewhere(b, q.Tail() + n - 1, tasks[n - 1], q.Tail() + k);
      }
    }
  }

  lemma {:induction false} BatchGoesIn(s: State, t: nat, q: Queue, w: World, tasks: seq<Task>, cs: seq<Choice>)
    requires Stage(s, t, q) && QueueInv(q) && 0 < |tasks| <= RoomFor(q)
    requires Gets(s, t, cs, At(s, t, q, Thread(BatchHead(tasks), tasks), w))
    ensures var q' := Publish(Batched(q, tasks, |tasks|), tasks);
      && Gets(s, t, cs + Gos(|tasks| + 3), At(s, t, q', Thread(Idle, []), w))
      && QueueInv(q') && q'.thief == q.thief && q'.Content() == q.Content() + tasks
  {
    hide Gets, At, Slot, Word, Stage, QueueInv;
    Counters(q);
    BufferIs(s, t, q);
    Sub32IsDifference(q.Tail(), q.steal);
    var th1, th2, th3 := Thread(BatchHead(tasks), tasks), Thread(BatchTail(tasks, q.steal), tasks),
      Thread(BatchWrite(tasks, 0), tasks);
    OwnerSteps(s, s, t, cs, q, th1, w, Go, Change(t, q, th2, w));
    OwnerSteps(s, s, t, cs + [Go], q, th2, w, Go, Change(t, q, th3, w));
    BatchWrites(s, t, q, w, tasks, cs + [Go] + [Go], 0);
    var ds := cs + [Go] + [Go] + Gos(|tasks|);
    BatchPublished(s, t, q, w, tasks, ds);
    assert ds + [Go] == cs + Gos(|tasks| + 3);
  }

  lemma {:induction false} BatchPublished(s: State, t: nat, q: Queue, w: World, tasks: seq<Task>, cs: seq<Choice>)
    requires Stage(s, t, q) && QueueInv(q) && 0 < |tasks| && q.Tail() + |tasks| <= q.steal + CAPACITY
    requires Gets(s, t, cs, At(s, t, Batched(q, tasks, |tasks|), Thread(BatchWrite(tasks, |tasks|), tasks), w))
    ensures var q' := Publish(Batched(q, tasks, |tasks|), tasks);
      && Gets(s, t, cs + [Go], At(s, t, q', Thread(Idle, []), w))
      && QueueInv(q') && q'.thief == q.thief && q'.Content() == q.Content() + tasks
  {
    hide Gets, At, Slot, Word, Stage, QueueInv;
    Counters(q);
    BatchedKeeps(q, tasks, |tasks|);
    var q2 := Batched(q, tasks, |tasks|);
    StageOther(s, t, q, q2);
    OwnerSteps(s, s, t, cs, q2, Thread(BatchWrite(tasks, |tasks|), tasks), w, Go,
               Change(t, Publish(q2, tasks), Thread(Idle, []), w));
    PublishKeeps(q2, tasks);
    PublishContent(q2, tasks);
  }

  lemma {:induction false} BatchWrites(s: State, t: nat, q: Queue, w: World, tasks: seq<Task>, cs: seq<Choice>, n: nat)
    requires Stage(s, t, q) && n <= |tasks|
    requires Gets(s, t, cs, At(s, t, Batched(q, tasks, n), Thread(BatchWrite(tasks, n), tasks), w))
    ensures Gets(s, t, cs + Gos(|tasks| - n),
                 At(s, t, Batched(q, tasks, |tasks|), Thread(BatchWrite(tasks, |tasks|), tasks), w))
    decreases |tasks| - n
  {
    hide Gets, At, Slot, Stage;
    if n == |tasks| {
      assert cs + Gos(0) == cs;
    } else {
      BufferIs(s, t, q);
      var b, b' := Batched(q, tasks, n), Batched(q, tasks, n + 1);
      StageOther(s, t, q, b);
      OwnerSteps(s, s, t, cs, b, Thread(BatchWrite(tasks, n), tasks), w, Go,
                 Change(t, b', Thread(BatchWrite(tasks, n + 1), tasks), w));
      BatchWrites(s, t, q, w, tasks, cs + [Go], n + 1);
      assert cs + [Go] + Gos(|tasks| - n - 1) == cs + Gos(|tasks| - n);
    }
  }

  lemma BufferIs(s: State, t: nat, q: Queue)
    requires Stage(s, t, q)
    ensures |q.buffer| == CAPACITY
  {
  }

  /** The single task taken at the interval is the first of the global queue, and is run. */
  lemma {:induction false} PullOneAlone(s: State, t: nat)
    requires Inv(s) && t < |s.threads| && s.threads[t].pc == Idle
    ensures t < |s.queues| && QueueInv(s.queues[t])
    ensures Results(s, Alone(s, t, [PullOne]), t, s.queues[t].Content(), Pulled(s.world, Min(|s.world.global|, 1)))
  {
    hide Inv, Gets, At, Alone, QueueInv, Slot, Word, Results, Stage, Pulled;
    IdleHere(s, t);
    var q, w := s.queues[t], s.world;
    AtSelf(s, t);
    PulledMeans(w);
    var w' := Pulled(w, Min(|w.global|, 1));
    GetsNothing(s, t);
    OwnerSteps(s, s, t, [], q, Thread(Idle, []), w, PullOne, Change(t, q, Thread(Idle, []), w'));
    assert [] + [PullOne] == [PullOne];
    GetsMeans(s, t, [PullOne], At(s, t, q, Thread(Idle, []), w'));
    AtResults(s, t, q, w');
  }

  // ----- steal

  ghost function At2(s: State, t: nat, src: nat, q: Queue, v: Queue, th: Thread, w: World): State
    requires t < |s.queues| && t < |s.threads| && src < |s.queues|
  {
    State(s.queues[t := q][src := v], s.threads[t := th], w)
  }

  ghost predicate Stage2(s: State, t: nat, src: nat, q: Queue, v: Queue) {
    && Shaped(s) && t < |s.threads| == |s.queues| && src < |s.queues| && src != t
    && |q.buffer| == CAPACITY && |v.buffer| == CAPACITY
  }

  lemma Stage2Other(s: State, t: nat, src: nat, q: Queue, v: Queue, q': Queue, v': Queue)
    requires Stage2(s, t, src, q, v) && |q'.buffer| == CAPACITY && |v'.buffer| == CAPACITY
    ensures Stage2(s, t, src, q', v')
  {
  }

  /** One more step of a thief, on its own queue or its victim's. */
  lemma ThiefSteps(s: State, t: nat, src: nat, cs: seq<Choice>, q: Queue, v: Queue, th: Thread, w: World, k: Change)
    requires Stage2(s, t, src, q, v) && Gets(s, t, cs, At2(s, t, src, q, v, th, w)) && k.queue in {t, src}
    requires Kind(th.pc) == Operation.Stealing && Victim(th.pc, t) in {t, src}
    requires k == StealStep(q, if Victim(th.pc, t) == t then q else v, th, w, t, Victim(th.pc, t), Go)
    ensures Gets(s, t, cs + [Go],
                 At2(s, t, src, if k.queue == t then k.q else q, if k.queue == src then k.q else v, k.th, k.world))
  {
    hide StealStep, Gets, Victim;
    var a := At2(s, t, src, q, v, th, w);
    assert Shaped(a);
    GetsOne(s, t, cs, a, Go);
    var b := At2(s, t, src, if k.queue == t then k.q else q, if k.queue == src then k.q else v, k.th, k.world);
    if k.queue == t {
      assert a.queues[t := k.q] == b.queues;
    } else {
      assert a.queues[src := k.q] == b.queues;
    }
    assert a.threads[t := k.th] == b.threads;
    assert Step(a, t, Go) == k;
  }

  lemma ThiefStarts(s: State, t: nat, src: nat, q: Queue, v: Queue, w: World)
    requires Stage2(s, t, src, q, v) && s == At2(s, t, src, q, v, Thread(Idle, []), w)
    ensures Gets(s, t, [Steal(src)], At2(s, t, src, q, v, Thread(StealOwnHead(src), []), w))
  {
    hide Gets;
    GetsNothing(s, t);
    GetsOne(s, t, [], s, Steal(src));
    assert [] + [Steal(src)] == [Steal(src)];
    var b := At2(s, t, src, q, v, Thread(StealOwnHead(src), []), w);
    assert s.queues[t] == q;
    assert Next(s, Work(t, Steal(src))).queues == b.queues;
  }

  function Larger(size: nat): nat {
    size - size / 2
  }

  /** Both queues have changed, and nothing else but the world. */
  ghost predicate Results2(s: State, r: State, t: nat, src: nat, own: seq<Task>, left: seq<Task>, w: World)
    requires t < |s.queues| && src < |s.queues|
  {
    && r.threads == s.threads && r.world == w && |r.queues| == |s.queues|
    && (forall x :: 0 <= x < |s.queues| && x != t && x != src ==> r.queues[x] == s.queues[x])
    && QueueInv(r.queues[t]) && r.queues[t].thief == s.queues[t].thief && r.queues[t].Content() == own
    && QueueInv(r.queues[src]) && r.queues[src].thief == None && r.queues[src].Content() == left
  }

  /** A thief with more than half a ring in use, or whose victim has nothing or is being stolen from, gets nothing.
      Otherwise the older, larger half of the victim's tasks leaves it: the last of them is run, the others are
      appended to the thief's own queue in order. */
  lemma {:induction false} StealAlone(s: State, t: nat, src: nat)
    requires Inv(s) && t < |s.threads| && s.threads[t].pc == Idle && src < |s.threads| && src != t
    ensures t < |s.queues| && src < |s.queues| && QueueInv(s.queues[t]) && QueueInv(s.queues[src])
    ensures var q, v := s.queues[t], s.queues[src];
      var n := Larger(|v.Content()|);
      if q.Tail() - q.steal > CAPACITY / 2 then Alone(s, t, [Steal(src)] + Gos(2)) == s
      else if v.thief != None || v.Content() == [] then Alone(s, t, [Steal(src)] + Gos(4)) == s
      else
        && 0 < n <= |v.Content()|
        && Results2(s, Alone(s, t, [Steal(src)] + Gos(n + if n > 1 then 9 else 8)), t, src,
                    q.Content() + v.Content()[..n - 1], v.Content()[n..],
                    s.world.(delivered := s.world.delivered + multiset{v.Content()[n - 1]}))
  {
    hide Inv, Gets, At2, Alone, QueueInv, Slot, Word, Results2, Stage2;
    StealStage(s, t, src);
    var q, v, w := s.queues[t], s.queues[src], s.world;
    Counters(q);
    Counters(v);
    var idle := Thread(Idle, []);
    At2Self(s, t, src);
    ThiefStarts(s, t, src, q, v, w);
    var cs := [Steal(src)];
    var th1, th2 := Thread(StealOwnHead(src), []), Thread(StealOwnTail(src, q.steal), []);
    ThiefSteps(s, t, src, cs, q, v, th1, w, Change(t, q, th2, w));
    Sub32IsDifference(q.Tail(), q.steal);
    if q.Tail() - q.steal > CAPACITY / 2 {
      ThiefSteps(s, t, src, cs + [Go], q, v, th2, w, Change(t, q, idle, w));
      assert cs + [Go] + [Go] == cs + Gos(2);
      GetsMeans(s, t, cs + Gos(2), s);
    } else {
      var th3, th4 := Thread(StealHead(src), []), Thread(StealTail(src, v.steal, v.head), []);
      ThiefSteps(s, t, src, cs + [Go], q, v, th2, w, Change(t, q, th3, w));
      ThiefSteps(s, t, src, cs + [Go] + [Go], q, v, th3, w, Change(t, q, th4, w));
      Sub32IsDifference(v.Tail(), v.head);
      WordsEqual(v.steal, v.head);
      var ds := cs + [Go] + [Go] + [Go];
      if v.thief != None || v.Content() == [] {
        ThiefSteps(s, t, src, ds, q, v, th4, w, Change(t, q, idle, w));
        assert ds + [Go] == cs + Gos(4);
        GetsMeans(s, t, cs + Gos(4), s);
      } else {
        HalfIsStolen(s, t, src, q, v, w, ds);
        var n := Larger(|v.Content()|);
        var steps := n + if n > 1 then 9 else 8;
        assert ds + Gos(steps - 3) == cs + Gos(steps);
        var q', v' := Publish(Batched(q, v.Content()[..n], n), v.Content()[..n - 1]), Release(Claim(v, n, t));
        var w' := Deliver(w, v.Content()[n - 1]);
        GetsMeans(s, t, cs + Gos(steps), At2(s, t, src, q', v', idle, w'));
        At2Results(s, t, src, q', v', w');
      }
    }
  }

  lemma StealStage(s: State, t: nat, src: nat)
    requires Inv(s) && t < |s.threads| && s.threads[t].pc == Idle && src < |s.threads| && src != t
    ensures s.threads[t] == Thread(Idle, []) && t < |s.queues| == |s.threads| && src < |s.queues|
    ensures Stage2(s, t, src, s.queues[t], s.queues[src]) && QueueInv(s.queues[t]) && QueueInv(s.queues[src])
  {
    assert ThreadOk(s, t);
  }

  lemma At2Self(s: State, t: nat, src: nat)
    requires t < |s.queues| && t < |s.threads| && src < |s.queues|
    ensures At2(s, t, src, s.queues[t], s.queues[src], s.threads[t], s.world) == s
  {
  }

  lemma At2Results(s: State, t: nat, src: nat, q: Queue, v: Queue, w: World)
    requires t < |s.queues| == |s.threads| && src < |s.queues| && src != t && s.threads[t] == Thread(Idle, [])
    requires QueueInv(q) && q.thief == s.queues[t].thief && QueueInv(v) && v.thief == None
    ensures Results2(s, At2(s, t, src, q, v, Thread(Idle, []), w), t, src, q.Content(), v.Content(), w)
  {
  }

  /** The steal, from the look at the victim's tail on. */
  lemma {:induction false} HalfIsStolen(s: State, t: nat, src: nat, q: Queue, v: Queue, w: World, cs: seq<Choice>)
    requires Stage2(s, t, src, q, v) && QueueInv(q) && QueueInv(v)
    requires q.Tail() - q.steal <= CAPACITY / 2 && v.thief == None && v.Content() != []
    requires Gets(s, t, cs, At2(s, t, src, q, v, Thread(StealTail(src, v.steal, v.head), []), w))
    ensures var n := Larger(|v.Content()|);
      && 0 < n <= |v.Content()| && n <= CAPACITY / 2
      && var tasks, v' := v.Content()[..n], Release(Claim(v, n, t));
         var q' := Publish(Batched(q, tasks, n), tasks[..n - 1]);
         && tasks[..n - 1] == v.Content()[..n - 1] && tasks[n - 1] == v.Content()[n - 1]
         && Gets(s, t, cs + Gos(n + if n > 1 then 6 else 5),
                 At2(s, t, src, q', v', Thread(Idle, []), Deliver(w, tasks[n - 1])))
         && QueueInv(q') && q'.thief == q.thief && q'.Content() == q.Content() + tasks[..n - 1]
         && QueueInv(v') && v'.thief == None && v'.Content() == v.Content()[n..]
  {
    hide Gets, At2, Slot, Word, Stage2, QueueInv, StealStep, Deliver;
    Counters(v);
    Counters(q);
    var n := Larger(|v.Content()|);
    var tasks, v1 := v.Content()[..n], Claim(v, n, t);
    TasksClaimed(s, t, src, q, v, w, cs);
    TasksCarried(s, t, src, q, v, w, tasks, cs + [Go] + [Go], 0);
    var q1, ds := Batched(q, tasks, n), cs + [Go] + [Go] + Gos(n);
    ClaimReleased(s, t, src, q, v, w, tasks, ds);
    LastIsRun(s, t, src, q, q1, Release(v1), w, tasks, ds + [Go] + [Go]);
    assert ds + [Go] + [Go] + Gos(if n > 1 then 2 else 1) == cs + Gos(n + if n > 1 then 6 else 5);
    assert tasks[..n - 1] == v.Content()[..n - 1];
  }

  lemma {:induction false} TasksClaimed(s: State, t: nat, src: nat, q: Queue, v: Queue, w: World, cs: seq<Choice>)
    requires Stage2(s, t, src, q, v) && QueueInv(v) && v.thief == None && v.Content() != []
    requires Gets(s, t, cs, At2(s, t, src, q, v, Thread(StealTail(src, v.steal, v.head), []), w))
    ensures var n := Larger(|v.Content()|);
      && 0 < n <= |v.Content()| && v.Content()[..n] == v.log[v.head..v.head + n] && v.steal == v.head
      && Gets(s, t, cs + [Go] + [Go],
              At2(s, t, src, q, Claim(v, n, t), Thread(StealCopy(src, v.steal, n, 0), v.Content()[..n]), w))
  {
    hide Gets, At2, Slot, Word, Stage2, QueueInv;
    Stage2Buffers(s, t, src, q, v);
    Counters(v);
    var n := Larger(|v.Content()|);
    Sub32IsDifference(v.Tail(), v.head);
    var th4, th5 := Thread(StealTail(src, v.steal, v.head), []), Thread(StealClaim(src, v.steal, v.head, n), []);
    ThiefSteps(s, t, src, cs, q, v, th4, w, Change(t, q, th5, w));
    assert First(v, n) == v.Content()[..n];
    ThiefSteps(s, t, src, cs + [Go], q, v, th5, w,
               Change(src, Claim(v, n, t), Thread(StealCopy(src, v.steal, n, 0), v.Content()[..n]), w));
  }

  lemma {:induction false} ClaimReleased(s: State, t: nat, src: nat, q: Queue, v: Queue, w: World, tasks: seq<Task>,
                                         cs: seq<Choice>)
    requires Stage2(s, t, src, q, v) && QueueInv(v) && v.thief == None && 0 < |tasks| <= |v.Content()|
    requires tasks == v.Content()[..|tasks|]
    requires Gets(s, t, cs, At2(s, t, src, Batched(q, tasks, |tasks|), Claim(v, |tasks|, t),
                                Thread(StealCopy(src, v.steal, |tasks|, |tasks|), tasks), w))
    ensures var n, v2 := |tasks|, Release(Claim(v, |tasks|, t));
      && Gets(s, t, cs + [Go] + [Go],
              At2(s, t, src, Batched(q, tasks, n), v2, Thread(StealTake(n), tasks), w))
      && Stage2(s, t, src, Batched(q, tasks, n), v2)
      && QueueInv(v2) && v2.thief == None && v2.Content() == v.Content()[n..]
  {
    hide Gets, At2, Slot, Word, Stage2, QueueInv;
    Stage2Buffers(s, t, src, q, v);
    Counters(v);
    var n, v1, v2, q1 := |tasks|, Claim(v, |tasks|, t), Release(Claim(v, |tasks|, t)), Batched(q, tasks, |tasks|);
    ClaimKeeps(v, n, t);
    ReleaseKeeps(v1);
    Stage2Other(s, t, src, q, v, q1, v1);
    Stage2Other(s, t, src, q, v, q1, v2);
    var th6 := Thread(StealRelease(src, v.steal, v.steal + n, n), tasks);
    ThiefSteps(s, t, src, cs, q1, v1, Thread(StealCopy(src, v.steal, n, n), tasks), w, Change(t, q1, th6, w));
    ThiefSteps(s, t, src, cs + [Go], q1, v1, th6, w, Change(src, v2, Thread(StealTake(n), tasks), w));
  }

  lemma {:induction false} TasksCarried(s: State, t: nat, src: nat, q: Queue, v: Queue, w: World, tasks: seq<Task>,
                                        cs: seq<Choice>, m: nat)
    requires Stage2(s, t, src, q, v) && QueueInv(v) && v.steal == v.head && m <= |tasks| <= v.Tail() - v.head
    requires tasks == v.log[v.head..v.head + |tasks|]
    requires Gets(s, t, cs, At2(s, t, src, Batched(q, tasks, m), Claim(v, |tasks|, t),
                                Thread(StealCopy(src, v.steal, |tasks|, m), tasks), w))
    ensures Gets(s, t, cs + Gos(|tasks| - m), At2(s, t, src, Batched(q, tasks, |tasks|), Claim(v, |tasks|, t),
                                                  Thread(StealCopy(src, v.steal, |tasks|, |tasks|), tasks), w))
    decreases |tasks| - m
  {
    hide Gets, At2, Slot, Stage2;
    var n, v1 := |tasks|, Claim(v, |tasks|, t);
    if m == n {
      assert cs + Gos(0) == cs;
    } else {
      Stage2Buffers(s, t, src, q, v);
      InItsSlot(v, v.steal + m);
      var b, b' := Batched(q, tasks, m), Batched(q, tasks, m + 1);
      Stage2Other(s, t, src, q, v, b, v1);
      ThiefSteps(s, t, src, cs, b, v1, Thread(StealCopy(src, v.steal, n, m), tasks), w,
                 Change(t, b', Thread(StealCopy(src, v.steal, n, m + 1), tasks), w));
      TasksCarried(s, t, src, q, v, w, tasks, cs + [Go], m + 1);
      assert cs + [Go] + Gos(n - m - 1) == cs + Gos(n - m);
    }
  }

  lemma Stage2Buffers(s: State, t: nat, src: nat, q: Queue, v: Queue)
    requires Stage2(s, t, src, q, v)
    ensures |q.buffer| == CAPACITY && |v.buffer| == CAPACITY && t != src
  {
  }

  lemma {:induction false} LastIsRun(s: State, t: nat, src: nat, q: Queue, q1: Queue, v: Queue, w: World,
                                     tasks: seq<Task>, cs: seq<Choice>)
    requires Stage2(s, t, src, q1, v) && QueueInv(q) && 0 < |tasks| && q.Tail() + |tasks| <= q.steal + CAPACITY
    requires q1 == Batched(q, tasks, |tasks|)
    requires Gets(s, t, cs, At2(s, t, src, q1, v, Thread(StealTake(|tasks|), tasks), w))
    ensures var n := |tasks|;
      var q' := Publish(q1, tasks[..n - 1]);
      && Gets(s, t, cs + Gos(if n > 1 then 2 else 1),
              At2(s, t, src, q', v, Thread(Idle, []), Deliver(w, tasks[n - 1])))
      && QueueInv(q') && q'.thief == q.thief && q'.Content() == q.Content() + tasks[..n - 1]
  {
    hide Gets, At2, Slot, Word, Stage2, Deliver, QueueInv;
    Stage2Buffers(s, t, src, q1, v);
    var n := |tasks|;
    var rest, w' := tasks[..n - 1], Deliver(w, tasks[n - 1]);
    BatchedKeeps(q, tasks, n);
    PublishKeeps(q1, rest);
    PublishContent(q1, rest);
    var th8 := Thread(if n > 1 then StealPublish else Idle, rest);
    ThiefSteps(s, t, src, cs, q1, v, Thread(StealTake(n), tasks), w, Change(t, q1, th8, w'));
    if n > 1 {
      ThiefSteps(s, t, src, cs + [Go], q1, v, th8, w', Change(t, Publish(q1, rest), Thread(Idle, []), w'));
      assert cs + [Go] + [Go] == cs + Gos(2);
    } else {
      assert rest == [] && Publish(q1, []) == q1;
      assert cs + [Go] == cs + Gos(1);
    }
  }

  // ----- with any interleaving: when an operation ends without a task

  /** In every run, a pop that ends and delivers nothing leaves an empty queue behind. */
  lemma {:induction false} PopGivesUp(states: seq<State>, events: seq<Event>, i: nat)
    requires Run(states, events) && i < |events| && events[i].Work? && Enabled(states[i], events[i])
    requires var t := events[i].t;
      && t < |states[i + 1].threads| && Kind(states[i].threads[t].pc) == Popping
      && states[i + 1].threads[t].pc == Idle && states[i + 1].world == states[i].world
    ensures events[i].t < |states[i].queues| && QueueInv(states[i].queues[events[i].t])
    ensures states[i].queues[events[i].t].Content() == []
  {
    hide Slot, Conserved, ClaimsInv, Word;
    RunInv(states, events, i);
    var s, t := states[i], events[i].t;
    assert ThreadOk(s, t) && QueueInv(s.queues[t]);
    if s.threads[t].pc.PopTail? {
      WordsEqual(s.threads[t].pc.head, s.queues[t].Tail());
    } else if s.threads[t].pc.PopRead? {
      OneMore(s.world.delivered, s.queues[t].buffer[Slot(s.threads[t].pc.number)]);
    }
  }

  lemma OneMore(m: multiset<Task>, x: Task)
    ensures m + multiset{x} != m
  {
    assert (m + multiset{x})[x] == m[x] + 1;
  }

  /** In every run, a steal that ends and delivers nothing, and publishes nothing, has found its own ring more than
      half in use, or its victim being stolen from, or empty. */
  lemma {:induction false} StealGivesUp(states: seq<State>, events: seq<Event>, i: nat)
    requires Run(states, events) && i < |events| && events[i].Work? && Enabled(states[i], events[i])
    requires var t := events[i].t;
      && t < |states[i + 1].threads| && Kind(states[i].threads[t].pc) == Operation.Stealing
      && states[i].threads[t].pc != StealPublish
      && states[i + 1].threads[t].pc == Idle && states[i + 1].world == states[i].world
    ensures var t, pc := events[i].t, states[i].threads[events[i].t].pc;
      && t < |states[i].queues| && QueueInv(states[i].queues[t])
      && ((pc.StealOwnTail? && states[i].queues[t].Tail() > pc.steal + CAPACITY / 2)
          || (pc.StealTail? && pc.steal != pc.head)
          || (pc.StealTail? && pc.src < |states[i].queues| && QueueInv(states[i].queues[pc.src])
              && states[i].queues[pc.src].Content() == []))
  {
    hide Slot, Conserved, ClaimsInv, Word, Sub32;
    RunInv(states, events, i);
    var s, t := states[i], events[i].t;
    var pc := s.threads[t].pc;
    var q, v := s.queues[t], s.queues[Victim(pc, t)];
    assert ThreadOk(s, t) && QueueInv(q) && QueueInv(v);
    assert NoFullWrap(pc, v);
    forall x: Task ensures s.world.delivered + multiset{x} != s.world.delivered {
      OneMore(s.world.delivered, x);
    }
    match pc
    case StealOwnTail(_, steal) => Sub32IsDifference(q.Tail(), steal);
    case StealTail(_, steal, head) =>
      Sub32IsDifference(v.Tail(), head);
      WordsEqual(steal, head);
    case _ =>
  }
}

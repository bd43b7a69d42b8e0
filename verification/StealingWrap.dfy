/** What happens without the assumption that no queue sees 2^32 tasks between a
    load and its compare-exchange: a run in which a task is delivered twice. */
module StealingWrap {
  import opened Bags
  import opened Words
  import opened Wheel
  import opened Ring
  import opened Stealing
  import opened StealingSafety

  // ----- runs, without the assumption

  ghost predicate Path(states: seq<State>, events: seq<Event>, s: State, t: State) {
    && |states| == |events| + 1 && states[0] == s && states[|events|] == t
    && forall i :: 0 <= i < |events| ==> Enabled(states[i], events[i]) && states[i + 1] == Next(states[i], events[i])
  }

  ghost predicate Leads(s: State, t: State) {
    exists states: seq<State>, events: seq<Event> :: Path(states, events, s, t)
  }

  lemma Stays(s: State)
    ensures Leads(s, s)
  {
    assert Path([s], [], s, s);
  }

  lemma Goes(s: State, e: Event)
    requires Enabled(s, e)
    ensures Leads(s, Next(s, e))
  {
    hide Next;
    assert Path([s, Next(s, e)], [e], s, Next(s, e));
  }

  lemma {:induction false} GoesOn(s: State, t: State, u: State)
    requires Leads(s, t) && Leads(t, u)
    ensures Leads(s, u)
  {
    hide Next, Enabled;
    var states, events :| Path(states, events, s, t);
    var states', events' :| Path(states', events', t, u);
    var all: seq<State>, steps: seq<Event> := states[..|events|] + states', events + events';
    forall i | 0 <= i < |steps|
      ensures Enabled(all[i], steps[i]) && all[i + 1] == Next(all[i], steps[i])
    {
      if i < |events| {
        assert all[i] == states[i] && all[i + 1] == states[i + 1];
      } else {
        assert all[i] == states'[i - |events|] && all[i + 1] == states'[i - |events| + 1];
      }
    }
    assert Path(all, steps, s, u);
  }

  // ----- two workers

  /** The first two workers have moved, the queue of the first has changed, and the rest is as in `s`. */
  ghost function At(s: State, q: Queue, q1: Queue, owner: Thread, thief: Thread, w: World): State
    requires |s.queues| >= 2 && |s.threads| >= 2
  {
    State(s.queues[0 := q][1 := q1], s.threads[0 := owner][1 := thief], w)
  }

  ghost predicate Stage(s: State, q: Queue, q1: Queue, owner: Thread, thief: Thread) {
    && Shaped(s) && |s.threads| >= 2 && |q.buffer| == CAPACITY && |q1.buffer| == CAPACITY
    && Victim(owner.pc, 0) == 0 && Victim(thief.pc, 1) in {0, 1}
  }

  lemma OwnerMoves(s: State, q: Queue, q1: Queue, owner: Thread, thief: Thread, w: World, c: Choice, k: Change)
    requires Stage(s, q, q1, owner, thief) && k.queue == 0
    requires Kind(owner.pc) == Pushing ==> k == PushStep(q, owner, w, 0, c)
    requires Kind(owner.pc) == Popping ==> k == PopStep(q, owner, w, 0, c)
    requires Kind(owner.pc) in {Pushing, Popping}
    ensures Leads(At(s, q, q1, owner, thief, w), At(s, k.q, q1, k.th, thief, k.world))
  {
    hide PushStep, PopStep, Leads, Victim;
    var a := At(s, q, q1, owner, thief, w);
    assert Shaped(a);
    Goes(a, Work(0, c));
    assert Next(a, Work(0, c)) == At(s, k.q, q1, k.th, thief, k.world);
  }

  lemma OwnerStarts(s: State, q: Queue, q1: Queue, thief: Thread, w: World, c: Choice)
    requires Stage(s, q, q1, Thread(Idle, []), thief) && (c.Push? || c.Pop?)
    ensures Leads(At(s, q, q1, Thread(Idle, []), thief, w),
                  if c.Pop? then At(s, q, q1, Thread(PopHead, []), thief, w)
                  else At(s, q, q1, Thread(PushHead(c.task), [c.task]), thief,
                          w.(submitted := w.submitted + multiset{c.task})))
  {
    hide Leads;
    var a := At(s, q, q1, Thread(Idle, []), thief, w);
    assert Shaped(a);
    Goes(a, Work(0, c));
    var k := StartStep(a, 0, c);
    assert k.q == q;
    assert Next(a, Work(0, c)) == At(s, q, q1, k.th, thief, k.world);
  }

  lemma ThiefMoves(s: State, q: Queue, q1: Queue, thief: Thread, w: World, c: Choice, k: Change)
    requires Stage(s, q, q1, Thread(Idle, []), thief) && Kind(thief.pc) == Operation.Stealing
    requires k == StealStep(q1, if Victim(thief.pc, 1) == 0 then q else q1, thief, w, 1, Victim(thief.pc, 1), c)
    requires k.queue in {0, 1}
    ensures Leads(At(s, q, q1, Thread(Idle, []), thief, w),
                  At(s, if k.queue == 0 then k.q else q, if k.queue == 1 then k.q else q1,
                     Thread(Idle, []), k.th, k.world))
  {
    hide StealStep, Leads, Victim;
    var a := At(s, q, q1, Thread(Idle, []), thief, w);
    assert Shaped(a);
    Goes(a, Work(1, c));
    assert Next(a, Work(1, c))
        == At(s, if k.queue == 0 then k.q else q, if k.queue == 1 then k.q else q1, Thread(Idle, []), k.th, k.world);
  }

  lemma ThiefStarts(s: State, q: Queue, q1: Queue, w: World)
    requires Stage(s, q, q1, Thread(Idle, []), Thread(Idle, []))
    ensures Leads(At(s, q, q1, Thread(Idle, []), Thread(Idle, []), w),
                  At(s, q, q1, Thread(Idle, []), Thread(StealOwnHead(0), []), w))
  {
    hide Leads;
    var a := At(s, q, q1, Thread(Idle, []), Thread(Idle, []), w);
    assert Shaped(a);
    Goes(a, Work(1, Steal(0)));
    var k := StartStep(a, 1, Steal(0));
    assert k.q == q1;
    assert Next(a, Work(1, Steal(0))) == At(s, q, q1, Thread(Idle, []), k.th, w);
  }

  // ----- a task comes and goes

  ghost predicate Empty(q: Queue, n: nat) {
    q.steal == q.head == |q.log| == n && q.thief == None && |q.buffer| == CAPACITY
  }

  lemma {:induction false} Pushes(s: State, q: Queue, q1: Queue, thief: Thread, w: World, n: nat, task: Task)
    requires Stage(s, q, q1, Thread(Idle, []), thief) && Empty(q, n)
    ensures Leads(At(s, q, q1, Thread(Idle, []), thief, w),
                  At(s, Publish(Write(q, n, task), [task]), q1, Thread(Idle, []), thief,
                     w.(submitted := w.submitted + multiset{task})))
  {
    hide Leads, At, Slot;
    var s0 := At(s, q, q1, Thread(Idle, []), thief, w);
    var w' := w.(submitted := w.submitted + multiset{task});
    OwnerStarts(s, q, q1, thief, w, Push(task));
    var th1, th2 := Thread(PushHead(task), [task]), Thread(PushTail(task, n, n), [task]);
    OwnerMoves(s, q, q1, th1, thief, w', Go, Change(0, q, th2, w'));
    GoesOn(s0, At(s, q, q1, th1, thief, w'), At(s, q, q1, th2, thief, w'));
    var th3, th4 := Thread(PushWrite(task), [task]), Thread(PushPublish(task), [task]);
    Sub32IsDifference(n, n);
    OwnerMoves(s, q, q1, th2, thief, w', Go, Change(0, q, th3, w'));
    GoesOn(s0, At(s, q, q1, th2, thief, w'), At(s, q, q1, th3, thief, w'));
    var q2 := Write(q, n, task);
    OwnerMoves(s, q, q1, th3, thief, w', Go, Change(0, q2, th4, w'));
    GoesOn(s0, At(s, q, q1, th3, thief, w'), At(s, q2, q1, th4, thief, w'));
    var q3 := Publish(q2, [task]);
    OwnerMoves(s, q2, q1, th4, thief, w', Go, Change(0, q3, Thread(Idle, []), w'));
    GoesOn(s0, At(s, q2, q1, th4, thief, w'), At(s, q3, q1, Thread(Idle, []), thief, w'));
  }

  lemma {:induction false} Pops(s: State, q: Queue, q1: Queue, thief: Thread, w: World, n: nat, task: Task)
    requires Stage(s, q, q1, Thread(Idle, []), thief)
    requires q.steal == q.head == n && |q.log| == n + 1 && q.buffer[Slot(n)] == task
    ensures Leads(At(s, q, q1, Thread(Idle, []), thief, w),
                  At(s, q.(steal := n + 1, head := n + 1), q1, Thread(Idle, []), thief, Deliver(w, task)))
  {
    hide Leads, At, Slot, Deliver;
    var s0 := At(s, q, q1, Thread(Idle, []), thief, w);
    OwnerStarts(s, q, q1, thief, w, Pop);
    var th1, th2, th3 := Thread(PopHead, []), Thread(PopTail(n, n), []), Thread(PopSwap(n, n), []);
    OwnerMoves(s, q, q1, th1, thief, w, Go, Change(0, q, th2, w));
    GoesOn(s0, At(s, q, q1, th1, thief, w), At(s, q, q1, th2, thief, w));
    WordsEqual(n, n + 1);
    OwnerMoves(s, q, q1, th2, thief, w, Go, Change(0, q, th3, w));
    GoesOn(s0, At(s, q, q1, th2, thief, w), At(s, q, q1, th3, thief, w));
    var q2, th4 := q.(steal := n + 1, head := n + 1), Thread(PopRead(n), First(q, 1));
    OwnerMoves(s, q, q1, th3, thief, w, Go, Change(0, q2, th4, w));
    GoesOn(s0, At(s, q, q1, th3, thief, w), At(s, q2, q1, th4, thief, w));
    OwnerMoves(s, q2, q1, th4, thief, w, Go, Change(0, q2, Thread(Idle, []), Deliver(w, task)));
    GoesOn(s0, At(s, q2, q1, th4, thief, w), At(s, q2, q1, Thread(Idle, []), thief, Deliver(w, task)));
  }

  // ----- many tasks come and go

  /** The first `n` tasks have come and gone; the last of them are still in their slots. */
  ghost predicate Passed(q: Queue, n: nat) {
    Empty(q, n) && forall k :: 0 <= k < n && n - CAPACITY <= k ==> q.buffer[Slot(k)] == k
  }

  function Numbers(n: nat): multiset<Task> {
    if n == 0 then multiset{} else Numbers(n - 1) + multiset{n - 1}
  }

  lemma {:induction false} NumbersOnce(n: nat, x: Task)
    ensures Numbers(n)[x] == if x < n then 1 else 0
    decreases n
  {
    if n > 0 {
      NumbersOnce(n - 1, x);
    }
  }

  ghost function Done(w: World, n: nat): World {
    w.(submitted := w.submitted + Numbers(n), delivered := w.delivered + Numbers(n))
  }

  lemma DoneMore(w: World, n: nat)
    ensures Deliver(Done(w, n).(submitted := Done(w, n).submitted + multiset{n}), n) == Done(w, n + 1)
  {
  }

  lemma SlotsApart(k: nat, n: nat)
    requires k < n < k + CAPACITY
    ensures Slot(k) != Slot(n)
  {
  }

  lemma {:induction false} OnePasses(s: State, q: Queue, q1: Queue, thief: Thread, w: World, n: nat) returns (q': Queue)
    requires |s.queues| >= 2 && |s.threads| >= 2
    requires Stage(s, q, q1, Thread(Idle, []), thief) && Passed(q, n)
    ensures Passed(q', n + 1)
    ensures Leads(At(s, q, q1, Thread(Idle, []), thief, Done(w, n)),
                  At(s, q', q1, Thread(Idle, []), thief, Done(w, n + 1)))
  {
    hide Leads, At, Slot, Stage, Done, Deliver;
    var q2, w2 := Publish(Write(q, n, n), [n]), Done(w, n).(submitted := Done(w, n).submitted + multiset{n});
    Pushes(s, q, q1, thief, Done(w, n), n, n);
    StageStays(s, q, q1, thief, q2);
    Pops(s, q2, q1, thief, w2, n, n);
    q' := q2.(steal := n + 1, head := n + 1);
    forall k | 0 <= k < n && n + 1 - CAPACITY <= k
      ensures q'.buffer[Slot(k)] == k
    {
      SlotsApart(k, n);
    }
    DoneMore(w, n);
    GoesOn(At(s, q, q1, Thread(Idle, []), thief, Done(w, n)), At(s, q2, q1, Thread(Idle, []), thief, w2),
           At(s, q', q1, Thread(Idle, []), thief, Done(w, n + 1)));
  }

  lemma StageStays(s: State, q: Queue, q1: Queue, thief: Thread, q': Queue)
    requires Stage(s, q, q1, Thread(Idle, []), thief) && |q'.buffer| == CAPACITY
    ensures Stage(s, q', q1, Thread(Idle, []), thief)
  {
  }

  lemma {:induction false} ManyPass(s: State, q: Queue, q1: Queue, thief: Thread, w: World, n: nat, m: nat)
    returns (q': Queue)
    requires |s.queues| >= 2 && |s.threads| >= 2
    requires Stage(s, q, q1, Thread(Idle, []), thief) && Passed(q, n) && n <= m
    ensures Passed(q', m)
    ensures Leads(At(s, q, q1, Thread(Idle, []), thief, Done(w, n)), At(s, q', q1, Thread(Idle, []), thief, Done(w, m)))
    decreases m - n
  {
    hide Leads, At, Stage, Done, Slot;
    var s0 := At(s, q, q1, Thread(Idle, []), thief, Done(w, n));
    if n == m {
      Stays(s0);
      q' := q;
    } else {
      var q2 := OnePasses(s, q, q1, thief, w, n);
      StageStays(s, q, q1, thief, q2);
      q' := ManyPass(s, q2, q1, thief, w, n + 1, m);
      GoesOn(s0, At(s, q2, q1, Thread(Idle, []), thief, Done(w, n + 1)),
             At(s, q', q1, Thread(Idle, []), thief, Done(w, m)));
    }
  }

  // ----- the thief

  /** With one task in the queue, the thief loads the counters and decides to claim that task. */
  lemma {:induction false} ThiefLoads(s: State, q: Queue, q1: Queue, w: World)
    requires Stage(s, q, q1, Thread(Idle, []), Thread(Idle, [])) && Empty(q1, 0)
    requires q.steal == q.head == 0 && |q.log| == 1
    ensures Leads(At(s, q, q1, Thread(Idle, []), Thread(Idle, []), w),
                  At(s, q, q1, Thread(Idle, []), Thread(StealClaim(0, 0, 0, 1), []), w))
  {
    hide Leads, At;
    var idle := Thread(Idle, []);
    var s0 := At(s, q, q1, idle, idle, w);
    ThiefStarts(s, q, q1, w);
    var th1, th2, th3 := Thread(StealOwnHead(0), []), Thread(StealOwnTail(0, 0), []), Thread(StealHead(0), []);
    ThiefMoves(s, q, q1, th1, w, Go, Change(1, q1, th2, w));
    GoesOn(s0, At(s, q, q1, idle, th1, w), At(s, q, q1, idle, th2, w));
    Sub32IsDifference(0, 0);
    ThiefMoves(s, q, q1, th2, w, Go, Change(1, q1, th3, w));
    GoesOn(s0, At(s, q, q1, idle, th2, w), At(s, q, q1, idle, th3, w));
    var th4, th5 := Thread(StealTail(0, 0, 0), []), Thread(StealClaim(0, 0, 0, 1), []);
    ThiefMoves(s, q, q1, th3, w, Go, Change(1, q1, th4, w));
    GoesOn(s0, At(s, q, q1, idle, th3, w), At(s, q, q1, idle, th4, w));
    Sub32IsDifference(1, 0);
    ThiefMoves(s, q, q1, th4, w, Go, Change(1, q1, th5, w));
    GoesOn(s0, At(s, q, q1, idle, th4, w), At(s, q, q1, idle, th5, w));
  }

  /** With 2^32 tasks gone by, its compare-exchange succeeds on the empty queue, and it delivers what it finds. */
  lemma {:induction false} ThiefIsFooled(s: State, q: Queue, q1: Queue, w: World) returns (q': Queue, q1': Queue)
    requires Stage(s, q, q1, Thread(Idle, []), Thread(Idle, [])) && Empty(q1, 0) && Empty(q, W32)
    ensures Leads(At(s, q, q1, Thread(Idle, []), Thread(StealClaim(0, 0, 0, 1), []), w),
                  At(s, q', q1', Thread(Idle, []), Thread(Idle, []), Deliver(w, q.buffer[Slot(0)])))
  {
    hide Leads, At, Slot, Deliver;
    var idle, task := Thread(Idle, []), q.buffer[Slot(0)];
    var th0, th1 := Thread(StealClaim(0, 0, 0, 1), []), Thread(StealCopy(0, 0, 1, 0), []);
    var s0 := At(s, q, q1, idle, th0, w);
    var q2 := Claim(q, 1, 1);
    ThiefMoves(s, q, q1, th0, w, Go, Change(0, q2, th1, w));
    var q3, th2 := Write(q1, 0, task), Thread(StealCopy(0, 0, 1, 1), []);
    ThiefMoves(s, q2, q1, th1, w, Go, Change(1, q3, th2, w));
    GoesOn(s0, At(s, q2, q1, idle, th1, w), At(s, q2, q3, idle, th2, w));
    var th3 := Thread(StealRelease(0, 0, 1, 1), []);
    ThiefMoves(s, q2, q3, th2, w, Go, Change(1, q3, th3, w));
    GoesOn(s0, At(s, q2, q3, idle, th2, w), At(s, q2, q3, idle, th3, w));
    var q4, th4 := Release(q2), Thread(StealTake(1), []);
    ThiefMoves(s, q2, q3, th3, w, Go, Change(0, q4, th4, w));
    GoesOn(s0, At(s, q2, q3, idle, th3, w), At(s, q4, q3, idle, th4, w));
    ThiefMoves(s, q4, q3, th4, w, Go, Change(1, q3, idle, Deliver(w, task)));
    GoesOn(s0, At(s, q4, q3, idle, th4, w), At(s, q4, q3, idle, idle, Deliver(w, task)));
    q', q1' := q4, q3;
  }

  /** The assumption cannot be dropped: from any start with two workers or more there is a run in which
      a task that was submitted once is delivered twice. */
  lemma {:induction false} WrapDeliversTwice(s: State) returns (states: seq<State>, events: seq<Event>, task: Task)
    requires Initial(s) && |s.threads| >= 2 && s.world.global == []
    ensures |states| == |events| + 1 && Path(states, events, s, states[|events|])
    ensures states[|events|].world.submitted[task] == 1 && states[|events|].world.delivered[task] == 2
  {
    hide Leads, Stage, Slot, Next, Enabled, Path, Deliver, At;
    var idle, th, q1, w := Thread(Idle, []), Thread(StealClaim(0, 0, 0, 1), []), s.queues[1], s.world;
    var q := ThiefStalls(s);
    StageSet(s);
    StageStays(s, s.queues[0], q1, th, q);
    var q' := ManyPass(s, q, q1, th, w, 1, W32);
    GoesOn(s, At(s, q, q1, idle, th, Done(w, 1)), At(s, q', q1, idle, th, Done(w, W32)));
    StageStays(s, s.queues[0], q1, idle, q');
    var q2, q3 := ThiefIsFooled(s, q', q1, Done(w, W32));
    var last := At(s, q2, q3, idle, idle, Deliver(Done(w, W32), q'.buffer[Slot(0)]));
    GoesOn(s, At(s, q', q1, idle, th, Done(w, W32)), last);
    task := W32 - CAPACITY;
    SameSlot();
    Twice(s, q2, q3, w, task);
    states, events := Witness(s, last);
  }

  lemma Twice(s: State, q: Queue, q1: Queue, w: World, task: Task)
    requires |s.queues| >= 2 && |s.threads| >= 2
    requires w.submitted == w.delivered == multiset{} && task < W32
    ensures var last := At(s, q, q1, Thread(Idle, []), Thread(Idle, []), Deliver(Done(w, W32), task));
      last.world.submitted[task] == 1 && last.world.delivered[task] == 2
  {
    hide Numbers;
    NumbersOnce(W32, task);
  }

  /** The first task comes, the thief loads the counters, and the task goes before the thief's compare-exchange. */
  lemma {:induction false} ThiefStalls(s: State) returns (q': Queue)
    requires Initial(s) && |s.threads| >= 2
    ensures |s.queues| >= 2 && Passed(q', 1)
    ensures Leads(s, At(s, q', s.queues[1], Thread(Idle, []), Thread(StealClaim(0, 0, 0, 1), []), Done(s.world, 1)))
  {
    hide Leads, Stage, Slot, At, Done, Deliver;
    StageSet(s);
    var idle, th, q, q1, w := Thread(Idle, []), Thread(StealClaim(0, 0, 0, 1), []), s.queues[0], s.queues[1], s.world;
    var q2, w2 := Publish(Write(q, 0, 0), [0]), Done(w, 0).(submitted := Done(w, 0).submitted + multiset{0});
    NothingDone(w);
    Pushes(s, q, q1, idle, w, 0, 0);
    StageStays(s, q, q1, idle, q2);
    ThiefLoads(s, q2, q1, w2);
    GoesOn(s, At(s, q2, q1, idle, idle, w2), At(s, q2, q1, idle, th, w2));
    StageStays(s, q, q1, th, q2);
    Pops(s, q2, q1, th, w2, 0, 0);
    DoneMore(w, 0);
    q' := q2.(steal := 1, head := 1);
    GoesOn(s, At(s, q2, q1, idle, th, w2), At(s, q', q1, idle, th, Done(w, 1)));
  }

  lemma NothingDone(w: World)
    ensures Done(w, 0) == w
  {
  }

  lemma Witness(s: State, t: State) returns (states: seq<State>, events: seq<Event>)
    requires Leads(s, t)
    ensures Path(states, events, s, t) && |states| == |events| + 1 && states[|events|] == t
  {
    states, events :| Path(states, events, s, t);
  }

  lemma SameSlot()
    ensures Slot(W32 - CAPACITY) == Slot(0)
  {
  }

  lemma StageSet(s: State)
    requires Initial(s) && |s.threads| >= 2
    ensures |s.queues| >= 2
    ensures var q, q1, idle, th := s.queues[0], s.queues[1], Thread(Idle, []), Thread(StealClaim(0, 0, 0, 1), []);
      && Stage(s, q, q1, idle, idle) && Stage(s, q, q1, idle, th) && Empty(q, 0) && Empty(q1, 0)
      && s == At(s, q, q1, idle, idle, s.world)
      && s.world.delivered == multiset{} && (s.world.global == [] ==> s.world.submitted == multiset{})
  {
  }
}

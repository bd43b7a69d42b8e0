/** Safety of the work-stealing protocol over all runs: no task is lost or
    delivered twice, whatever the interleaving of owners and thieves. */
module StealingSafety {
  import opened Bags
  import opened Words
  import opened Wheel
  import opened Ring
  import opened Stealing
  import opened StealingInv

  ghost function QueueBags(queues: seq<Queue>): (bags: seq<multiset<Task>>)
    ensures |bags| == |queues|
    ensures forall x :: 0 <= x < |queues| ==> bags[x] == Waiting(queues[x])
  {
    seq(|queues|, x requires 0 <= x < |queues| => Waiting(queues[x]))
  }

  ghost function HeldBags(threads: seq<Thread>): (bags: seq<multiset<Task>>)
    ensures |bags| == |threads|
    ensures forall t :: 0 <= t < |threads| ==> bags[t] == multiset(threads[t].held)
  {
    seq(|threads|, t requires 0 <= t < |threads| => multiset(threads[t].held))
  }

  /** All tasks in the scheduler, place by place: waiting in a local queue, in a thread's
      hands, in the global queue, delivered, or dropped by a push after the close. */
  ghost function Everywhere(s: State): multiset<Task> {
    Sum(QueueBags(s.queues)) + Sum(HeldBags(s.threads)) + Outside(s.world)
  }

  ghost predicate Conserved(s: State) {
    Everywhere(s) == s.world.submitted
  }

  ghost predicate QueuesInv(s: State) {
    forall x :: 0 <= x < |s.queues| ==> QueueInv(s.queues[x])
  }

  ghost predicate ThreadOk(s: State, t: nat)
    requires Shaped(s) && t < |s.threads|
  {
    ThreadInv(s.threads[t], s.queues[t], s.queues[Victim(s.threads[t].pc, t)], t)
  }

  ghost predicate ThreadsInv(s: State)
    requires Shaped(s)
  {
    forall t :: 0 <= t < |s.threads| ==> ThreadOk(s, t)
  }

  /** The claim on a queue belongs to exactly the thread that is between claim and release. */
  ghost predicate ClaimsInv(s: State) {
    forall t, x :: 0 <= t < |s.threads| && 0 <= x < |s.queues| ==>
      (Stealer(s.threads[t].pc, x) <==> s.queues[x].thief == Some(t))
  }

  ghost predicate Inv(s: State) {
    Shaped(s) && QueuesInv(s) && ThreadsInv(s) && ClaimsInv(s) && Conserved(s)
  }

  /** The assumption, for every thread. */
  ghost predicate NoWrap(s: State)
    requires Shaped(s)
  {
    forall t :: 0 <= t < |s.threads| ==> NoFullWrap(s.threads[t].pc, s.queues[Victim(s.threads[t].pc, t)])
  }

  // ----- a step of one thread leaves the others' assertions true

  lemma {:induction false} IntactStable(q: Queue, q': Queue, actor: nat, x: nat, lo: nat, hi: nat)
    requires Intact(q, lo, hi) && Evolves(q, q', actor, x) && actor != x
    ensures Intact(q', lo, hi)
  {
  }

  lemma {:induction false} WrittenStable(q: Queue, q': Queue, actor: nat, x: nat, tasks: seq<Task>, n: nat)
    requires Written(q, tasks, n) && Evolves(q, q', actor, x) && actor != x
    ensures Written(q', tasks, n)
  {
  }

  lemma {:induction false} PushStable(th: Thread, q: Queue, q': Queue, actor: nat, u: nat)
    requires PushInv(th, q) && Evolves(q, q', actor, u) && actor != u
    ensures PushInv(th, q')
  {
    hide Intact, Written, Slot;
    match th.pc
    case PushPublish(task) => WrittenStable(q, q', actor, u, [task], 1);
    case OverflowCopy(_, head, _) => IntactStable(q, q', actor, u, head, head + CAPACITY / 2);
    case _ =>
  }

  lemma {:induction false} PopStable(th: Thread, q: Queue, q': Queue, actor: nat, u: nat)
    requires PopInv(th, q) && Evolves(q, q', actor, u) && actor != u
    ensures PopInv(th, q')
  {
  }

  lemma {:induction false} RefillStable(th: Thread, q: Queue, q': Queue, actor: nat, u: nat)
    requires RefillInv(th, q) && Evolves(q, q', actor, u) && actor != u
    ensures RefillInv(th, q')
  {
    hide Written, Slot;
    match th.pc
    case BatchWrite(tasks, written) => WrittenStable(q, q', actor, u, tasks, written);
    case _ =>
  }

  lemma {:induction false} StealStable(th: Thread, q: Queue, q': Queue, v: Queue, v': Queue, actor: nat, u: nat, x: nat)
    requires StealInv(th, q, v, u) && actor != u
    requires Evolves(q, q', actor, u) && Evolves(v, v', actor, x) && QueueInv(v')
    ensures StealInv(th, q', v', u)
  {
    hide Written, Slot, Intact;
    match th.pc
    case StealCopy(_, first, n, moved) =>
      WrittenStable(q, q', actor, u, th.held, moved);
      assert v'.log[first..first + n] == v.log[first..first + n];
    case StealRelease(_, _, _, n) => WrittenStable(q, q', actor, u, th.held, n);
    case StealTake(n) => WrittenStable(q, q', actor, u, th.held, n);
    case StealPublish => WrittenStable(q, q', actor, u, th.held, |th.held|);
    case _ =>
  }

  lemma {:induction false} ThreadStable(th: Thread, q: Queue, q': Queue, v: Queue, v': Queue, actor: nat, u: nat,
                                        x: nat)
    requires ThreadInv(th, q, v, u) && actor != u
    requires Evolves(q, q', actor, u) && Evolves(v, v', actor, x) && QueueInv(v')
    ensures ThreadInv(th, q', v', u)
  {
    hide PushInv, PopInv, RefillInv, StealInv, Evolves, QueueInv;
    match Kind(th.pc)
    case Starting =>
    case Pushing => PushStable(th, q, q', actor, u);
    case Popping => PopStable(th, q, q', actor, u);
    case Refilling => RefillStable(th, q, q', actor, u);
    case Stealing => StealStable(th, q, q', v, v', actor, u, x);
  }

  // ----- what a step achieves, in terms of the whole state

  ghost predicate Outcome(s: State, t: nat, k: Change)
    requires Shaped(s) && t < |s.threads|
  {
    && k.queue < |s.queues|
    && Good(s.queues[k.queue], s.threads[t], s.world, t, k)
    && Victim(k.th.pc, t) < |s.queues|
    && var queues := s.queues[k.queue := k.q];
       && ThreadInv(k.th, queues[t], queues[Victim(k.th.pc, t)], t)
       && forall x :: 0 <= x < |queues| ==> (Stealer(k.th.pc, x) <==> queues[x].thief == Some(t))
  }

  ghost predicate LinkedTo(s: State, t: nat)
    requires t < |s.threads|
  {
    forall x :: 0 <= x < |s.queues| ==> (Stealer(s.threads[t].pc, x) <==> s.queues[x].thief == Some(t))
  }

  lemma {:induction false} OwnOutcome(s: State, t: nat, k: Change)
    requires Shaped(s) && t < |s.threads| && LinkedTo(s, t)
    requires !s.threads[t].pc.StealCopy? && !s.threads[t].pc.StealRelease?
    requires Kept(s.queues[t], s.threads[t], s.world, t, k) && Kind(k.th.pc) != Stealing
    ensures Outcome(s, t, k)
  {
    hide Good, Victim;
    NotStealing(k.th.pc, t);
    OwnVictim(k.th, k.q, k.q, k.q, t);
  }

  lemma NotStealing(pc: Pc, t: nat)
    requires Kind(pc) != Stealing
    ensures Victim(pc, t) == t
  {
  }

  lemma OwnVictim(th: Thread, q: Queue, v: Queue, v': Queue, t: nat)
    requires ThreadInv(th, q, v, t) && Kind(th.pc) != Stealing
    ensures ThreadInv(th, q, v', t)
  {
  }

  lemma {:induction false} PushOutcome(s: State, t: nat, c: Choice)
    requires Shaped(s) && t < |s.threads| && LinkedTo(s, t)
    requires QueueInv(s.queues[t]) && ThreadOk(s, t) && Kind(s.threads[t].pc) == Pushing
    ensures Outcome(s, t, Step(s, t, c))
  {
    hide Outcome, QueueInv, PushInv, LinkedTo, Kept;
    PushKeeps(s.queues[t], s.threads[t], s.world, t, c);
    OwnOutcome(s, t, Step(s, t, c));
  }

  lemma {:induction false} PopOutcome(s: State, t: nat, c: Choice)
    requires Shaped(s) && t < |s.threads| && LinkedTo(s, t)
    requires QueueInv(s.queues[t]) && ThreadOk(s, t) && Kind(s.threads[t].pc) == Popping
    ensures Outcome(s, t, Step(s, t, c))
  {
    hide Outcome, QueueInv, PopInv, LinkedTo, Kept;
    PopKeeps(s.queues[t], s.threads[t], s.world, t, c);
    OwnOutcome(s, t, Step(s, t, c));
  }

  lemma {:induction false} RefillOutcome(s: State, t: nat, c: Choice)
    requires Shaped(s) && t < |s.threads| && LinkedTo(s, t)
    requires QueueInv(s.queues[t]) && ThreadOk(s, t) && Kind(s.threads[t].pc) == Refilling
    ensures Outcome(s, t, Step(s, t, c))
  {
    hide Outcome, QueueInv, RefillInv, LinkedTo, Kept;
    RefillKeeps(s.queues[t], s.threads[t], s.world, t, c);
    OwnOutcome(s, t, Step(s, t, c));
  }

  lemma {:induction false} StartOutcome(s: State, t: nat, c: Choice)
    requires Shaped(s) && t < |s.threads| && LinkedTo(s, t)
    requires QueueInv(s.queues[t]) && ThreadOk(s, t) && s.threads[t].pc == Idle
    ensures Outcome(s, t, Step(s, t, c))
  {
    hide QueueInv, Good, Outside, Deliver, Slot;
    var q, th, w := s.queues[t], s.threads[t], s.world;
    var k := Step(s, t, c);
    match c
    case Push(task) => SubmitGood(q, th, w, t, k, task);
    case PullOne => PullOneGood(q, th, w, t, k);
    case _ => Quiet(q, th, w, t, k);
  }

  lemma {:induction false} PullOneGood(q: Queue, th: Thread, w: World, t: nat, k: Change)
    requires QueueInv(q) && k.q == q && th.held == [] && k.th == Thread(Idle, [])
    requires k.world == if w.global == [] then w else Deliver(w.(global := w.global[1..]), w.global[0])
    ensures Good(q, th, w, t, k)
  {
    hide QueueInv, Good, Outside, Deliver;
    if w.global == [] {
      Quiet(q, th, w, t, k);
    } else {
      PullBag(w, 1);
      HandOut(q, th, w, t, k);
    }
  }

  lemma {:induction false} SubmitGood(q: Queue, th: Thread, w: World, t: nat, k: Change, task: Task)
    requires QueueInv(q) && k.q == q && th.held == [] && k.th.held == [task]
    requires k.world == w.(submitted := w.submitted + multiset{task})
    ensures Good(q, th, w, t, k)
  {
    hide QueueInv, Waiting;
    assert Outside(k.world) == Outside(w);
  }

  lemma {:induction false} StealOutcome(s: State, t: nat, c: Choice)
    requires Shaped(s) && t < |s.threads| && LinkedTo(s, t)
    requires QueuesInv(s) && ThreadOk(s, t) && Kind(s.threads[t].pc) == Stealing
    requires NoFullWrap(s.threads[t].pc, s.queues[Victim(s.threads[t].pc, t)])
    ensures Outcome(s, t, Step(s, t, c))
  {
    hide QueueInv, StealInv, Good, StealStep, NoFullWrap, ThreadInv, Victim;
    var pc := s.threads[t].pc;
    var src := Victim(pc, t);
    StealThreadInv(s.threads[t], s.queues[t], s.queues[src], t);
    StealKeeps(s.queues[t], s.queues[src], s.threads[t], s.world, t, c);
    StealKeptOutcome(s, t, src, Step(s, t, c));
  }

  lemma StealThreadInv(th: Thread, q: Queue, v: Queue, t: nat)
    requires ThreadInv(th, q, v, t) && Kind(th.pc) == Stealing
    ensures StealInv(th, q, v, t)
  {
  }

  /** A stealing thread has another thread's queue as its victim, until it only publishes. */
  lemma {:induction false} StealKeptOutcome(s: State, t: nat, src: nat, k: Change)
    requires Shaped(s) && t < |s.threads| && LinkedTo(s, t) && src == Victim(s.threads[t].pc, t)
    requires StealKept(s.queues[t], s.queues[src], s.threads[t], s.world, t, src, k)
    requires src == t ==> !s.threads[t].pc.StealCopy? && !s.threads[t].pc.StealRelease?
    ensures Outcome(s, t, k)
  {
    hide Good, ThreadInv;
    var queues := s.queues[k.queue := k.q];
    if Victim(k.th.pc, t) == t {
      if k.queue == t {
        VictimSame(k.th, k.q, s.queues[src], k.q, t);
      } else {
        VictimSame(k.th, s.queues[t], k.q, s.queues[t], t);
      }
    }
  }

  lemma VictimSame(th: Thread, q: Queue, v: Queue, v': Queue, t: nat)
    requires ThreadInv(th, q, v, t) && Victim(th.pc, t) == t
    ensures ThreadInv(th, q, v', t)
  {
  }

  lemma {:induction false} Outcomes(s: State, t: nat, c: Choice)
    requires Inv(s) && NoWrap(s) && t < |s.threads|
    ensures Outcome(s, t, Step(s, t, c))
  {
    hide Outcome, QueueInv, ThreadInv, Step, Conserved, NoFullWrap, Victim;
    assert LinkedTo(s, t) && ThreadOk(s, t);
    match Kind(s.threads[t].pc)
    case Starting =>
      OnlyIdleStarts(s.threads[t].pc);
      StartOutcome(s, t, c);
    case Pushing => PushOutcome(s, t, c);
    case Popping => PopOutcome(s, t, c);
    case Refilling => RefillOutcome(s, t, c);
    case Stealing => StealOutcome(s, t, c);
  }

  lemma OnlyIdleStarts(pc: Pc)
    requires Kind(pc) == Starting
    ensures pc == Idle
  {
  }

  // ----- the invariant is kept by every step

  lemma {:induction false} QueuesKept(s: State, t: nat, k: Change)
    requires Inv(s) && t < |s.threads| && Outcome(s, t, k)
    ensures QueuesInv(Apply(s, t, k))
  {
    hide QueueInv, ThreadsInv, ClaimsInv, Conserved, ThreadInv, Evolves, Balanced, Stealer, Victim;
  }

  lemma {:induction false} EvolvesSelf(q: Queue, actor: nat, x: nat)
    ensures Evolves(q, q, actor, x)
  {
  }

  lemma {:induction false} ThreadsKept(s: State, t: nat, k: Change)
    requires Inv(s) && t < |s.threads| && Outcome(s, t, k)
    ensures Shaped(Apply(s, t, k)) && ThreadsInv(Apply(s, t, k))
  {
    hide ClaimsInv, Conserved, ThreadInv, Evolves, Balanced, Stealer, Victim, Waiting, Outside;
    var s' := Apply(s, t, k);
    QueuesKept(s, t, k);
    ShapedKept(s, t, k);
    forall u | 0 <= u < |s'.threads|
      ensures ThreadOk(s', u)
    {
      if u != t {
        var x := Victim(s.threads[u].pc, u);
        assert ThreadOk(s, u);
        EvolvesSelf(s.queues[u], t, u);
        EvolvesSelf(s.queues[x], t, x);
        ThreadStable(s.threads[u], s.queues[u], s'.queues[u], s.queues[x], s'.queues[x], t, u, x);
      }
    }
  }

  lemma {:induction false} ShapedKept(s: State, t: nat, k: Change)
    requires Inv(s) && t < |s.threads| && Outcome(s, t, k)
    ensures Shaped(Apply(s, t, k))
  {
    hide ClaimsInv, ThreadsInv, Conserved, ThreadInv, Evolves, Balanced, Stealer, Victim, Intact;
  }

  lemma {:induction false} ClaimsKept(s: State, t: nat, k: Change)
    requires Inv(s) && t < |s.threads| && Outcome(s, t, k)
    ensures ClaimsInv(Apply(s, t, k))
  {
    hide QueueInv, ThreadsInv, QueuesInv, Conserved, ThreadInv, Balanced, Stealer, Victim;
    var s' := Apply(s, t, k);
    forall u, x | 0 <= u < |s'.threads| && 0 <= x < |s'.queues|
      ensures Stealer(s'.threads[u].pc, x) <==> s'.queues[x].thief == Some(u)
    {
      assert Stealer(s.threads[u].pc, x) <==> s.queues[x].thief == Some(u);
    }
  }

  lemma {:induction false} ConservedKept(s: State, t: nat, k: Change)
    requires Inv(s) && t < |s.threads| && Outcome(s, t, k)
    ensures Conserved(Apply(s, t, k))
  {
    hide QueueInv, ThreadsInv, QueuesInv, ClaimsInv, ThreadInv, Evolves, Stealer, Victim, Waiting, Outside;
    var s' := Apply(s, t, k);
    var x, q := k.queue, s.queues[k.queue];
    assert QueueBags(s'.queues) == QueueBags(s.queues)[x := Waiting(k.q)];
    assert HeldBags(s'.threads) == HeldBags(s.threads)[t := multiset(k.th.held)];
    SumUpdate(QueueBags(s.queues), x, Waiting(k.q));
    SumUpdate(HeldBags(s.threads), t, multiset(k.th.held));
    Ledger(Sum(QueueBags(s.queues)), Sum(QueueBags(s'.queues)), Waiting(q), Waiting(k.q),
           Sum(HeldBags(s.threads)), Sum(HeldBags(s'.threads)), multiset(s.threads[t].held), multiset(k.th.held),
           Outside(s.world), Outside(k.world), s.world.submitted, k.world.submitted);
  }

  /** A balanced exchange between one queue, one thread and the world keeps the books balanced. */
  lemma {:induction false} Ledger<T>(queues: multiset<T>, queues': multiset<T>, q: multiset<T>, q': multiset<T>,
                                     hands: multiset<T>, hands': multiset<T>, h: multiset<T>, h': multiset<T>,
                                     out: multiset<T>, out': multiset<T>, sub: multiset<T>, sub': multiset<T>)
    requires queues' + q == queues + q'
    requires hands' + h == hands + h'
    requires q' + h' + out' + sub == q + h + out + sub'
    requires queues + hands + out == sub
    ensures queues' + hands' + out' == sub'
  {
    forall e
      ensures (queues' + hands' + out')[e] == sub'[e]
    {
      assert (queues' + q)[e] == (queues + q')[e];
      assert (hands' + h)[e] == (hands + h')[e];
      assert (q' + h' + out' + sub)[e] == (q + h + out + sub')[e];
      assert (queues + hands + out)[e] == sub[e];
    }
  }

  lemma {:induction false} WorkKeeps(s: State, t: nat, c: Choice)
    requires Inv(s) && NoWrap(s) && t < |s.threads|
    ensures Inv(Next(s, Work(t, c)))
  {
    hide QueuesInv, ThreadsInv, ClaimsInv, Conserved, Outcome, Apply, Step, NoWrap;
    var k := Step(s, t, c);
    Outcomes(s, t, c);
    ChangesQueue(s, t, k);
    QueuesKept(s, t, k);
    ThreadsKept(s, t, k);
    ClaimsKept(s, t, k);
    ConservedKept(s, t, k);
  }

  lemma ChangesQueue(s: State, t: nat, k: Change)
    requires Shaped(s) && t < |s.threads| && Outcome(s, t, k)
    ensures k.queue < |s.queues|
  {
  }

  lemma {:induction false} OutsideKeeps(s: State, e: Event)
    requires Inv(s) && !e.Work?
    ensures Inv(Next(s, e))
  {
    hide QueueInv, ThreadInv, Conserved, Victim, Stealer;
    var s' := Next(s, e);
    assert s'.queues == s.queues && s'.threads == s.threads;
    forall t | 0 <= t < |s'.threads|
      ensures ThreadOk(s', t)
    {
      assert ThreadOk(s, t);
    }
    WorldBalance(s, e);
  }

  lemma {:induction false} WorldBalance(s: State, e: Event)
    requires Shaped(s) && Conserved(s) && !e.Work?
    ensures Conserved(Next(s, e))
  {
    hide Shaped;
    var s' := Next(s, e);
    assert s'.queues == s.queues && s'.threads == s.threads;
    if e.Submit? {
      assert Outside(s'.world) == Outside(s.world) + multiset{e.task};
    } else {
      assert Outside(s'.world) == Outside(s.world);
    }
  }

  // ----- whole runs

  /** All local queues are empty and all threads idle; tasks may already wait in the global queue. */
  ghost predicate Initial(s: State) {
    && Shaped(s)
    && (forall x :: 0 <= x < |s.queues| ==>
          s.queues[x].steal == s.queues[x].head == |s.queues[x].log| == 0 && s.queues[x].thief == None)
    && (forall t :: 0 <= t < |s.threads| ==> s.threads[t] == Thread(Idle, []))
    && !s.world.closed
    && s.world.delivered == multiset{} && s.world.dropped == multiset{}
    && s.world.submitted == multiset(s.world.global)
  }

  /** `states` is what the events lead through, and the assumption holds throughout. */
  ghost predicate Run(states: seq<State>, events: seq<Event>) {
    && |states| == |events| + 1
    && Initial(states[0])
    && forall i :: 0 <= i < |events| ==>
         Enabled(states[i], events[i]) && NoWrap(states[i]) && states[i + 1] == Next(states[i], events[i])
  }

  lemma {:induction false} InitialInv(s: State)
    requires Initial(s)
    ensures Inv(s)
  {
    hide Conserved, Slot, Victim;
    InitialConserved(s);
  }

  lemma {:induction false} InitialConserved(s: State)
    requires Initial(s)
    ensures Conserved(s)
  {
    hide Slot, Victim, Shaped;
    SumEmpty(QueueBags(s.queues));
    SumEmpty(HeldBags(s.threads));
  }

  lemma {:induction false} RunInv(states: seq<State>, events: seq<Event>, i: nat)
    requires Run(states, events) && i < |states|
    ensures Inv(states[i])
    decreases i
  {
    hide Inv, Initial, Next, Shaped, NoWrap;
    if i == 0 {
      InitialInv(states[0]);
    } else {
      RunInv(states, events, i - 1);
      EventKeeps(states[i - 1], events[i - 1]);
    }
  }

  lemma {:induction false} EventKeeps(s: State, e: Event)
    requires Inv(s) && Enabled(s, e) && NoWrap(s)
    ensures Inv(Next(s, e))
  {
    hide Inv, Next, NoWrap;
    if e.Work? {
      WorkKeeps(s, e.t, e.c);
    } else {
      OutsideKeeps(s, e);
    }
  }

  // ----- what holds at every moment of every run

  /** Every task submitted once is in exactly one place: one local queue, one thread's hands,
      the global queue, delivered, or dropped by a push after the close. */
  lemma {:induction false} ExactlyOnce(states: seq<State>, events: seq<Event>, i: nat, task: Task)
    requires Run(states, events) && i < |states| && states[i].world.submitted[task] == 1
    ensures var s := states[i];
      && Sum(QueueBags(s.queues))[task] + Sum(HeldBags(s.threads))[task]
         + multiset(s.world.global)[task] + s.world.delivered[task] + s.world.dropped[task] == 1
      && (forall x, y :: 0 <= x < y < |s.queues| ==> task !in Waiting(s.queues[x]) || task !in Waiting(s.queues[y]))
      && (forall t, u :: 0 <= t < u < |s.threads| ==> task !in s.threads[t].held || task !in s.threads[u].held)
  {
    hide Run, Shaped, QueuesInv, ThreadsInv, ClaimsInv, Waiting;
    var s := states[i];
    RunInv(states, events, i);
    assert Everywhere(s)[task] == 1;
    forall x, y | 0 <= x < y < |s.queues|
      ensures task !in Waiting(s.queues[x]) || task !in Waiting(s.queues[y])
    {
      SumTwo(QueueBags(s.queues), x, y);
      assert (QueueBags(s.queues)[x] + QueueBags(s.queues)[y])[task] <= 1;
    }
    forall t, u | 0 <= t < u < |s.threads|
      ensures task !in s.threads[t].held || task !in s.threads[u].held
    {
      SumTwo(HeldBags(s.threads), t, u);
      assert (HeldBags(s.threads)[t] + HeldBags(s.threads)[u])[task] <= 1;
    }
  }

  /** No task is delivered more often than it was submitted. */
  lemma {:induction false} NeverDeliveredTwice(states: seq<State>, events: seq<Event>, i: nat)
    requires Run(states, events) && i < |states|
    ensures states[i].world.delivered <= states[i].world.submitted
  {
    hide Run, Shaped, QueuesInv, ThreadsInv, ClaimsInv;
    RunInv(states, events, i);
    var s := states[i];
    assert s.world.delivered <= Everywhere(s);
  }

  /** Nothing is dropped as long as the global queue is open. */
  lemma {:induction false} NothingDropped(states: seq<State>, events: seq<Event>, i: nat)
    requires Run(states, events) && i < |states| && !states[i].world.closed
    ensures states[i].world.dropped == multiset{}
    decreases i
  {
    hide Shaped, NoWrap, Step, Next;
    if i > 0 {
      OpenBefore(states[i - 1], events[i - 1]);
      NothingDropped(states, events, i - 1);
    }
  }

  lemma {:induction false} OpenBefore(s: State, e: Event)
    requires Enabled(s, e) && !Next(s, e).world.closed
    ensures !s.world.closed && Next(s, e).world.dropped == s.world.dropped
  {
    hide Slot, Word, Sub32, Shaped;
    if e.Work? {
      StepKeepsOpen(s, e.t, e.c);
    }
  }

  predicate KeepsOpen(w: World, k: Change) {
    k.world.closed == w.closed && (!w.closed ==> k.world.dropped == w.dropped)
  }

  lemma {:induction false} PushStepKeepsOpen(q: Queue, th: Thread, w: World, t: nat, c: Choice)
    requires |q.buffer| == CAPACITY
    ensures KeepsOpen(w, PushStep(q, th, w, t, c))
  {
    hide Slot, Word, Sub32, Swaps, First;
  }

  lemma {:induction false} PopStepKeepsOpen(q: Queue, th: Thread, w: World, t: nat, c: Choice)
    requires |q.buffer| == CAPACITY
    ensures KeepsOpen(w, PopStep(q, th, w, t, c)) && KeepsOpen(w, RefillStep(q, th, w, t, c))
  {
    hide Slot, Word, Sub32, Swaps, First;
  }

  lemma {:induction false} StealStepKeepsOpen(q: Queue, v: Queue, th: Thread, w: World, t: nat, src: nat, c: Choice)
    requires |q.buffer| == CAPACITY && |v.buffer| == CAPACITY
    ensures KeepsOpen(w, StealStep(q, v, th, w, t, src, c))
  {
    hide Slot, Word, Sub32, Swaps;
  }

  lemma {:induction false} StepKeepsOpen(s: State, t: nat, c: Choice)
    requires Shaped(s) && t < |s.threads|
    ensures KeepsOpen(s.world, Step(s, t, c))
  {
    hide Slot, Word, Sub32, Swaps, First, PushStep, PopStep, RefillStep, StealStep;
    var q, th, w, src := s.queues[t], s.threads[t], s.world, Victim(s.threads[t].pc, t);
    PushStepKeepsOpen(q, th, w, t, c);
    PopStepKeepsOpen(q, th, w, t, c);
    StealStepKeepsOpen(q, s.queues[src], th, w, t, src, c);
  }

  /** A refill never finds its ring too full: the error path of `push_batch` is never taken. */
  lemma {:induction false} BatchAlwaysFits(states: seq<State>, events: seq<Event>, i: nat, t: nat)
    requires Run(states, events) && i < |states| && t < |states[i].threads|
    ensures states[i].threads[t].pc != Overflowed
  {
    hide Run;
    RunInv(states, events, i);
    assert ThreadOk(states[i], t);
  }

  /** While a thief copies, its claim is at most half a ring, fits its own ring, and still lies
      unchanged in the victim's slots. */
  lemma {:induction false} ClaimIsSafe(states: seq<State>, events: seq<Event>, i: nat, t: nat)
    requires Run(states, events) && i < |states| && t < |states[i].threads|
    requires states[i].threads[t].pc.StealCopy?
    ensures |states[i].queues| == |states[i].threads|
    ensures var s := states[i];
      var pc := s.threads[t].pc;
      && pc.src < |s.queues| && 0 < pc.n == |s.threads[t].held| <= CAPACITY / 2
      && s.queues[t].Tail() + pc.n <= s.queues[t].steal + CAPACITY
      && |s.queues[pc.src].buffer| == CAPACITY
      && forall k :: 0 <= k < pc.n ==> s.queues[pc.src].buffer[Slot(pc.first + k)] == s.threads[t].held[k]
  {
    hide Run, Conserved, ClaimsInv;
    RunInv(states, events, i);
    CopyIsSafe(states[i], t);
  }

  lemma {:induction false} CopyIsSafe(s: State, t: nat)
    requires Shaped(s) && QueuesInv(s) && t < |s.threads| && ThreadOk(s, t) && s.threads[t].pc.StealCopy?
    ensures var pc := s.threads[t].pc;
      && pc.src < |s.queues| && 0 < pc.n == |s.threads[t].held| <= CAPACITY / 2
      && s.queues[t].Tail() + pc.n <= s.queues[t].steal + CAPACITY
      && |s.queues[pc.src].buffer| == CAPACITY
      && forall k :: 0 <= k < pc.n ==> s.queues[pc.src].buffer[Slot(pc.first + k)] == s.threads[t].held[k]
  {
    hide Slot, PushInv, PopInv, RefillInv;
    assert QueueInv(s.queues[s.threads[t].pc.src]);
    ClaimedIntact(s.queues[t], s.queues[s.threads[t].pc.src], s.threads[t], t);
  }

  /** Every comparison the code makes on wrapped words gives the answer for the counters. */
  ghost predicate WordsFaithful(th: Thread, q: Queue, v: Queue) {
    match th.pc
    case PushTail(_, steal, head) =>
      Distance(q, steal) && (Word(steal) == Word(head) <==> steal == head)
    case OverflowSwap(_, head) => SwapFaithful(q, head, head)
    case PopTail(_, head) => Word(head) == Word(q.Tail()) <==> head == q.Tail()
    case PopSwap(steal, head) => SwapFaithful(q, steal, head)
    case RoomTail(steal) => Distance(q, steal)
    case BatchTail(_, steal) => Distance(q, steal)
    case StealOwnTail(_, steal) => Distance(q, steal)
    case StealTail(_, steal, head) => Distance(v, head) && (Word(steal) == Word(head) <==> steal == head)
    case StealClaim(_, steal, head, _) => SwapFaithful(v, steal, head)
    case StealRelease(_, steal, head, _) => SwapFaithful(v, steal, head)
    case _ => true
  }

  ghost predicate Distance(q: Queue, from: nat) {
    from <= q.Tail() && Sub32(Word(q.Tail()), Word(from)) == q.Tail() - from
  }

  ghost predicate SwapFaithful(q: Queue, steal: nat, head: nat) {
    Swaps(q, steal, head, Go) <==> q.steal == steal && q.head == head
  }

  lemma {:induction false} WordsAlwaysFaithful(states: seq<State>, events: seq<Event>, i: nat, t: nat)
    requires Run(states, events) && i < |events| && t < |states[i].threads|
    ensures Shaped(states[i])
    ensures WordsFaithful(states[i].threads[t], states[i].queues[t],
                          states[i].queues[Victim(states[i].threads[t].pc, t)])
  {
    hide WordsFaithful, Initial, Next;
    RunInv(states, events, i);
    var s := states[i];
    assert ThreadOk(s, t);
    var x := Victim(s.threads[t].pc, t);
    assert QueueInv(s.queues[t]) && QueueInv(s.queues[x]);
    assert NoFullWrap(s.threads[t].pc, s.queues[x]);
    FaithfulHere(s.threads[t], s.queues[t], s.queues[x], t);
  }

  lemma {:induction false} FaithfulHere(th: Thread, q: Queue, v: Queue, t: nat)
    requires ThreadInv(th, q, v, t) && QueueInv(q) && QueueInv(v) && NoFullWrap(th.pc, v)
    ensures WordsFaithful(th, q, v)
  {
    hide Word, Sub32, Slot, Written, Intact;
    match th.pc
    case PushTail(_, steal, head) =>
      Sub32IsDifference(q.Tail(), steal);
      WordsEqual(steal, head);
    case OverflowSwap(_, head) => SwapFaithfulHere(q, head, head);
    case PopTail(_, head) => WordsEqual(head, q.Tail());
    case PopSwap(steal, head) => SwapFaithfulHere(q, steal, head);
    case RoomTail(steal) => Sub32IsDifference(q.Tail(), steal);
    case BatchTail(_, steal) => Sub32IsDifference(q.Tail(), steal);
    case StealOwnTail(_, steal) => Sub32IsDifference(q.Tail(), steal);
    case StealTail(_, steal, head) =>
      Sub32IsDifference(v.Tail(), head);
      WordsEqual(steal, head);
    case StealClaim(_, steal, head, _) => SwapFaithfulHere(v, steal, head);
    case StealRelease(_, steal, head, _) => SwapFaithfulHere(v, steal, head);
    case _ =>
  }

  lemma {:induction false} SwapFaithfulHere(q: Queue, steal: nat, head: nat)
    requires QueueInv(q) && Loaded(q, steal, head) && q.Tail() < steal + W32
    ensures SwapFaithful(q, steal, head)
  {
    hide Word, Slot;
    WordsEqual(steal, q.steal);
    WordsEqual(head, q.head);
  }

  /** The assumption holds by itself until some queue has seen 2^32 tasks. */
  lemma NoWrapAtFirst(s: State)
    requires Shaped(s) && forall x :: 0 <= x < |s.queues| ==> s.queues[x].Tail() < W32
    ensures NoWrap(s)
  {
  }
}

/** No task is lost or made up by the run loops: in every run the tasks that came in are those that were run,
    those that wait in a queue and those a worker holds between two places; and no ring is ever overfull. */
module SleepingBalance {
  import opened IdleWord
  import opened Wheel
  import opened Sleeping
  import opened SleepingInv
  import opened SleepingSafety
  import Ring

  // ----- counting tasks

  /** The tasks a worker has taken from one place and not yet put in another. */
  function InHand(pc: Pc): nat {
    match pc
    case Arriving(_, todo) => todo
    case Storing(_, todo) => todo
    case Halving(_, todo) => todo
    case Spilling(_, todo, amount) => if todo > 0 then todo - 1 + amount else 0
    case Batching(rest) => 1 + rest
    case Copying(_, n) => n
    case Publishing(rest) => 1 + rest
    case Starting => 1
    case _ => 0
  }

  function Holds(x: Worker): nat {
    x.ring + (if x.lifo then 1 else 0) + InHand(x.pc)
  }

  function HeldBy(workers: seq<Worker>): nat {
    if |workers| == 0 then 0 else HeldBy(workers[..|workers| - 1]) + Holds(workers[|workers| - 1])
  }

  function Total(s: State): nat {
    s.global + HeldBy(s.workers)
  }

  /** The tasks that come in with this step: submitted from outside, spawned by the running task,
      or made runnable by completions. */
  function ComesIn(s: State, a: nat, c: Choice): nat
    requires a < |s.notes|
  {
    if s.notes[a] != Silent then 0
    else if a >= |s.workers| then (if c.SpawnRemote? then c.count else 0)
    else
      match s.workers[a].pc
      case Polling(_) => if c.Events? then c.count else 0
      case Waiting => if c.Events? then c.count else 0
      case Running => if c.SpawnRemote? then c.count else if c.SpawnLocal? then 1 else 0
      case _ => 0
  }

  /** One task starts to run when the worker gets to `Running` from `Starting`. */
  function StartsToRun(s: State, a: nat, s': State): nat {
    if a < |s.workers| && a < |s'.workers| && s.workers[a].pc == Starting && s'.workers[a].pc == Running then 1 else 0
  }

  lemma {:induction false} HeldUpdate(workers: seq<Worker>, w: nat, x: Worker)
    requires w < |workers|
    ensures HeldBy(workers[w := x]) + Holds(workers[w]) == HeldBy(workers) + Holds(x)
  {
    hide Holds;
    var n := |workers| - 1;
    if w < n {
      HeldUpdate(workers[..n], w, x);
      assert workers[w := x][..n] == workers[..n][w := x];
    } else {
      assert workers[w := x][..n] == workers[..n];
    }
  }

  lemma {:induction false} NobodyHolds(workers: seq<Worker>)
    requires forall w :: 0 <= w < |workers| ==> Holds(workers[w]) == 0
    ensures HeldBy(workers) == 0
  {
    hide Holds;
    if |workers| > 0 {
      NobodyHolds(workers[..|workers| - 1]);
    }
  }

  // ----- what a worker's record always satisfies

  /** The slots of its own ring that the worker is about to fill. */
  function Claims(pc: Pc): nat {
    match pc
    case Storing(_, _) => 1
    case Batching(rest) => rest
    case Publishing(rest) => rest
    case _ => 0
  }

  /** A push has something to push, a thief has claimed something, and what is about to be put in the ring fits. */
  predicate Sound(x: Worker) {
    && (x.pc.Storing? || x.pc.Halving? || x.pc.Spilling? ==> x.pc.todo > 0)
    && (x.pc.Spilling? ==> x.pc.amount > 0)
    && (x.pc.Copying? ==> 0 < x.pc.n <= Ring.CAPACITY / 2 && x.Used() <= Ring.CAPACITY / 2)
    && x.Used() + Claims(x.pc) <= Ring.CAPACITY
  }

  ghost predicate AllSound(s: State) {
    forall w :: 0 <= w < |s.workers| ==> Sound(s.workers[w])
  }

  // ----- every step keeps the balance

  /** From `s` to `s'`, as many came in as are now in some place or run. */
  ghost predicate Balanced(s: State, a: nat, c: Choice, s': State)
    requires a < |s.notes|
  {
    Total(s') + StartsToRun(s, a, s') == Total(s) + ComesIn(s, a, c) && AllSound(s')
  }

  /** Only the record of one worker and the global queue change, and no more than that. */
  lemma {:induction false} OneChanges(s: State, s': State, w: nat, x: Worker)
    requires AllSound(s) && w < |s.workers| && s'.workers == s.workers[w := x] && Sound(x)
    ensures AllSound(s') && Total(s') + s.global + Holds(s.workers[w]) == Total(s) + s'.global + Holds(x)
  {
    hide Sound, Holds;
    HeldUpdate(s.workers, w, x);
  }

  lemma NoteKeeps(s: State, a: nat, c: Choice)
    requires Shaped(s) && a < |s.notes| && s.notes[a] != Silent && AllSound(s)
    ensures Balanced(s, a, c, NoteStep(s, a, c))
  {
    hide ShouldWake, WakeUpOne, HeldBy;
    if s.notes[a].Waking? && s.notes[a].target < |s.workers| {
      var target := s.notes[a].target;
      var x := s.workers[target].(token := true);
      assert Sound(s.workers[target]);
      OneChanges(s, NoteStep(s, a, c), target, x);
    }
  }

  /** What a worker's own step must do for the balance. */
  predicate Evens(s: State, w: nat, c: Choice, s': State)
    requires AtLoop(s, w)
  {
    && |s'.workers| == |s.workers| && Sound(s'.workers[w])
    && s'.global + Holds(s'.workers[w]) + StartsToRun(s, w, s') == s.global + Holds(s.workers[w]) + ComesIn(s, w, c)
  }

  /** Only one worker's record changes. */
  predicate ChangesOnly(s: State, s': State, w: nat) {
    w < |s.workers| && |s'.workers| == |s.workers| && s'.workers == s.workers[w := s'.workers[w]]
  }

  lemma EvenKeeps(s: State, w: nat, c: Choice, s': State)
    requires AtLoop(s, w) && AllSound(s) && ChangesOnly(s, s', w) && Evens(s, w, c, s')
    ensures Balanced(s, w, c, s')
  {
    hide HeldBy, Holds, Sound, ComesIn;
    OneChanges(s, s', w, s'.workers[w]);
  }

  // Each part of the loop by itself: the record of the worker alone changes, and the count is right.

  lemma LoopAlone(s: State, w: nat, c: Choice)
    requires AtLoop(s, w) && PartOf(s.workers[w].pc) == Loop
    ensures ChangesOnly(s, WorkerStep(s, w, c), w)
  {
    hide PollStep, ArriveStep, TakeStep, SearchStep, RunStep, LeaveStep, WakeStep;
  }

  lemma LoopEvens(s: State, w: nat, c: Choice)
    requires AtLoop(s, w) && PartOf(s.workers[w].pc) == Loop && Sound(s.workers[w])
    ensures Evens(s, w, c, WorkerStep(s, w, c))
  {
    hide PollStep, ArriveStep, TakeStep, SearchStep, RunStep, LeaveStep, WakeStep;
  }

  lemma PollAlone(s: State, w: nat, c: Choice)
    requires AtLoop(s, w) && PartOf(s.workers[w].pc) == Poll
    ensures ChangesOnly(s, PollStep(s, w, c), w)
  {
    hide Packed;
  }

  lemma PollEvens(s: State, w: nat, c: Choice)
    requires AtLoop(s, w) && PartOf(s.workers[w].pc) == Poll && Sound(s.workers[w])
    ensures Evens(s, w, c, PollStep(s, w, c))
  {
    hide Packed;
  }

  lemma ArriveAlone(s: State, w: nat, c: Choice)
    requires AtLoop(s, w) && PartOf(s.workers[w].pc) == Arrive
    ensures ChangesOnly(s, ArriveStep(s, w, c), w)
  {
    hide Packed;
  }

  lemma OnwardEmpty(src: Source)
    ensures var pc := Onward(src);
      && InHand(pc) == 0 && Claims(pc) == 0
      && !pc.Arriving? && !pc.Storing? && !pc.Halving? && !pc.Spilling? && !pc.Copying?
  {
  }

  lemma ArrivedEvens(s: State, w: nat, c: Choice)
    requires AtLoop(s, w) && Sound(s.workers[w]) && s.workers[w].pc.Arriving? && s.workers[w].pc.todo == 0
    ensures Evens(s, w, c, ArriveStep(s, w, c))
  {
    hide Onward;
    OnwardEmpty(s.workers[w].pc.src);
  }

  lemma ArrivingEvens(s: State, w: nat, c: Choice)
    requires AtLoop(s, w) && Sound(s.workers[w]) && s.workers[w].pc.Arriving? && s.workers[w].pc.todo > 0
    ensures Evens(s, w, c, ArriveStep(s, w, c))
  {
    hide Onward;
  }

  lemma StoringEvens(s: State, w: nat, c: Choice)
    requires AtLoop(s, w) && Sound(s.workers[w]) && s.workers[w].pc.Storing?
    ensures Evens(s, w, c, ArriveStep(s, w, c))
  {
  }

  predicate Halves(x: Worker, c: Choice) {
    c != Spurious && x.ring == Ring.CAPACITY && x.kept == 0
  }

  lemma HalvedEvens(s: State, w: nat, c: Choice)
    requires AtLoop(s, w) && Sound(s.workers[w]) && s.workers[w].pc.Halving?
    requires Halves(s.workers[w], c)
    ensures Evens(s, w, c, ArriveStep(s, w, c))
  {
  }

  lemma NotHalvedEvens(s: State, w: nat, c: Choice)
    requires AtLoop(s, w) && Sound(s.workers[w]) && s.workers[w].pc.Halving?
    requires !Halves(s.workers[w], c)
    ensures Evens(s, w, c, ArriveStep(s, w, c))
  {
  }

  lemma SpillingEvens(s: State, w: nat, c: Choice)
    requires AtLoop(s, w) && Sound(s.workers[w]) && s.workers[w].pc.Spilling?
    ensures Evens(s, w, c, ArriveStep(s, w, c))
  {
  }

  lemma ArriveEvens(s: State, w: nat, c: Choice)
    requires AtLoop(s, w) && Sound(s.workers[w]) && PartOf(s.workers[w].pc) == Arrive
    ensures Evens(s, w, c, ArriveStep(s, w, c))
  {
    hide ArriveStep, Evens, Sound;
    match s.workers[w].pc
    case Arriving(_, todo) =>
      if todo == 0 {
        ArrivedEvens(s, w, c);
      } else {
        ArrivingEvens(s, w, c);
      }
    case Storing(_, _) => StoringEvens(s, w, c);
    case Halving(_, _) =>
      if Halves(s.workers[w], c) {
        HalvedEvens(s, w, c);
      } else {
        NotHalvedEvens(s, w, c);
      }
    case Spilling(_, _, _) => SpillingEvens(s, w, c);
  }

  lemma TakeAlone(s: State, w: nat, c: Choice)
    requires AtLoop(s, w) && PartOf(s.workers[w].pc) == Take
    ensures ChangesOnly(s, TakeStep(s, w, c), w)
  {
    hide Packed;
  }

  lemma TakingOwnEvens(s: State, w: nat, c: Choice)
    requires AtLoop(s, w) && Sound(s.workers[w]) && s.workers[w].pc.TakingLocal? && s.workers[w].HasTask()
    ensures Evens(s, w, c, TakeStep(s, w, c))
  {
  }

  lemma TakingNothingEvens(s: State, w: nat, c: Choice)
    requires AtLoop(s, w) && Sound(s.workers[w]) && s.workers[w].pc.TakingLocal? && !s.workers[w].HasTask()
    ensures Evens(s, w, c, TakeStep(s, w, c))
  {
  }

  lemma TakingGlobalEvens(s: State, w: nat, c: Choice)
    requires AtLoop(s, w) && Sound(s.workers[w]) && s.workers[w].pc.TakingGlobal? && s.global > 0
    ensures Evens(s, w, c, TakeStep(s, w, c))
  {
    hide Popped;
  }

  lemma TakingNoGlobalEvens(s: State, w: nat, c: Choice)
    requires AtLoop(s, w) && Sound(s.workers[w]) && s.workers[w].pc.TakingGlobal? && s.global == 0
    ensures Evens(s, w, c, TakeStep(s, w, c))
  {
    hide Popped;
  }

  lemma BatchingEvens(s: State, w: nat, c: Choice)
    requires AtLoop(s, w) && Sound(s.workers[w]) && s.workers[w].pc.Batching?
    ensures Evens(s, w, c, TakeStep(s, w, c))
  {
  }

  lemma ScanningGlobalEvens(s: State, w: nat, c: Choice)
    requires AtLoop(s, w) && Sound(s.workers[w]) && s.workers[w].pc == ScanningGlobal && s.global > 0
    ensures Evens(s, w, c, TakeStep(s, w, c))
  {
    hide Popped;
  }

  lemma ScanningNothingEvens(s: State, w: nat, c: Choice)
    requires AtLoop(s, w) && Sound(s.workers[w]) && s.workers[w].pc == ScanningGlobal && s.global == 0
    ensures Evens(s, w, c, TakeStep(s, w, c))
  {
    hide Popped;
  }

  lemma TakeEvens(s: State, w: nat, c: Choice)
    requires AtLoop(s, w) && Sound(s.workers[w]) && PartOf(s.workers[w].pc) == Take
    ensures Evens(s, w, c, TakeStep(s, w, c))
  {
    hide TakeStep, Evens, Sound;
    match s.workers[w].pc
    case TakingLocal(_) =>
      if s.workers[w].HasTask() {
        TakingOwnEvens(s, w, c);
      } else {
        TakingNothingEvens(s, w, c);
      }
    case TakingGlobal(_) =>
      if s.global > 0 {
        TakingGlobalEvens(s, w, c);
      } else {
        TakingNoGlobalEvens(s, w, c);
      }
    case Batching(_) => BatchingEvens(s, w, c);
    case ScanningGlobal =>
      if s.global > 0 {
        ScanningGlobalEvens(s, w, c);
      } else {
        ScanningNothingEvens(s, w, c);
      }
  }

  lemma RunAlone(s: State, w: nat, c: Choice)
    requires AtLoop(s, w) && PartOf(s.workers[w].pc) == Perform
    ensures ChangesOnly(s, RunStep(s, w, c), w)
  {
    hide NumSearching, DecSearching;
  }

  lemma RunEvens(s: State, w: nat, c: Choice)
    requires AtLoop(s, w) && PartOf(s.workers[w].pc) == Perform && Sound(s.workers[w])
    ensures Evens(s, w, c, RunStep(s, w, c))
  {
    hide NumSearching, DecSearching;
  }

  lemma AwakenAlone(s: State, w: nat, c: Choice)
    requires AtLoop(s, w) && PartOf(s.workers[w].pc) == Awaken
    ensures ChangesOnly(s, WakeStep(s, w, c), w)
  {
    hide WakeUpOne;
  }

  lemma WaitingEvens(s: State, w: nat, c: Choice)
    requires AtLoop(s, w) && Sound(s.workers[w]) && (s.workers[w].pc == Waiting || s.workers[w].pc == Woken)
    ensures Evens(s, w, c, WakeStep(s, w, c))
  {
    hide WakeUpOne;
  }

  lemma RejoiningEvens(s: State, w: nat, c: Choice)
    requires AtLoop(s, w) && Sound(s.workers[w])
    requires s.workers[w].pc == RejoinLock || s.workers[w].pc == Rejoining || s.workers[w].pc == RejoinCount
    ensures Evens(s, w, c, WakeStep(s, w, c))
  {
    hide WakeUpOne;
  }

  lemma ContainsEvens(s: State, w: nat, c: Choice)
    requires AtLoop(s, w) && Sound(s.workers[w])
    requires s.workers[w].pc == ContainsLock || s.workers[w].pc == ContainsCheck
    ensures Evens(s, w, c, WakeStep(s, w, c))
  {
    hide WakeUpOne;
  }

  lemma AwakenEvens(s: State, w: nat, c: Choice)
    requires AtLoop(s, w) && Sound(s.workers[w]) && PartOf(s.workers[w].pc) == Awaken
    ensures Evens(s, w, c, WakeStep(s, w, c))
  {
    hide WakeStep, Evens, Sound;
    match s.workers[w].pc
    case Waiting => WaitingEvens(s, w, c);
    case Woken => WaitingEvens(s, w, c);
    case ContainsLock => ContainsEvens(s, w, c);
    case ContainsCheck => ContainsEvens(s, w, c);
    case _ => RejoiningEvens(s, w, c);
  }

  /** What the thief claims leaves the victim's ring. */
  lemma ClaimCounts(x: Worker, v: Worker, victim: nat, n: nat)
    requires Sound(x) && x.pc == Scanning && Sound(v) && MayClaim(x, v, n)
    ensures var x', v' := x.(pc := Copying(victim, n)), v.(ring := v.ring - n, kept := n);
      Sound(x') && Sound(v') && Holds(x') == Holds(x) + n && Holds(v') + n == Holds(v)
  {
  }

  lemma ClaimKeeps(s: State, w: nat, c: Choice)
    requires AtLoop(s, w) && AllSound(s) && s.workers[w].pc == Scanning
    ensures Balanced(s, w, c, SearchStep(s, w, c))
  {
    hide HeldBy, Sound, Holds;
    var s', x := SearchStep(s, w, c), s.workers[w];
    assert Sound(x);
    if c.Steal? && c.victim < |s.workers| && c.victim != w && MayClaim(x, s.workers[c.victim], c.n) {
      var v := s.workers[c.victim];
      assert Sound(v);
      var claimed := SetWorker(s, c.victim, v.(ring := v.ring - c.n, kept := c.n));
      ClaimCounts(x, v, c.victim, c.n);
      OneChanges(s, claimed, c.victim, claimed.workers[c.victim]);
      OneChanges(claimed, s', w, s'.workers[w]);
    } else {
      ScanIsOver(s, w, c);
      EvenKeeps(s, w, c, s');
    }
  }

  lemma ScanIsOver(s: State, w: nat, c: Choice)
    requires AtLoop(s, w) && s.workers[w].pc == Scanning && Sound(s.workers[w])
    requires SearchStep(s, w, c) == Move(s, w, ScanningGlobal)
    ensures Evens(s, w, c, SearchStep(s, w, c)) && ChangesOnly(s, SearchStep(s, w, c), w)
  {
  }

  lemma CopyKeeps(s: State, w: nat, c: Choice)
    requires AtLoop(s, w) && AllSound(s) && s.workers[w].pc.Copying?
    ensures Balanced(s, w, c, SearchStep(s, w, c))
  {
    hide HeldBy;
    var s', x, victim := SearchStep(s, w, c), s.workers[w], s.workers[w].pc.victim;
    assert Sound(x);
    if victim < |s.workers| && victim != w {
      assert Sound(s.workers[victim]);
      var released := SetWorker(s, victim, s.workers[victim].(kept := 0));
      OneChanges(s, released, victim, released.workers[victim]);
      OneChanges(released, s', w, s'.workers[w]);
    } else {
      OneChanges(s, s', w, s'.workers[w]);
    }
  }

  lemma SearchAlone(s: State, w: nat, c: Choice)
    requires AtLoop(s, w) && PartOf(s.workers[w].pc) == Search
    requires s.workers[w].pc != Scanning && !s.workers[w].pc.Copying?
    ensures ChangesOnly(s, SearchStep(s, w, c), w)
  {
    hide NumSearching, IncSearching;
  }

  lemma SearchEvens(s: State, w: nat, c: Choice)
    requires AtLoop(s, w) && PartOf(s.workers[w].pc) == Search && Sound(s.workers[w])
    requires s.workers[w].pc != Scanning && !s.workers[w].pc.Copying?
    ensures Evens(s, w, c, SearchStep(s, w, c))
  {
    hide NumSearching, IncSearching;
  }

  lemma NudgeKeeps(s: State, w: nat, c: Choice)
    requires AtLoop(s, w) && AllSound(s) && s.workers[w].pc.Nudging?
    ensures Balanced(s, w, c, LeaveStep(s, w, c))
  {
    hide HeldBy;
    var s', x, target := LeaveStep(s, w, c), s.workers[w], s.workers[w].pc.target;
    assert Sound(x);
    if target < |s.workers| {
      assert Sound(s.workers[target]);
      var told := SetWorker(s, target, s.workers[target].(token := true));
      OneChanges(s, told, target, told.workers[target]);
      OneChanges(told, s', w, s'.workers[w]);
    } else {
      OneChanges(s, s', w, s'.workers[w]);
    }
  }

  lemma LeaveAlone(s: State, w: nat, c: Choice)
    requires AtLoop(s, w) && PartOf(s.workers[w].pc) == Leave && !s.workers[w].pc.Nudging?
    ensures ChangesOnly(s, LeaveStep(s, w, c), w)
  {
    hide NumSearching, DecWorking;
  }

  lemma LeavingEvens(s: State, w: nat, c: Choice)
    requires AtLoop(s, w) && Sound(s.workers[w]) && (s.workers[w].pc == Leaving || s.workers[w].pc == LeavingLock)
    ensures Evens(s, w, c, LeaveStep(s, w, c))
  {
    hide NumSearching, DecWorking;
  }

  lemma EnteringEvens(s: State, w: nat, c: Choice)
    requires AtLoop(s, w) && Sound(s.workers[w]) && (s.workers[w].pc == LeavingCount || s.workers[w].pc.Entering?)
    ensures Evens(s, w, c, LeaveStep(s, w, c))
  {
    hide NumSearching, DecWorking;
  }

  lemma LookingEvens(s: State, w: nat, c: Choice)
    requires AtLoop(s, w) && Sound(s.workers[w]) && s.workers[w].pc.Looking?
    ensures Evens(s, w, c, LeaveStep(s, w, c))
  {
    hide NumSearching, DecWorking;
  }

  lemma LeaveEvens(s: State, w: nat, c: Choice)
    requires AtLoop(s, w) && Sound(s.workers[w]) && PartOf(s.workers[w].pc) == Leave && !s.workers[w].pc.Nudging?
    ensures Evens(s, w, c, LeaveStep(s, w, c))
  {
    hide LeaveStep, Evens, Sound;
    match s.workers[w].pc
    case Looking(_) => LookingEvens(s, w, c);
    case Leaving => LeavingEvens(s, w, c);
    case LeavingLock => LeavingEvens(s, w, c);
    case _ => EnteringEvens(s, w, c);
  }

  lemma WorkerKeeps(s: State, w: nat, c: Choice)
    requires AtLoop(s, w) && AllSound(s)
    ensures Balanced(s, w, c, WorkerStep(s, w, c))
  {
    hide HeldBy, PollStep, ArriveStep, TakeStep, SearchStep, RunStep, LeaveStep, WakeStep, Balanced, Evens, ChangesOnly,
      Sound;
    assert Sound(s.workers[w]);
    match PartOf(s.workers[w].pc)
    case Loop => LoopAlone(s, w, c); LoopEvens(s, w, c); EvenKeeps(s, w, c, WorkerStep(s, w, c));
    case Poll => PollAlone(s, w, c); PollEvens(s, w, c); EvenKeeps(s, w, c, PollStep(s, w, c));
    case Arrive => ArriveAlone(s, w, c); ArriveEvens(s, w, c); EvenKeeps(s, w, c, ArriveStep(s, w, c));
    case Take => TakeAlone(s, w, c); TakeEvens(s, w, c); EvenKeeps(s, w, c, TakeStep(s, w, c));
    case Search =>
      if s.workers[w].pc == Scanning {
        ClaimKeeps(s, w, c);
      } else if s.workers[w].pc.Copying? {
        CopyKeeps(s, w, c);
      } else {
        SearchAlone(s, w, c);
        SearchEvens(s, w, c);
        EvenKeeps(s, w, c, SearchStep(s, w, c));
      }
    case Perform => RunAlone(s, w, c); RunEvens(s, w, c); EvenKeeps(s, w, c, RunStep(s, w, c));
    case Leave =>
      if s.workers[w].pc.Nudging? {
        NudgeKeeps(s, w, c);
      } else {
        LeaveAlone(s, w, c);
        LeaveEvens(s, w, c);
        EvenKeeps(s, w, c, LeaveStep(s, w, c));
      }
    case Awaken => AwakenAlone(s, w, c); AwakenEvens(s, w, c); EvenKeeps(s, w, c, WakeStep(s, w, c));
  }

  /** Whatever a step does, as many tasks came in as are now in some place or run. */
  lemma {:induction false} StepKeepsBalance(s: State, a: nat, c: Choice)
    requires Shaped(s) && a < |s.notes| && AllSound(s)
    ensures Balanced(s, a, c, Step(s, a, c))
  {
    hide HeldBy, NoteStep, WorkerStep;
    if s.notes[a] != Silent {
      NoteKeeps(s, a, c);
    } else if a < |s.workers| {
      WorkerKeeps(s, a, c);
    }
  }

  // ----- over whole runs

  /** The tasks that came in during the first `i` steps. */
  ghost function CameIn(states: seq<State>, moves: seq<Event>, i: nat): nat
    requires Run(states, moves) && i < |states|
  {
    if i == 0 then 0 else CameIn(states, moves, i - 1) + ComesIn(states[i - 1], moves[i - 1].a, moves[i - 1].c)
  }

  /** The tasks that started to run during the first `i` steps. */
  ghost function WereRun(states: seq<State>, moves: seq<Event>, i: nat): nat
    requires Run(states, moves) && i < |states|
  {
    if i == 0 then 0 else WereRun(states, moves, i - 1) + StartsToRun(states[i - 1], moves[i - 1].a, states[i])
  }

  /** At each moment of each run, every task that came in was run, or is in a queue, or in a worker's hands. */
  lemma {:induction false} NothingLost(states: seq<State>, moves: seq<Event>, i: nat)
    requires Run(states, moves) && i < |states|
    ensures WereRun(states, moves, i) + Total(states[i]) == CameIn(states, moves, i)
    ensures AllSound(states[i])
  {
    hide Run, Step, Sound, Total, ComesIn, StartsToRun;
    if i == 0 {
      NothingAtFirst(states, moves);
    } else {
      NothingLost(states, moves, i - 1);
      RunLength(states, moves);
      FollowsByStep(states, moves, i - 1);
      StepKeepsBalance(states[i - 1], moves[i - 1].a, moves[i - 1].c);
    }
  }

  lemma RunLength(states: seq<State>, moves: seq<Event>)
    requires Run(states, moves)
    ensures |states| == |moves| + 1
  {
    hide Step, Initial;
  }

  lemma FollowsByStep(states: seq<State>, moves: seq<Event>, i: nat)
    requires Run(states, moves) && i < |moves|
    ensures |states| == |moves| + 1
      && Shaped(states[i]) && moves[i].a < |states[i].notes| && states[i + 1] == Step(states[i], moves[i].a, moves[i].c)
  {
    hide Step, Initial;
  }

  lemma NothingAtFirst(states: seq<State>, moves: seq<Event>)
    requires Run(states, moves)
    ensures Total(states[0]) == 0 && AllSound(states[0])
  {
    hide Step, Packed;
    NobodyHolds(states[0].workers);
  }

  /** No ring ever has more slots in use than it has. */
  lemma RingsHold(states: seq<State>, moves: seq<Event>, i: nat, w: nat)
    requires Run(states, moves) && i < |states| && w < |states[i].workers|
    ensures states[i].workers[w].Used() <= Ring.CAPACITY
  {
    hide Run, Total, Claims;
    NothingLost(states, moves, i);
    assert Sound(states[i].workers[w]);
  }

  /** When everybody rests, no worker holds a task, and the tasks that came in and were not run are exactly those of
      the global queue; without a late spill there are none, and everything that came in was run. */
  lemma {:induction false} NeverRestsWithWork(states: seq<State>, moves: seq<Event>, i: nat)
    requires Run(states, moves) && i < |states| && Resting(states[i])
    ensures forall w :: 0 <= w < |states[i].workers| ==> Holds(states[i].workers[w]) == 0
    ensures CameIn(states, moves, i) == WereRun(states, moves, i) + states[i].global
    ensures NoLateSpills(states, moves) ==> NoWork(states[i]) && WereRun(states, moves, i) == CameIn(states, moves, i)
  {
    hide Run, NoLateSpills;
    NothingLost(states, moves, i);
    RestsWithoutWork(states, moves, i);
    NobodyHolds(states[i].workers);
  }
}

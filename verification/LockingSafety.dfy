/** The theorems about the asynchronous mutex: in every run it behaves as a lock
    with one holder and a queue in order of arrival. */
module LockingSafety {
  import opened Wheel
  import opened Locking

  /** One step is invisible, or a step of the simple lock by the same task. */
  predicate Simulates(a: Lock, b: Lock, t: nat) {
    a == b || Acquires(a, b, t) || Enqueues(a, b, t) || Releases(a, b, t) || HandsOver(a, b, t)
  }

  lemma {:induction false} LockStepKeeps(s: State, t: nat, spurious: bool)
    requires Inv(s) && t < |s.tasks| && !Owns(s.tasks[t])
    ensures Inv(LockStep(s, t, spurious)) && Simulates(Abstract(s), Abstract(LockStep(s, t, spurious)), t)
  {
    hide HolderInv, ListsInv, PlaceInv, ParkedInv, Queue;
    match s.tasks[t]
    case Outside => MoveKeeps(s, t, Trying(s.word));
    case Trying(seen) =>
      if seen == Self {
        if s.word == seen && !spurious { AcquireKeeps(s, t); } else { MoveKeeps(s, t, Trying(s.word)); }
      } else {
        TryingKeeps(s, t, seen);
        SameQueue(s, Go(s, t, Linking(seen)).(next := s.next[t := seen]));
      }
    case Linking(seen) =>
      if s.word == seen && !spurious { EnqueueKeeps(s, t, seen); } else { MoveKeeps(s, t, Trying(s.word)); }
    case _ =>
  }

  lemma SameQueue(s: State, r: State)
    requires r.stack == s.stack && r.line == s.line && r.detached == s.detached && r.holder == s.holder
    ensures Abstract(r) == Abstract(s)
  {
  }

  lemma {:induction false} MoveKeeps(s: State, t: nat, pc: Pc)
    requires Inv(s) && t < |s.tasks| && s.tasks[t] != Parked && !Owns(s.tasks[t]) && pc.Trying?
    ensures Inv(Go(s, t, pc)) && Abstract(Go(s, t, pc)) == Abstract(s)
  {
    hide ListsInv, PlaceInv, ParkedInv, Queue;
    SameQueue(s, Go(s, t, pc));
    GoKeeps(s, t, pc);
  }

  /** The holder looks at a pointer and goes on. */
  lemma {:induction false} PlaceKeeps(s: State, t: nat)
    requires Inv(s) && t < |s.tasks|
    requires s.tasks[t] == Holding || s.tasks[t] == Loading || (s.tasks[t] == Freeing && s.word != Null)
    ensures Inv(UnlockStep(s, t)) && Abstract(UnlockStep(s, t)) == Abstract(s)
  {
    hide ParkedInv, Queue, Linked;
    if s.word != Self {
      LinkedWord(s.next, s.word, s.stack);
    }
    LinkedWord(s.next, s.fifo, s.line);
    SameQueue(s, UnlockStep(s, t));
    GoKeeps(s, t, UnlockStep(s, t).tasks[t]);
  }

  lemma {:induction false} UnlockStepKeeps(s: State, t: nat)
    requires Inv(s) && t < |s.tasks| && Owns(s.tasks[t])
    ensures Inv(UnlockStep(s, t)) && Simulates(Abstract(s), Abstract(UnlockStep(s, t)), t)
  {
    hide Inv, Queue;
    match s.tasks[t]
    case Holding => PlaceKeeps(s, t);
    case Loading => PlaceKeeps(s, t);
    case Freeing => if s.word == Null { FreeKeeps(s, t); } else { PlaceKeeps(s, t); }
    case Taking => TakeKeeps(s, t);
    case Reversing(lifo) => ReverseKeeps(s, t, lifo);
    case Handing => HandKeeps(s, t);
  }

  lemma {:induction false} StepKeeps(s: State, t: nat, spurious: bool)
    requires Inv(s) && Shaped(s) && t < |s.tasks|
    ensures Inv(Step(s, t, spurious)) && Simulates(Abstract(s), Abstract(Step(s, t, spurious)), t)
  {
    hide Inv, LockStep, UnlockStep, Abstract, Simulates;
    if Owns(s.tasks[t]) {
      UnlockStepKeeps(s, t);
    } else {
      LockStepKeeps(s, t, spurious);
    }
  }

  // ----- runs

  datatype Event = By(t: nat, spurious: bool)

  ghost predicate Run(states: seq<State>, events: seq<Event>) {
    && |states| == |events| + 1
    && Initial(states[0])
    && forall i :: 0 <= i < |events| ==>
         Shaped(states[i]) && events[i].t < |states[i].tasks|
         && states[i + 1] == Step(states[i], events[i].t, events[i].spurious)
  }

  lemma {:induction false} RunInv(states: seq<State>, events: seq<Event>, i: nat)
    requires Run(states, events) && i < |states|
    ensures Inv(states[i])
    decreases i
  {
    hide Step;
    if i == 0 {
      assert Queue(states[0]) == [];
    } else {
      hide Inv, Initial;
      RunInv(states, events, i - 1);
      StepKeeps(states[i - 1], events[i - 1].t, events[i - 1].spurious);
    }
  }

  /** Every run of the pointers is a run of the simple lock. */
  lemma {:induction false} RunSimulates(states: seq<State>, events: seq<Event>, i: nat)
    requires Run(states, events) && i < |events|
    ensures Simulates(Abstract(states[i]), Abstract(states[i + 1]), events[i].t)
  {
    hide Inv, Step, Simulates;
    RunInv(states, events, i);
    StepKeeps(states[i], events[i].t, events[i].spurious);
  }

  /** At most one task holds the lock, and the word says unlocked exactly when none does. */
  lemma {:induction false} MutualExclusion(states: seq<State>, events: seq<Event>, i: nat)
    requires Run(states, events) && i < |states|
    ensures forall t, u | 0 <= t < |states[i].tasks| && 0 <= u < |states[i].tasks| ::
      Owns(states[i].tasks[t]) && Owns(states[i].tasks[u]) ==> t == u
    ensures states[i].word == Self <==> forall t :: 0 <= t < |states[i].tasks| ==> !Owns(states[i].tasks[t])
  {
    hide Run, ListsInv, PlaceInv, ParkedInv, Queue;
    RunInv(states, events, i);
  }

  /** The lock is handed out in the order of arrival: those that got it are the first that came,
      and the others are queued in the order in which they came. */
  lemma {:induction false} GrantsFollowArrivals(states: seq<State>, events: seq<Event>, i: nat)
    requires Run(states, events) && i < |states|
    ensures states[i].arrivals == states[i].grants + Queue(states[i])
  {
    hide Run, HolderInv, ListsInv, PlaceInv, ParkedInv, Queue;
    RunInv(states, events, i);
  }

  /** A task is resumed exactly once for every time it parks, except that the last one may be still to come. */
  lemma {:induction false} ResumedOncePerPark(states: seq<State>, events: seq<Event>, i: nat, t: nat)
    requires Run(states, events) && i < |states| && t < |states[i].tasks|
    ensures multiset(states[i].arrivals)[t]
            == multiset(states[i].grants)[t] + if states[i].tasks[t] == Parked then 1 else 0
  {
    hide Run, HolderInv, ListsInv, PlaceInv, Queue, NoDuplicates;
    RunInv(states, events, i);
    OccursOnce(Queue(states[i]), t);
  }

  lemma {:induction false} OccursOnce(l: seq<nat>, x: nat)
    requires NoDuplicates(l)
    ensures multiset(l)[x] == if x in l then 1 else 0
  {
    if l != [] {
      assert l == [l[0]] + l[1..];
      NoDuplicatesRest(l[0], l[1..]);
      OccursOnce(l[1..], x);
    }
  }

  /** The assertions in the code hold: the exchange returns a list of waiting tasks,
      and there is a task to hand the lock to, which is parked. */
  lemma {:induction false} AssertionsHold(states: seq<State>, events: seq<Event>, i: nat, t: nat)
    requires Run(states, events) && i < |states| && t < |states[i].tasks|
    ensures states[i].tasks[t] == Taking ==> states[i].word.At?
    ensures states[i].tasks[t] == Handing ==>
      && states[i].fifo.At? && states[i].fifo.task < |states[i].tasks|
      && states[i].tasks[states[i].fifo.task] == Parked
    ensures states[i].tasks[t] == Loading ==> states[i].word != Self
  {
    hide Run, ListsInv, PlaceInv, ParkedInv, Queue;
    RunInv(states, events, i);
    if states[i].tasks[t] == Taking {
      TakeKeeps(states[i], t);
    } else if states[i].tasks[t] == Handing {
      HandFirst(states[i], t);
    }
  }

  /** As long as a task is parked somebody holds the lock, and each of its steps goes on. */
  lemma {:induction false} ParkedHasAHolder(states: seq<State>, events: seq<Event>, i: nat, t: nat) returns (h: nat)
    requires Run(states, events) && i < |states| && t < |states[i].tasks| && states[i].tasks[t] == Parked
    ensures Shaped(states[i]) && h < |states[i].tasks| && Owns(states[i].tasks[h])
    ensures Step(states[i], h, false) != states[i]
  {
    hide Run, ListsInv, PlaceInv, Reverse;
    RunInv(states, events, i);
    var s := states[i];
    assert t in Queue(s);
    ReverseNothing();
    if s.holder == None {
      assert false;
    }
    h := s.holder.value;
    HolderMoves(s, h);
  }

  lemma {:induction false} HolderMoves(s: State, h: nat)
    requires Inv(s) && h < |s.tasks| && Owns(s.tasks[h])
    ensures UnlockStep(s, h) != s
  {
    hide ListsInv, PlaceInv, ParkedInv, Queue;
    if s.tasks[h].Reversing? {
      ReverseKeeps(s, h, s.tasks[h].lifo);
      assert |UnlockStep(s, h).line| == |s.line| + 1;
    } else if s.tasks[h] == Handing {
      HandFirst(s, h);
    }
    assert UnlockStep(s, h).tasks[h] != s.tasks[h] || s.tasks[h].Reversing?;
  }

  // ----- try_lock

  /** The compare-exchange of `try_lock`, which compares with whatever the task has loaded. */
  function TryLock(s: State, t: nat, seen: Ptr): State
    requires t < |s.tasks|
  {
    if s.word == seen then Go(s, t, Holding).(word := Null, holder := Some(t)) else s
  }

  predicate OneOwner(s: State) {
    forall t, u :: 0 <= t < |s.tasks| && 0 <= u < |s.tasks| && Owns(s.tasks[t]) && Owns(s.tasks[u]) ==> t == u
  }

  /** In every run, `try_lock` leaves the lock with one owner exactly if it fails or finds the mutex unlocked;
      a lock that is held is taken over whenever the word has not changed since it was loaded. */
  lemma {:induction false} TryLockExactly(states: seq<State>, events: seq<Event>, i: nat, t: nat, seen: Ptr)
    requires Run(states, events) && i < |states| && t < |states[i].tasks| && states[i].tasks[t] == Outside
    ensures OneOwner(states[i])
    ensures OneOwner(TryLock(states[i], t, seen)) <==> states[i].word != seen || seen == Self
  {
    hide Run, ListsInv, PlaceInv, ParkedInv, Queue;
    RunInv(states, events, i);
    var s := states[i];
    var s' := TryLock(s, t, seen);
    if s.word == seen != Self {
      var h := s.holder.value;
      assert Owns(s'.tasks[h]) && Owns(s'.tasks[t]);
    }
  }
}

/** What a task achieves that runs by itself: a call of `lock` takes a free lock or
    parks last, and a call of `unlock` hands the lock to the first of the queue or
    frees it, from wherever the task is and within a bound. */
module LockingAlone {
  import opened Wheel
  import opened Locking
  import opened LockingSafety

  /** `n` steps of one task, with no other step between them and no spurious failure. */
  function Alone(s: State, t: nat, n: nat): (r: State)
    requires Shaped(s) && t < |s.tasks|
    ensures Shaped(r) && |r.tasks| == |s.tasks|
    decreases n
  {
    if n == 0 then s
    else
      StepShaped(s, t, false);
      Alone(Step(s, t, false), t, n - 1)
  }

  lemma StepShaped(s: State, t: nat, spurious: bool)
    requires Shaped(s) && t < |s.tasks|
    ensures Shaped(Step(s, t, spurious)) && |Step(s, t, spurious).tasks| == |s.tasks|
  {
  }

  /** The task has the lock if it was free, and is parked behind all others if not; nothing else has changed. */
  ghost predicate Obtained(s: State, r: State, t: nat)
    requires t < |s.tasks|
  {
    && r.tasks == s.tasks[t := if s.word == Self then Holding else Parked]
    && if s.word == Self then r.word == Null && Abstract(r) == Lock(Some(t), [])
       else r.word == At(t) && Abstract(r) == Lock(s.holder, Queue(s) + [t])
  }

  /** The task has given the lock to the first of the queue, or has freed it if nobody waits. */
  ghost predicate Released(s: State, r: State, t: nat)
    requires t < |s.tasks|
  {
    if Queue(s) == [] then
      r.tasks == s.tasks[t := Outside] && r.word == Self && Abstract(r) == Lock(None, [])
    else
      && Queue(s)[0] < |s.tasks|
      && r.tasks == s.tasks[t := Outside][Queue(s)[0] := Holding]
      && r.word != Self && Abstract(r) == Lock(Some(Queue(s)[0]), Queue(s)[1..])
  }

  // ----- lock

  /** With the current word loaded, with another word linked, and so on. */
  function StepsToLock(pc: Pc, word: Ptr): nat {
    var loaded := if word == Self then 1 else 2;
    match pc
    case Outside => 1 + loaded
    case Trying(seen) => if seen == word then loaded else if seen == Self then 1 + loaded else 2 + loaded
    case Linking(seen) => if seen == word then 1 else 1 + loaded
    case _ => 0
  }

  /** In one step the task obtains the lock or its place in the queue, or comes closer to that and changes nothing
      else. */
  lemma {:induction false} LockStepCloser(s: State, t: nat)
    requires Inv(s) && t < |s.tasks| && !Owns(s.tasks[t]) && s.tasks[t] != Parked
    ensures var r, n := Step(s, t, false), StepsToLock(s.tasks[t], s.word);
      && n > 0 && Inv(r)
      && if n == 1 then Obtained(s, r, t)
         else
           && r.word == s.word && Abstract(r) == Abstract(s) && |r.tasks| == |s.tasks|
           && r.tasks == s.tasks[t := r.tasks[t]] && !Owns(r.tasks[t]) && r.tasks[t] != Parked
           && StepsToLock(r.tasks[t], r.word) == n - 1
  {
    hide HolderInv, ListsInv, PlaceInv, ParkedInv, Queue;
    LockStepKeeps(s, t, false);
    NoSelfLink(s, t);
    match s.tasks[t]
    case Outside => MoveKeeps(s, t, Trying(s.word));
    case Trying(seen) =>
      if seen == Self {
        if s.word == seen { AcquireKeeps(s, t); } else { MoveKeeps(s, t, Trying(s.word)); }
      } else {
        SameQueue(s, Go(s, t, Linking(seen)).(next := s.next[t := seen]));
      }
    case Linking(seen) =>
      if s.word == seen { EnqueueKeeps(s, t, seen); } else { MoveKeeps(s, t, Trying(s.word)); }
    case _ =>
  }

  lemma NoSelfLink(s: State, t: nat)
    requires Inv(s) && t < |s.tasks|
    ensures s.tasks[t].Linking? ==> s.tasks[t].seen != Self
  {
  }

  /** From anywhere in `lock`. */
  lemma {:induction false} LockFinishes(s: State, t: nat)
    requires Inv(s) && Shaped(s) && t < |s.tasks| && !Owns(s.tasks[t]) && s.tasks[t] != Parked
    ensures Inv(Alone(s, t, StepsToLock(s.tasks[t], s.word)))
    ensures Obtained(s, Alone(s, t, StepsToLock(s.tasks[t], s.word)), t)
    decreases StepsToLock(s.tasks[t], s.word)
  {
    hide Inv, Step, Queue;
    LockStepCloser(s, t);
    StepShaped(s, t, false);
    var r := Step(s, t, false);
    if StepsToLock(s.tasks[t], s.word) > 1 {
      LockFinishes(r, t);
      var last := Alone(r, t, StepsToLock(r.tasks[t], r.word));
      assert r.tasks[t := last.tasks[t]] == s.tasks[t := last.tasks[t]];
    }
  }

  /** A call of `lock`: two steps if the lock is free, three if not. */
  lemma {:induction false} LockAlone(states: seq<State>, events: seq<Event>, i: nat, t: nat)
    requires Run(states, events) && i < |states| && t < |states[i].tasks| && states[i].tasks[t] == Outside
    ensures Shaped(states[i])
    ensures Obtained(states[i], Alone(states[i], t, if states[i].word == Self then 2 else 3), t)
  {
    hide Run, Obtained, HolderInv, ListsInv, PlaceInv, ParkedInv;
    RunInv(states, events, i);
    LockFinishes(states[i], t);
  }

  // ----- unlock

  function StepsToUnlock(s: State, t: nat): nat
    requires t < |s.tasks|
  {
    var take := |s.stack| + 2;
    var free := if s.word == Null then 1 else 1 + take;
    match s.tasks[t]
    case Holding => if s.fifo == Null then 2 + (if s.word == Null then 1 else take) else 2
    case Loading => 1 + (if s.word == Null then 1 else take)
    case Freeing => free
    case Taking => take
    case Reversing(_) => |s.detached| + 1
    case Handing => 1
    case _ => 0
  }

  lemma {:induction false} UnlockStepCloser(s: State, t: nat)
    requires Inv(s) && t < |s.tasks| && Owns(s.tasks[t])
    ensures var r, n := Step(s, t, false), StepsToUnlock(s, t);
      && n > 0 && Inv(r) && |r.tasks| == |s.tasks|
      && if n == 1 then Released(s, r, t)
         else
           && Abstract(r) == Abstract(s) && r.tasks == s.tasks[t := r.tasks[t]] && Owns(r.tasks[t])
           && StepsToUnlock(r, t) == n - 1
  {
    hide HolderInv, ListsInv, PlaceInv, ParkedInv, Queue;
    UnlockStepKeeps(s, t);
    match s.tasks[t]
    case Holding => PlaceCloser(s, t);
    case Loading => PlaceCloser(s, t);
    case Freeing => if s.word == Null { NobodyWaits(s, t); FreeKeeps(s, t); } else { PlaceCloser(s, t); }
    case Taking => TakeKeeps(s, t);
    case Reversing(lifo) => ReverseCloser(s, t, lifo);
    case Handing =>
      HandFirst(s, t);
      HandKeeps(s, t);
      StillLocked(s, t);
  }

  lemma StillLocked(s: State, t: nat)
    requires Inv(s) && t < |s.tasks| && Owns(s.tasks[t])
    ensures s.word != Self
  {
  }

  lemma NobodyWaits(s: State, t: nat)
    requires Inv(s) && t < |s.tasks| && s.tasks[t] == Freeing && s.word == Null
    ensures Queue(s) == []
  {
    assert s.stack == [] && s.line == [] && s.detached == [];
  }

  lemma {:induction false} PlaceCloser(s: State, t: nat)
    requires Inv(s) && t < |s.tasks|
    requires s.tasks[t] == Holding || s.tasks[t] == Loading || (s.tasks[t] == Freeing && s.word != Null)
    ensures var r := UnlockStep(s, t);
      && Abstract(r) == Abstract(s) && r.tasks == s.tasks[t := r.tasks[t]] && Owns(r.tasks[t])
      && StepsToUnlock(s, t) > 1 && StepsToUnlock(r, t) == StepsToUnlock(s, t) - 1
  {
    hide Inv, Queue;
    PlaceKeeps(s, t);
  }

  lemma {:induction false} ReverseCloser(s: State, t: nat, lifo: Ptr)
    requires Inv(s) && t < |s.tasks| && s.tasks[t] == Reversing(lifo)
    ensures var r := UnlockStep(s, t);
      && Abstract(r) == Abstract(s) && |r.tasks| == |s.tasks|
      && r.tasks == s.tasks[t := r.tasks[t]] && Owns(r.tasks[t])
      && StepsToUnlock(s, t) > 1 && StepsToUnlock(r, t) == StepsToUnlock(s, t) - 1
  {
    hide Queue, NoDuplicates, Reverse;
    ReverseKeeps(s, t, lifo);
    assert s.detached != [] && Linked(s.next, lifo, s.detached);
    LinkedRest(s.next, lifo, s.detached);
    LinkedWord(s.next, s.next[lifo.task], s.detached[1..]);
  }

  /** From anywhere in `unlock`. */
  lemma {:induction false} UnlockFinishes(s: State, t: nat)
    requires Inv(s) && Shaped(s) && t < |s.tasks| && Owns(s.tasks[t])
    ensures Inv(Alone(s, t, StepsToUnlock(s, t))) && Released(s, Alone(s, t, StepsToUnlock(s, t)), t)
    decreases StepsToUnlock(s, t)
  {
    hide Inv, Step, Queue, StepsToUnlock;
    UnlockStepCloser(s, t);
    StepShaped(s, t, false);
    var r := Step(s, t, false);
    if StepsToUnlock(s, t) > 1 {
      UnlockFinishes(r, t);
      assert r.tasks[t := Outside] == s.tasks[t := Outside];
    }
  }

  lemma UnlockBound(s: State, t: nat)
    requires Inv(s) && t < |s.tasks| && Owns(s.tasks[t])
    ensures StepsToUnlock(s, t) <= |Queue(s)| + 4
  {
    hide ListsInv, ParkedInv;
  }

  /** Every run of the pointers is a run of the simple lock: each step is invisible or a step of that lock.  And from
      each of its states, wherever the other tasks are, the next steps of a task in `lock`, four at most, get it the
      lock or its place in the queue, and those of the owner, at most four more than there are waiting tasks, hand the
      lock over or free it. */
  lemma {:induction false} RefinesFifoLock(states: seq<State>, events: seq<Event>, i: nat, t: nat)
    requires Run(states, events) && i < |states| && t < |states[i].tasks|
    ensures Abstract(states[0]) == Lock(None, [])
    ensures i < |events| ==> Simulates(Abstract(states[i]), Abstract(states[i + 1]), events[i].t)
    ensures Shaped(states[i])
    ensures var s := states[i];
      var n := StepsToLock(s.tasks[t], s.word);
      !Owns(s.tasks[t]) && s.tasks[t] != Parked ==> n <= 4 && Obtained(s, Alone(s, t, n), t)
    ensures var s := states[i];
      var n := StepsToUnlock(s, t);
      Owns(s.tasks[t]) ==> n <= |Queue(s)| + 4 && Released(s, Alone(s, t, n), t)
  {
    hide Obtained, Released, Alone, HolderInv, ListsInv, PlaceInv, ParkedInv, Queue, Simulates, StepsToUnlock, Step;
    RunInv(states, events, i);
    if i < |events| {
      RunSimulates(states, events, i);
    }
    NobodyAtFirst(states, events);
    if Owns(states[i].tasks[t]) {
      UnlockFinishes(states[i], t);
      UnlockBound(states[i], t);
    } else if states[i].tasks[t] != Parked {
      LockFinishes(states[i], t);
    }
  }

  lemma NobodyAtFirst(states: seq<State>, events: seq<Event>)
    requires Run(states, events)
    ensures Abstract(states[0]) == Lock(None, [])
  {
    hide Step;
  }
}

/** No wake-up is lost: the theorems about every run of the workers and the
    outside threads, and the proof that each step keeps the invariant. */
module SleepingSafety {
  import opened IdleWord
  import opened Wheel
  import opened Sleeping
  import opened SleepingInv
  import opened SleepingSteps

  // ----- the steps of wake_up_one

  /** Whoever decides that nobody need be woken leaves somebody who is going to look. */
  lemma {:induction false} NoWakeNeeded(s: State, a: nat, strict: bool)
    requires Inv(s, strict) && a < |s.notes| && s.notes[a] != Picking && !ShouldWake(s)
    ensures WatchedWithout(s, a)
  {
    hide NumSearching, NumWorking, PickIsSafe, Throttled, TokensComing, Watched, SomeoneSees, Working, Searching;
    if NumSearching(s.word) > 0 {
      if Lent(s) > 0 {
        assert Busy(s.notes[s.lock.value]);
      } else {
        var w := SearcherExists(s);
        assert Helpful(s, w);
      }
    } else {
      var w := EveryoneAwake(s, strict);
      assert Helpful(s, w);
    }
  }

  /** If the word counts every worker as working and none as searching, one that was not refused is awake. */
  lemma {:induction false} EveryoneAwake(s: State, strict: bool) returns (w: nat)
    requires Inv(s, strict) && NumSearching(s.word) == 0 && NumWorking(s.word) >= |s.workers|
    ensures Helpful(s, w)
  {
    hide NumSearching, NumWorking, PickIsSafe, Throttled, TokensComing, Watched, Sensible, Counted;
    NoSearchers(s);
    ReadWord(s);
    assert |s.sleepers| == 0 && Shift(s) == 0;
    assert s.sleepers == {};
    w :| 0 <= w < |s.workers| && !s.workers[w].blind;
    AwakeHelps(s, w);
  }

  lemma {:induction false} AwakeHelps(s: State, w: nat)
    requires Orderly(s) && w < |s.workers| && !s.workers[w].blind && !Counted(s, w)
    requires s.sleepers == {} && Shift(s) == 0 && Lent(s) == 0
    ensures Helpful(s, w)
  {
    hide Sensible;
    assert Holding(s, w) <==> s.lock == Some(w);
  }

  lemma {:induction false} AskingKeeps(s: State, a: nat, strict: bool)
    requires Inv(s, strict) && a < |s.notes| && s.notes[a] == Asking
    ensures Inv(SetNote(s, a, if ShouldWake(s) then Locking else Silent), strict)
  {
    hide ShouldWake, WatchedWithout, Sensible, Asleep, PickIsSafe, Throttled, TokensComing, SomeoneSees, Watched,
      Faithful;
    assert Holding(s, a) <==> s.lock == Some(a);
    NotLocked(s, a);
    if ShouldWake(s) {
      NoteKeeps(s, a, Locking, s.word, s.lock, strict);
    } else {
      NoWakeNeeded(s, a, strict);
      NoteKeeps(s, a, Silent, s.word, s.lock, strict);
    }
  }

  /** A thread in a wake-up holds the lock only for the wake-up. */
  lemma NotLocked(s: State, a: nat)
    requires Orderly(s) && a < |s.notes| && s.notes[a] != Silent
    ensures NoteLocks(s.notes[a]) <==> s.lock == Some(a)
  {
    assert Holding(s, a) <==> s.lock == Some(a);
  }

  lemma {:induction false} LockingKeeps(s: State, a: nat, strict: bool)
    requires Inv(s, strict) && a < |s.notes| && s.notes[a] == Locking && s.lock == None
    ensures Inv(SetNote(s.(lock := Some(a)), a, Confirming), strict)
  {
    hide WatchedWithout, Sensible, Asleep, PickIsSafe, Throttled, TokensComing, SomeoneSees, Watched, Faithful;
    NoteKeeps(s, a, Confirming, s.word, Some(a), strict);
  }

  lemma {:induction false} ConfirmingKeeps(s: State, a: nat, strict: bool)
    requires Inv(s, strict) && a < |s.notes| && s.notes[a] == Confirming
    ensures Inv(if ShouldWake(s) then SetNote(s, a, Counting) else SetNote(s.(lock := None), a, Silent), strict)
  {
    hide ShouldWake, WatchedWithout, Sensible, Asleep, PickIsSafe, Throttled, TokensComing, SomeoneSees, Watched,
      Faithful;
    NotLocked(s, a);
    if ShouldWake(s) {
      PickWillBeSafe(s, a, strict);
      NoteKeeps(s, a, Counting, s.word, s.lock, strict);
    } else {
      NoWakeNeeded(s, a, strict);
      NoteKeeps(s, a, Silent, s.word, None, strict);
    }
  }

  /** Under the lock, the second test leaves a sleeper to pick and nobody picked. */
  lemma {:induction false} PickWillBeSafe(s: State, a: nat, strict: bool)
    requires Inv(s, strict) && a < |s.notes| && s.notes[a] == Confirming && ShouldWake(s)
    ensures s.sleepers != {} && forall w :: 0 <= w < |s.workers| ==> !Notified(s, w)
  {
    hide NumSearching, NumWorking, PickIsSafe, Throttled, TokensComing, Watched, SomeoneSees, Sensible;
    NotLocked(s, a);
    NoSearchers(s);
    ReadWord(s);
    forall w | 0 <= w < |s.workers|
      ensures !Notified(s, w)
    {
      assert !Counted(s, w);
    }
    NoteShift(s, a);
    assert |s.sleepers| > 0;
  }

  lemma NoteShift(s: State, a: nat)
    requires Orderly(s) && a < |s.notes| && s.notes[a] == Confirming && s.lock == Some(a)
    ensures Shift(s) == 0
  {
  }

  lemma {:induction false} CountingKeeps(s: State, a: nat, strict: bool)
    requires Inv(s, strict) && a < |s.notes| && s.notes[a] == Counting
    ensures Inv(SetNote(s.(word := WakeUpOne(s.word, 1)), a, Picking), strict)
  {
    hide WatchedWithout, Sensible, Asleep, Throttled, TokensComing, SomeoneSees, Watched, Faithful, WakeUpOne;
    NotLocked(s, a);
    NoteKeeps(s, a, Picking, WakeUpOne(s.word, 1), s.lock, strict);
  }

  // ----- picking a sleeper

  function Picked(s: State, a: nat, target: nat): State
    requires a < |s.notes|
  {
    SetNote(s.(sleepers := s.sleepers - {target}, lock := None), a, Waking(target))
  }

  lemma {:induction false} PickedOrderly(s: State, a: nat, target: nat)
    requires Orderly(s) && a < |s.notes| && s.notes[a] == Picking && target in s.sleepers
    ensures Orderly(Picked(s, a, target)) && s.lock == Some(a)
  {
    hide Sensible, Asleep;
    var s' := Picked(s, a, target);
    NotLocked(s, a);
    forall b | 0 <= b < |s'.notes|
      ensures Holding(s', b) <==> s'.lock == Some(b)
    {
      assert Holding(s, b) <==> s.lock == Some(b);
    }
  }

  lemma {:induction false} PickedCounts(s: State, a: nat, target: nat)
    requires Orderly(s) && a < |s.notes| && s.notes[a] == Picking && target in s.sleepers && s.lock == Some(a)
    ensures Working(Picked(s, a, target)) == Working(s) && Searching(Picked(s, a, target)) == Searching(s)
  {
    hide Sensible, Asleep, Counted;
    var s' := Picked(s, a, target);
    SleeperNotCounted(s, target);
    forall w: nat
      ensures w in Searchers(s') <==> w in Searchers(s) + {target}
    {
      PickedCounted(s, a, target, w);
    }
    assert Searchers(s') == Searchers(s) + {target};
  }

  lemma PickedCounted(s: State, a: nat, target: nat, w: nat)
    requires Orderly(s) && a < |s.notes| && target in s.sleepers
    ensures Counted(Picked(s, a, target), w) <==> Counted(s, w) || w == target
  {
  }

  lemma {:induction false} PickedThrottled(s: State, a: nat, target: nat)
    requires Orderly(s) && PickIsSafe(s) && a < |s.notes| && s.notes[a] == Picking && target in s.sleepers
    requires s.lock == Some(a)
    ensures PickIsSafe(Picked(s, a, target)) && Throttled(Picked(s, a, target))
  {
    hide Sensible, Asleep;
    forall w: nat
      ensures Notified(Picked(s, a, target), w) ==> w == target
    {
      assert w < |s.workers| ==> !Notified(s, w);
    }
  }

  lemma {:induction false} PickedTokens(s: State, a: nat, target: nat)
    requires TokensComing(s) && a < |s.notes| && !s.notes[a].Waking?
    ensures TokensComing(Picked(s, a, target))
  {
    var s' := Picked(s, a, target);
    forall w | 0 <= w < |s'.workers| && Drowsy(s'.workers[w].pc) && w !in s'.sleepers
      ensures s'.workers[w].token || BeingWoken(s', w)
    {
      if w == target {
        assert s'.notes[a] == Waking(w);
      } else if BeingWoken(s, w) {
        var b :| 0 <= b < |s.notes| && s.notes[b] == Waking(w);
        assert s'.notes[b] == Waking(w);
      }
    }
  }

  lemma {:induction false} PickingKeeps(s: State, a: nat, target: nat, strict: bool)
    requires Inv(s, strict) && a < |s.notes| && s.notes[a] == Picking && target in s.sleepers
    ensures Inv(Picked(s, a, target), strict)
  {
    hide Sensible, Orderly, PickIsSafe, Throttled, TokensComing, Working, Searching;
    var s' := Picked(s, a, target);
    PickedOrderly(s, a, target);
    PickedCounts(s, a, target);
    PickedThrottled(s, a, target);
    PickedTokens(s, a, target);
    assert SomeoneSees(s') by {
      var w :| 0 <= w < |s.workers| && !s.workers[w].blind;
      assert !s'.workers[w].blind;
    }
    PickedHelps(s, a, target);
  }

  lemma PickedHelps(s: State, a: nat, target: nat)
    requires Orderly(s) && a < |s.notes| && target in s.sleepers
    ensures Helpful(Picked(s, a, target), target)
  {
  }

  // ----- waking the picked sleeper, after the lock is released

  lemma {:induction false} WokenNoteSame(s: State, a: nat)
    requires Orderly(s) && a < |s.notes| && s.notes[a].Waking?
    ensures var s' := SetNote(s, a, Silent);
      && Orderly(s') && Searching(s') == Searching(s) && Working(s') == Working(s)
      && (forall w :: Notified(s', w) <==> Notified(s, w))
  {
    hide Sensible, Asleep, Locks;
    var s' := SetNote(s, a, Silent);
    assert Searchers(s') == Searchers(s);
    NotLocked(s, a);
    forall b | 0 <= b < |s'.notes|
      ensures Holding(s', b) <==> s'.lock == Some(b)
    {
      assert Holding(s, b) <==> s.lock == Some(b);
    }
  }

  lemma {:induction false} WokenNoteKeeps(s: State, a: nat, strict: bool)
    requires Inv(s, strict) && a < |s.notes| && s.notes[a].Waking?
    requires s.notes[a].target < |s.workers| ==> s.workers[s.notes[a].target].token
    ensures Inv(SetNote(s, a, Silent), strict)
  {
    hide Orderly, Working, Searching, Watched, TokensComing, Notified;
    var s' := SetNote(s, a, Silent);
    WokenNoteSame(s, a);
    WokenTokens(s, a);
    assert SomeoneSees(s') by {
      var w :| 0 <= w < |s.workers| && !s.workers[w].blind;
      assert !s'.workers[w].blind;
    }
    if strict && s.global > 0 {
      WokenWatched(s, a);
    }
  }

  lemma {:induction false} WokenTokens(s: State, a: nat)
    requires TokensComing(s) && a < |s.notes| && s.notes[a].Waking?
    requires s.notes[a].target < |s.workers| ==> s.workers[s.notes[a].target].token
    ensures TokensComing(SetNote(s, a, Silent))
  {
    var s' := SetNote(s, a, Silent);
    forall w | 0 <= w < |s'.workers| && Drowsy(s'.workers[w].pc) && w !in s'.sleepers
      ensures s'.workers[w].token || BeingWoken(s', w)
    {
      if BeingWoken(s, w) && w != s.notes[a].target {
        var b :| 0 <= b < |s.notes| && s.notes[b] == Waking(w);
        assert s'.notes[b] == Waking(w);
      }
    }
  }

  lemma {:induction false} WokenWatched(s: State, a: nat)
    requires Watched(s) && a < |s.notes| && s.notes[a].Waking?
    ensures Watched(SetNote(s, a, Silent))
  {
    hide Helps;
    var s' := SetNote(s, a, Silent);
    if b :| 0 <= b < |s.notes| && Busy(s.notes[b]) {
      assert Busy(s'.notes[b]);
    } else {
      var w :| 0 <= w < |s.workers| && Helpful(s, w);
      assert Helpful(s', w);
    }
  }

  lemma {:induction false} WakingKeeps(s: State, a: nat, target: nat, strict: bool)
    requires Inv(s, strict) && a < |s.notes| && s.notes[a] == Waking(target) && target < |s.workers|
    ensures Inv(SetNote(SetWorker(s, target, s.workers[target].(token := true)), a, Silent), strict)
  {
    hide Inv;
    NudgeKeeps(s, target, strict);
    WokenNoteKeeps(SetWorker(s, target, s.workers[target].(token := true)), a, strict);
  }

  lemma {:induction false} NoteStepKeeps(s: State, a: nat, c: Choice, strict: bool)
    requires Inv(s, strict) && Shaped(s) && a < |s.notes| && s.notes[a] != Silent
    ensures Inv(NoteStep(s, a, c), strict)
  {
    hide Inv, ShouldWake, WakeUpOne;
    match s.notes[a]
    case Asking => AskingKeeps(s, a, strict);
    case Locking => if s.lock == None { LockingKeeps(s, a, strict); }
    case Confirming => ConfirmingKeeps(s, a, strict);
    case Counting => CountingKeeps(s, a, strict);
    case Picking => if c.Pick? && c.sleeper in s.sleepers { PickingKeeps(s, a, c.sleeper, strict); }
    case Waking(target) => if target < |s.workers| { WakingKeeps(s, a, target, strict); }
  }

  // ----- an outside thread submits tasks

  lemma {:induction false} SubmitKeeps(s: State, a: nat, count: nat, strict: bool)
    requires Inv(s, strict) && |s.workers| <= a < |s.notes| && s.notes[a] == Silent
    ensures Inv(SetNote(s.(global := s.global + count), a, Asking), strict)
  {
    hide Sensible, Asleep, Helps, Locks;
    var s' := SetNote(s.(global := s.global + count), a, Asking);
    assert Searchers(s') == Searchers(s);
    assert Holding(s, a) <==> s.lock == Some(a);
    forall b | 0 <= b < |s'.notes|
      ensures Holding(s', b) <==> s'.lock == Some(b)
    {
      assert Holding(s, b) <==> s.lock == Some(b);
    }
    SubmitTokens(s, a, count);
    assert SomeoneSees(s') by {
      var w :| 0 <= w < |s.workers| && !s.workers[w].blind;
      assert !s'.workers[w].blind;
    }
    assert Busy(s'.notes[a]);
    forall w: nat
      ensures Notified(s', w) <==> Notified(s, w)
    {
    }
  }

  lemma {:induction false} SubmitTokens(s: State, a: nat, count: nat)
    requires TokensComing(s) && a < |s.notes| && s.notes[a] == Silent
    ensures TokensComing(SetNote(s.(global := s.global + count), a, Asking))
  {
    var s' := SetNote(s.(global := s.global + count), a, Asking);
    forall w | 0 <= w < |s'.workers| && Drowsy(s'.workers[w].pc) && w !in s'.sleepers
      ensures s'.workers[w].token || BeingWoken(s', w)
    {
      if BeingWoken(s, w) {
        var b :| 0 <= b < |s.notes| && s.notes[b] == Waking(w);
        assert s'.notes[b] == Waking(w);
      }
    }
  }

  // ----- all steps

  lemma {:induction false} SleepStepKeeps(s: State, w: nat, c: Choice, strict: bool)
    requires Inv(s, strict) && AtLoop(s, w) && (PartOf(s.workers[w].pc) == Leave || PartOf(s.workers[w].pc) == Awaken)
    ensures Inv(if PartOf(s.workers[w].pc) == Leave then LeaveStep(s, w, c) else WakeStep(s, w, c), strict)
  {
    hide Inv, WakeUpOne, DecWorking, NumSearching;
    match s.workers[w].pc
    case Leaving => LeavingKeeps(s, w, c, strict);
    case LeavingLock => if s.lock == None { LockKeeps(s, w, LeavingCount, strict); }
    case LeavingCount => LeavingCountKeeps(s, w, c, strict);
    case Entering(_) => EnteringKeeps(s, w, c, strict);
    case Looking(_) => LookingKeeps(s, w, c, strict);
    case Nudging(_) => NudgingKeeps(s, w, c, strict);
    case Waiting => WaitingKeeps(s, w, c, strict);
    case Woken => WokenKeeps(s, w, c, strict);
    case RejoinLock => if s.lock == None { LockKeeps(s, w, Rejoining, strict); }
    case Rejoining => RejoiningKeeps(s, w, c, strict);
    case RejoinCount => RejoinCountKeeps(s, w, c, strict);
    case ContainsLock => if s.lock == None { LockKeeps(s, w, ContainsCheck, strict); }
    case ContainsCheck => ContainsCheckKeeps(s, w, c, strict);
  }

  lemma {:induction false} WorkerStepKeeps(s: State, w: nat, c: Choice, strict: bool)
    requires Inv(s, strict) && AtLoop(s, w) && (strict ==> !LateSpill(s, w))
    ensures Inv(WorkerStep(s, w, c), strict)
  {
    hide Inv, LateSpill, PollStep, ArriveStep, TakeStep, SearchStep, RunStep, LeaveStep, WakeStep;
    match s.workers[w].pc
    case Top => LoopKeeps(s, w, if c == Maintain then Polling(false) else NextTask, strict);
    case NextTask => LoopKeeps(s, w, if c == Interval then TakingGlobal(true) else TakingLocal(false), strict);
    case Polling(_) => PollingKeeps(s, w, c, strict);
    case Telling(_) => TellingKeeps(s, w, c, strict);
    case Arriving(_, _) => ArriveKeeps(s, w, c, strict);
    case Storing(_, _) => ArriveKeeps(s, w, c, strict);
    case Halving(_, _) => ArriveKeeps(s, w, c, strict);
    case Spilling(_, _, _) => ArriveKeeps(s, w, c, strict);
    case TakingLocal(_) => TakingKeeps(s, w, c, strict);
    case TakingGlobal(_) => TakingKeeps(s, w, c, strict);
    case Batching(_) => TakingKeeps(s, w, c, strict);
    case ScanningGlobal => ScanningGlobalKeeps(s, w, c, strict);
    case Electing => ElectingKeeps(s, w, c, strict);
    case Joining => JoiningKeeps(s, w, c, strict);
    case Scanning => ScanningKeeps(s, w, c, strict);
    case Copying(_, _) => CopyingKeeps(s, w, c, strict);
    case Publishing(_) => CopyingKeeps(s, w, c, strict);
    case Starting => StartingKeeps(s, w, c, strict);
    case Running => RunningKeeps(s, w, c, strict);
    case _ => SleepStepKeeps(s, w, c, strict);
  }

  /** Every step keeps the invariant; it keeps the work watched, if `strict`, unless it is a late spill. */
  lemma {:induction false} StepKeeps(s: State, a: nat, c: Choice, strict: bool)
    requires Inv(s, strict) && Shaped(s) && a < |s.notes| && (strict ==> !LateSpill(s, a))
    ensures Inv(Step(s, a, c), strict)
  {
    hide Inv, LateSpill, NoteStep, WorkerStep;
    if s.notes[a] != Silent {
      NoteStepKeeps(s, a, c, strict);
    } else if a < |s.workers| {
      WorkerStepKeeps(s, a, c, strict);
    } else if c.SpawnRemote? {
      SubmitKeeps(s, a, c.count, strict);
    }
  }

  /** A late spill leaves work that nobody watches. */
  lemma {:induction false} LateSpillIsMissed(s: State, w: nat, c: Choice)
    requires Inv(s, false) && LateSpill(s, w)
    ensures Step(s, w, c).global > 0 && !Watched(Step(s, w, c))
  {
    hide Faithful, PickIsSafe, Throttled, TokensComing, SomeoneSees, Helps;
    WorkerFacts(s, w, false);
    var s' := Step(s, w, c);
    var x, y := s.workers[w], s'.workers[w];
    assert s' == Move(s, w, Less(x.pc.src, x.pc.todo)).(global := s.global + x.pc.amount);
    SpilledIsHelpless(x, y);
    forall v | 0 <= v < |s'.workers|
      ensures !Helpful(s', v)
    {
      if v != w {
        assert !Helpful(s, v);
      }
    }
  }

  lemma SpilledIsHelpless(x: Worker, y: Worker)
    requires Sensible(x) && x.pc.Spilling? && x.pc.src == InSleep && x.ring == 0
    requires y == x.(pc := Less(InSleep, x.pc.todo))
    ensures !Helps(y, true)
  {
  }

  lemma {:induction false} InitialInv(s: State, strict: bool)
    requires Initial(s) && s.global == 0
    ensures Inv(s, strict)
  {
    hide Packed, Orderly, Sensible;
    InitialOrderly(s);
    assert Searchers(s) == {};
    assert !s.workers[0].blind;
    CountsFit(s);
  }

  lemma {:induction false} InitialOrderly(s: State)
    requires Initial(s)
    ensures Orderly(s)
  {
    hide Packed;
  }

  // ----- runs

  datatype Event = By(a: nat, c: Choice)

  /** A run: each state follows from the one before by a step of some thread. */
  ghost predicate Run(states: seq<State>, moves: seq<Event>) {
    && |states| == |moves| + 1
    && Initial(states[0]) && states[0].global == 0
    && forall i :: 0 <= i < |moves| ==>
         Shaped(states[i]) && moves[i].a < |states[i].notes| && states[i + 1] == Step(states[i], moves[i].a, moves[i].c)
  }

  /** No sleeping worker pushes to the global queue when nobody is going to notice. */
  ghost predicate NoLateSpills(states: seq<State>, moves: seq<Event>) {
    forall i :: 0 <= i < |moves| && i < |states| ==> !LateSpill(states[i], moves[i].a)
  }

  lemma {:induction false} RunInv(states: seq<State>, moves: seq<Event>, i: nat, strict: bool)
    requires Run(states, moves) && i < |states| && (strict ==> NoLateSpills(states, moves))
    ensures Inv(states[i], strict)
    decreases i
  {
    hide Inv, Step, Initial, LateSpill;
    if i == 0 {
      InitialInv(states[0], strict);
    } else {
      RunInv(states, moves, i - 1, strict);
      StepKeeps(states[i - 1], moves[i - 1].a, moves[i - 1].c, strict);
    }
  }

  /** Nobody can go on without an event from outside: every worker waits without a token, and no wake-up is under
      way. */
  predicate Resting(s: State) {
    && (forall w :: 0 <= w < |s.workers| ==> s.workers[w].pc == Waiting && !s.workers[w].token)
    && (forall a :: 0 <= a < |s.notes| ==> s.notes[a] == Silent)
  }

  predicate NoWork(s: State) {
    s.global == 0 && forall w :: 0 <= w < |s.workers| ==> !s.workers[w].HasTask()
  }

  lemma {:induction false} RestingHasNoWork(s: State, strict: bool)
    requires Inv(s, strict) && Resting(s)
    ensures forall w :: 0 <= w < |s.workers| ==> !s.workers[w].HasTask()
    ensures strict ==> NoWork(s)
  {
    hide Faithful, PickIsSafe, Throttled;
    forall w | 0 <= w < |s.workers|
      ensures !s.workers[w].HasTask() && !Helpful(s, w)
    {
      assert Sensible(s.workers[w]);
      assert !BeingWoken(s, w);
    }
  }

  /** Everybody rests with a task in a queue only after a late spill, and then it is in the global queue. */
  lemma {:induction false} RestsWithoutWork(states: seq<State>, moves: seq<Event>, i: nat)
    requires Run(states, moves) && i < |states| && Resting(states[i])
    ensures forall w :: 0 <= w < |states[i].workers| ==> !states[i].workers[w].HasTask()
    ensures NoLateSpills(states, moves) ==> NoWork(states[i])
  {
    hide Run, Inv, NoWork, NoLateSpills;
    RunInv(states, moves, i, false);
    RestingHasNoWork(states[i], false);
    if NoLateSpills(states, moves) {
      RunInv(states, moves, i, true);
      RestingHasNoWork(states[i], true);
    }
  }

  /** As long as there was no late spill: while the global queue is not empty, a wake-up is under way,
      or some worker is going to look at the queue before it rests. */
  lemma {:induction false} WorkIsWatched(states: seq<State>, moves: seq<Event>, i: nat)
    requires Run(states, moves) && NoLateSpills(states, moves) && i < |states| && states[i].global > 0
    ensures Watched(states[i])
  {
    hide Run, NoLateSpills, Orderly, Faithful, PickIsSafe, Throttled, TokensComing, SomeoneSees, Watched;
    RunInv(states, moves, i, true);
  }

  /** The packed word is faithful: outside the lock it counts the workers that are not in
      the set of sleepers, and the searchers together with the picked sleepers. */
  lemma {:induction false} WordIsFaithful(states: seq<State>, moves: seq<Event>, i: nat)
    requires Run(states, moves) && i < |states| && states[i].lock == None
    ensures NumWorking(states[i].word) == |states[i].workers| - |states[i].sleepers|
    ensures NumSearching(states[i].word) == |Searchers(states[i])|
  {
    hide Run, NumWorking, NumSearching, Orderly, PickIsSafe, Throttled, TokensComing, SomeoneSees, Watched;
    RunInv(states, moves, i, false);
    ReadWord(states[i]);
  }

  /** At most one worker at a time is picked and does not run yet. */
  lemma {:induction false} AtMostOnePicked(states: seq<State>, moves: seq<Event>, i: nat, v: nat, w: nat)
    requires Run(states, moves) && i < |states| && Notified(states[i], v) && Notified(states[i], w)
    ensures v == w
  {
    hide Run, Orderly, Faithful, PickIsSafe, TokensComing, SomeoneSees, Watched;
    RunInv(states, moves, i, false);
  }

  /** Whoever picks a sleeper finds one. */
  lemma {:induction false} PickFindsASleeper(states: seq<State>, moves: seq<Event>, i: nat, a: nat)
    requires Run(states, moves) && i < |states| && a < |states[i].notes| && states[i].notes[a] == Picking
    ensures states[i].sleepers != {} && states[i].lock == Some(a)
  {
    hide Run, Faithful, Throttled, TokensComing, SomeoneSees, Watched;
    RunInv(states, moves, i, false);
    NotLocked(states[i], a);
  }

  /** A picked sleeper that waits has its token, or is about to get it. */
  lemma {:induction false} PickedIsWoken(states: seq<State>, moves: seq<Event>, i: nat, w: nat)
    requires Run(states, moves) && i < |states| && Notified(states[i], w) && states[i].workers[w].pc == Waiting
    ensures states[i].workers[w].token || BeingWoken(states[i], w)
  {
    hide Run, Orderly, Faithful, PickIsSafe, Throttled, SomeoneSees, Watched;
    RunInv(states, moves, i, false);
  }

  /** Fewer than all workers are blind at once. */
  lemma {:induction false} NeverAllBlind(states: seq<State>, moves: seq<Event>, i: nat)
    requires Run(states, moves) && i < |states|
    ensures exists w :: 0 <= w < |states[i].workers| && !states[i].workers[w].blind
  {
    hide Run, Orderly, Faithful, PickIsSafe, Throttled, TokensComing, Watched;
    RunInv(states, moves, i, false);
  }

  // ----- who can go on

  /** Thread `a` has something to do that needs no event from outside. */
  predicate Active(s: State, a: nat) {
    a < |s.notes| && (s.notes[a] != Silent || (a < |s.workers| && (s.workers[a].pc != Waiting || s.workers[a].token)))
  }

  predicate NeedsLock(s: State, a: nat)
    requires a < |s.notes|
  {
    s.notes[a] == Locking
    || (s.notes[a] == Silent && a < |s.workers|
        && (s.workers[a].pc == LeavingLock || s.workers[a].pc == RejoinLock || s.workers[a].pc == ContainsLock))
  }

  lemma {:induction false} SomeoneActive(s: State) returns (a: nat)
    requires Shaped(s) && !Resting(s)
    ensures Active(s, a)
  {
    if b :| 0 <= b < |s.notes| && s.notes[b] != Silent {
      a := b;
    } else {
      a :| 0 <= a < |s.workers| && !(s.workers[a].pc == Waiting && !s.workers[a].token);
    }
  }
}

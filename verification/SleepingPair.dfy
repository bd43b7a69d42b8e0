/** With one or two workers no wake-up is lost, however much arrives for a sleeper:
    whoever takes a task from a sleeper's ring picks that sleeper before it looks
    for anything else. */
module SleepingPair {
  import opened IdleWord
  import opened Wheel
  import opened Sleeping
  import opened SleepingInv
  import opened SleepingSteps
  import opened SleepingSafety
  import opened SleepingRoom
  import Ring

  function Other(w: nat): int {
    1 - w
  }

  /** Slots are kept only by a thief that is copying. */
  predicate KeptByThief(s: State, w: nat)
    requires w < |s.workers|
  {
    s.workers[w].kept > 0 ==>
      0 <= Other(w) < |s.workers| && s.workers[Other(w)].pc.Copying? && s.workers[Other(w)].pc.victim == w
  }

  /** In `wake_up_one` and not yet sure of it, or about to pick. */
  predicate Calling(note: Note) {
    note == Asking || note == Locking || note == Confirming || note == Counting || note == Picking
  }

  /** The other worker took a task from the sleeper, and is on its way to pick it. */
  predicate OnTheWay(x: Worker, note: Note) {
    || x.pc.Copying? || x.pc.Publishing? || (x.pc == Starting && x.searching)
    || (x.pc == Running && Calling(note))
  }

  predicate SomeonePicks(s: State) {
    exists a :: 0 <= a < |s.notes| && s.notes[a] == Picking
  }

  /** A sleeper that is about to push to the global queue has a task of its own, or is picked, or is going to be. */
  predicate Guarded(s: State, w: nat)
    requires w < |s.workers| <= |s.notes|
  {
    || s.workers[w].ring > 0
    || w !in s.sleepers
    || (0 <= Other(w) < |s.workers| &&
        (OnTheWay(s.workers[Other(w)], s.notes[Other(w)]) || (SomeonePicks(s) && Other(w) !in s.sleepers)))
  }

  predicate SpillsAsleep(x: Worker) {
    x.pc.Spilling? && x.pc.src == InSleep
  }

  ghost predicate PairInv(s: State)
    requires |s.workers| <= |s.notes|
  {
    forall w :: 0 <= w < |s.workers| ==> KeptByThief(s, w) && (SpillsAsleep(s.workers[w]) ==> Guarded(s, w))
  }

  // ----- a guarded push is noticed

  lemma {:induction false} GuardedIsNoticed(s: State, w: nat)
    requires Inv(s, false) && Shaped(s) && w < |s.workers| && |s.workers| <= 2 && Guarded(s, w)
    ensures !LateSpill(s, w)
  {
    hide Faithful, PickIsSafe, Throttled, TokensComing, SomeoneSees;
    if w in s.sleepers && s.workers[w].ring == 0 {
      var o := Other(w);
      if OnTheWay(s.workers[o], s.notes[o]) {
        WorkingHelps(s.workers[o], o in s.sleepers);
        assert Sensible(s.workers[o]);
        assert Helpful(s, o);
      } else {
        var a :| 0 <= a < |s.notes| && s.notes[a] == Picking;
        assert Busy(s.notes[a]);
      }
    }
  }

  lemma WorkingHelps(x: Worker, listed: bool)
    requires Sensible(x) && (x.pc.Copying? || x.pc.Publishing? || x.pc == Starting || x.pc == Running)
    ensures Helps(x, listed)
  {
  }

  // ----- the sleeper's own steps

  /** A full ring with kept slots has a thief; half a ring that was taken out leaves half a ring. */
  lemma {:induction false} OwnStepGuarded(s: State, w: nat, c: Choice)
    requires Inv(s, false) && AtLoop(s, w) && |s.workers| <= 2 && PairInv(s)
    requires PartOf(s.workers[w].pc) == Arrive
    ensures var s' := ArriveStep(s, w, c);
      |s'.workers| == |s.workers| <= |s'.notes| && (SpillsAsleep(s'.workers[w]) ==> Guarded(s', w))
  {
    hide Inv, SomeonePicks, Calling, Guarded;
    assert KeptByThief(s, w);
    var s' := ArriveStep(s, w, c);
    if SpillsAsleep(s'.workers[w]) {
      if s.workers[w].pc.Arriving? {
        ThiefGuards(s', w);
      } else {
        FullGuards(s', w);
      }
    }
  }

  lemma ThiefGuards(s: State, w: nat)
    requires w < |s.workers| <= |s.notes| && KeptByThief(s, w) && s.workers[w].kept > 0
    ensures Guarded(s, w)
  {
  }

  lemma FullGuards(s: State, w: nat)
    requires w < |s.workers| <= |s.notes| && s.workers[w].ring > 0
    ensures Guarded(s, w)
  {
  }

  /** No other step of a worker puts it among the pushes to the global queue. */
  lemma {:induction false} OnlyArrivalsSpill(s: State, w: nat, c: Choice)
    requires AtLoop(s, w) && PartOf(s.workers[w].pc) != Arrive
    ensures |Step(s, w, c).workers| == |s.workers| && !SpillsAsleep(Step(s, w, c).workers[w])
  {
    hide PollStep, ArriveStep, TakeStep, RunStep, LeaveStep, WakeStep, NoteStep, SearchStep, RestFits;
    NotSpilling(s, w, c);
    match PartOf(s.workers[w].pc)
    case Loop =>
    case Poll =>
    case Arrive =>
    case Take => TakeFits(s, w, c); FitsIsNotSpilling(TakeStep(s, w, c).workers[w]);
    case Search => SearchFits(s, w, c); FitsIsNotSpilling(SearchStep(s, w, c).workers[w]);
    case Perform =>
    case Leave => LeaveFits(s, w, c); FitsIsNotSpilling(LeaveStep(s, w, c).workers[w]);
    case Awaken => WakingNotSpilling(s, w, c);
  }

  lemma FitsIsNotSpilling(x: Worker)
    requires RestFits(x)
    ensures !SpillsAsleep(x)
  {
  }

  lemma NotSpilling(s: State, w: nat, c: Choice)
    requires AtLoop(s, w)
    ensures PartOf(s.workers[w].pc) == Poll ==>
      |PollStep(s, w, c).workers| == |s.workers| && !SpillsAsleep(PollStep(s, w, c).workers[w])
    ensures PartOf(s.workers[w].pc) == Perform ==>
      |RunStep(s, w, c).workers| == |s.workers| && !SpillsAsleep(RunStep(s, w, c).workers[w])
  {
    hide NumSearching, DecSearching;
  }

  lemma WakingNotSpilling(s: State, w: nat, c: Choice)
    requires AtLoop(s, w) && PartOf(s.workers[w].pc) == Awaken
    ensures |WakeStep(s, w, c).workers| == |s.workers| && !SpillsAsleep(WakeStep(s, w, c).workers[w])
  {
    hide WakeUpOne;
  }

  // ----- the steps of others

  lemma WorkerSleepers(s: State, a: nat, c: Choice, v: nat)
    requires AtLoop(s, a) && v != a
    ensures v in WorkerStep(s, a, c).sleepers <==> v in s.sleepers
  {
    hide NumSearching, WakeUpOne, DecWorking, IncSearching, DecSearching, PollStep, ArriveStep, TakeStep, RunStep,
      SearchStep;
    SleepersElsewhere(s, a, c);
  }

  /** Only falling asleep and waking up change the set of sleepers. */
  lemma SleepersElsewhere(s: State, a: nat, c: Choice)
    requires AtLoop(s, a)
    ensures PollStep(s, a, c).sleepers == s.sleepers && ArriveStep(s, a, c).sleepers == s.sleepers
    ensures TakeStep(s, a, c).sleepers == s.sleepers && RunStep(s, a, c).sleepers == s.sleepers
    ensures SearchStep(s, a, c).sleepers == s.sleepers
  {
    hide NumSearching, IncSearching, DecSearching;
  }

  lemma EntersOnlyThere(s: State, a: nat, c: Choice)
    requires AtLoop(s, a) && !s.workers[a].pc.Entering? && a !in s.sleepers
    ensures a !in WorkerStep(s, a, c).sleepers
  {
    hide NumSearching, WakeUpOne, DecWorking, IncSearching, DecSearching, PollStep, ArriveStep, TakeStep, RunStep,
      SearchStep;
    SleepersElsewhere(s, a, c);
  }

  lemma OthersNotes(s: State, a: nat, c: Choice, b: nat)
    requires Shaped(s) && a < |s.notes| && b < |s.notes| && b != a
    ensures |Step(s, a, c).notes| == |s.notes| && Step(s, a, c).notes[b] == s.notes[b]
  {
    hide PollStep, ArriveStep, TakeStep, RunStep, LeaveStep, WakeStep, NoteStep, SearchStep;
    NoteOthersNotes(s, a, c, b);
    if AtLoop(s, a) {
      LoopOthersNotes(s, a, c, b);
      LeaveOthersNotes(s, a, c, b);
    }
  }

  lemma NoteOthersNotes(s: State, a: nat, c: Choice, b: nat)
    requires Shaped(s) && a < |s.notes| && b < |s.notes| && b != a
    ensures |NoteStep(s, a, c).notes| == |s.notes| && NoteStep(s, a, c).notes[b] == s.notes[b]
  {
    hide NumSearching, NumWorking, WakeUpOne;
  }

  lemma LoopOthersNotes(s: State, a: nat, c: Choice, b: nat)
    requires AtLoop(s, a) && b < |s.notes| && b != a
    ensures |PollStep(s, a, c).notes| == |s.notes| && PollStep(s, a, c).notes[b] == s.notes[b]
    ensures |ArriveStep(s, a, c).notes| == |s.notes| && ArriveStep(s, a, c).notes[b] == s.notes[b]
    ensures |TakeStep(s, a, c).notes| == |s.notes| && TakeStep(s, a, c).notes[b] == s.notes[b]
    ensures |RunStep(s, a, c).notes| == |s.notes| && RunStep(s, a, c).notes[b] == s.notes[b]
  {
    hide NumSearching, DecSearching;
  }

  lemma LeaveOthersNotes(s: State, a: nat, c: Choice, b: nat)
    requires AtLoop(s, a) && b < |s.notes| && b != a
    ensures |SearchStep(s, a, c).notes| == |s.notes| && SearchStep(s, a, c).notes[b] == s.notes[b]
    ensures |LeaveStep(s, a, c).notes| == |s.notes| && LeaveStep(s, a, c).notes[b] == s.notes[b]
    ensures |WakeStep(s, a, c).notes| == |s.notes| && WakeStep(s, a, c).notes[b] == s.notes[b]
  {
    hide NumSearching, WakeUpOne, DecWorking, IncSearching;
  }

  /** A thread that picks holds the lock. */
  lemma PickerHolds(s: State, a: nat)
    requires Orderly(s) && a < |s.notes| && s.notes[a] == Picking
    ensures s.lock == Some(a)
  {
    assert Holding(s, a) <==> s.lock == Some(a);
  }

  ghost predicate TwoWorkers(s: State, w: nat) {
    && Inv(s, false) && Shaped(s) && |s.workers| == 2 && w < 2
    && SpillsAsleep(s.workers[w]) && w in s.sleepers
  }

  /** Among the two, the other one is the only searcher, or somebody is picking. */
  lemma {:induction false} OnlySearcher(s: State, w: nat)
    requires TwoWorkers(s, w) && s.workers[Other(w)].searching
    ensures NumSearching(s.word) == 1 || SomeonePicks(s)
  {
    hide PickIsSafe, Throttled, TokensComing, SomeoneSees, NumSearching, NumWorking, Sensible;
    ReadWord(s);
    SleeperNotCounted(s, w);
    var o := Other(w);
    forall v: nat
      ensures v in Searchers(s) <==> v == o
    {
    }
    assert Searchers(s) == {o};
  }

  lemma {:induction false} NobodySearches(s: State, w: nat)
    requires TwoWorkers(s, w) && s.workers[Other(w)].pc == Running
    ensures Searchers(s) == {} && |s.sleepers| >= 1
  {
    hide Faithful, PickIsSafe, Throttled, TokensComing, SomeoneSees, Sensible;
    SleeperNotCounted(s, w);
    var o := Other(w);
    RunnerNotCounted(s, o);
    forall v: nat
      ensures v !in Searchers(s)
    {
      assert v == w || v == o || v >= 2;
    }
  }

  lemma RunnerNotCounted(s: State, o: nat)
    requires Orderly(s) && o < |s.workers| && s.workers[o].pc == Running
    ensures !Counted(s, o)
  {
    assert Sensible(s.workers[o]);
  }

  /** While the other one runs and the sleeper is listed, a wake-up is called for, or somebody is picking. */
  lemma {:induction false} CallNeeded(s: State, w: nat)
    requires TwoWorkers(s, w) && s.workers[Other(w)].pc == Running
    ensures ShouldWake(s) || SomeonePicks(s)
  {
    hide Orderly, PickIsSafe, Throttled, TokensComing, SomeoneSees, NumSearching, NumWorking, SpillsAsleep, Searchers;
    ReadWord(s);
    NobodySearches(s, w);
  }

  /** The other worker goes on with its loop. */
  lemma {:induction false} OtherWorks(s: State, w: nat, c: Choice)
    requires TwoWorkers(s, w) && AtLoop(s, Other(w)) && s.workers[w].ring == 0 && Guarded(s, w)
    ensures Shaped(Step(s, Other(w), c)) && |Step(s, Other(w), c).workers| == 2 && Guarded(Step(s, Other(w), c), w)
  {
    hide Faithful, PickIsSafe, Throttled, TokensComing, SomeoneSees, Step;
    var o := Other(w);
    var s' := Step(s, o, c);
    SameNumber(s, o, c);
    if OnTheWay(s.workers[o], s.notes[o]) {
      WayGoesOn(s, w, c);
    } else {
      var a :| 0 <= a < |s.notes| && s.notes[a] == Picking;
      PickerHolds(s, a);
      OthersNotes(s, o, c, a);
      assert Holding(s, o) <==> s.lock == Some(o);
      OtherStaysOut(s, o, c);
    }
  }

  lemma OtherStaysOut(s: State, o: nat, c: Choice)
    requires AtLoop(s, o) && !s.workers[o].pc.Entering? && o !in s.sleepers
    ensures o !in Step(s, o, c).sleepers
  {
    hide WorkerStep;
    EntersOnlyThere(s, o, c);
  }

  lemma {:induction false} WayGoesOn(s: State, w: nat, c: Choice)
    requires TwoWorkers(s, w) && AtLoop(s, Other(w)) && OnTheWay(s.workers[Other(w)], Silent)
    ensures var s' := Step(s, Other(w), c);
      |s'.workers| == 2 <= |s'.notes| && Guarded(s', w)
  {
    hide Inv, SpillsAsleep, NumSearching, DecSearching;
    WorkerFacts(s, Other(w), false);
    if s.workers[Other(w)].pc == Starting {
      WayIsFound(s, w, c);
    }
  }

  /** The thief runs what it took: it starts a wake-up, unless somebody is picking already. */
  lemma {:induction false} WayIsFound(s: State, w: nat, c: Choice)
    requires TwoWorkers(s, w) && AtLoop(s, Other(w))
    requires s.workers[Other(w)].pc == Starting && s.workers[Other(w)].searching
    ensures var s' := Step(s, Other(w), c);
      |s'.workers| == 2 <= |s'.notes| && Guarded(s', w)
  {
    hide Inv, SpillsAsleep, NumSearching, DecSearching;
    var o := Other(w);
    OnlySearcher(s, w);
    WorkerFacts(s, o, false);
    if NumSearching(s.word) != 1 {
      var a :| 0 <= a < |s.notes| && s.notes[a] == Picking;
      OthersNotes(s, o, c, a);
      assert Step(s, o, c).notes[a] == Picking;
    }
  }

  /** The other worker, in its wake-up. */
  lemma {:induction false} OtherCalls(s: State, w: nat, c: Choice)
    requires TwoWorkers(s, w) && s.workers[Other(w)].pc == Running && Calling(s.notes[Other(w)])
    ensures var s' := Step(s, Other(w), c);
      |s'.workers| == 2 <= |s'.notes| && Guarded(s', w)
  {
    hide Orderly, Faithful, PickIsSafe, Throttled, TokensComing, SomeoneSees, NumSearching, NumWorking, WakeUpOne,
      ShouldWake;
    var o := Other(w);
    CallNeeded(s, w);
    OtherRunsFacts(s, w);
    if s.notes[o] != Picking && !ShouldWake(s) {
      var a :| 0 <= a < |s.notes| && s.notes[a] == Picking;
      OthersNotes(s, o, c, a);
    }
  }

  lemma OtherRunsFacts(s: State, w: nat)
    requires TwoWorkers(s, w) && s.workers[Other(w)].pc == Running
    ensures Other(w) !in s.sleepers && s.sleepers == {w}
  {
    hide Faithful, PickIsSafe, Throttled, TokensComing, SomeoneSees, Sensible, SpillsAsleep;
    OnlySleeper(s, w);
  }

  lemma OnlySleeper(s: State, w: nat)
    requires Orderly(s) && |s.workers| == 2 && w < 2 && w in s.sleepers && Other(w) !in s.sleepers
    ensures s.sleepers == {w}
  {
    hide Sensible, Holding;
    forall v | v in s.sleepers
      ensures v == w
    {
      assert v == w || v == Other(w);
    }
  }

  /** An outside thread, or the other worker with a wake-up of which nothing depends. */
  lemma {:induction false} OutsiderKeepsGuard(s: State, w: nat, a: nat, c: Choice)
    requires TwoWorkers(s, w) && a < |s.notes| && a != w && s.workers[w].ring == 0 && Guarded(s, w)
    requires a >= 2 || s.notes[a] != Silent
    requires a == Other(w) ==> !OnTheWay(s.workers[a], s.notes[a])
    ensures var s' := Step(s, a, c);
      |s'.workers| == 2 <= |s'.notes| && Guarded(s', w)
  {
    hide Faithful, PickIsSafe, Throttled, TokensComing, SomeoneSees, Step;
    var o := Other(w);
    var s' := Step(s, a, c);
    SameNumber(s, a, c);
    if OnTheWay(s.workers[o], s.notes[o]) {
      OthersRecord(s, a, c, o);
      OthersNotes(s, a, c, o);
    } else {
      var b :| 0 <= b < |s.notes| && s.notes[b] == Picking;
      PickerHolds(s, b);
      if a == b {
        PickTakesIt(s, w, a, c);
      } else {
        OthersNotes(s, a, c, b);
        SleepersStay(s, a, c);
        assert s'.notes[b] == Picking;
      }
    }
  }

  lemma SleepersStay(s: State, a: nat, c: Choice)
    requires Orderly(s) && a < |s.notes| && s.lock != Some(a) && (a >= |s.workers| || s.notes[a] != Silent)
    ensures Step(s, a, c).sleepers == s.sleepers
  {
    hide NumSearching, NumWorking, WakeUpOne, WorkerStep;
    assert Holding(s, a) <==> s.lock == Some(a);
  }

  lemma PickTakesIt(s: State, w: nat, a: nat, c: Choice)
    requires TwoWorkers(s, w) && a < |s.notes| && s.notes[a] == Picking && Other(w) !in s.sleepers
    ensures var s' := Step(s, a, c);
      |s'.workers| == 2 <= |s'.notes| && Guarded(s', w)
  {
    hide Faithful, PickIsSafe, Throttled, TokensComing, SomeoneSees, Orderly, Sensible, SpillsAsleep, OnTheWay,
      WorkerStep;
    OnlySleeper(s, w);
    if c.Pick? && c.sleeper in s.sleepers {
      assert c.sleeper == w;
    } else {
      assert Step(s, a, c) == s;
    }
  }

  // ----- every step

  lemma {:induction false} GuardStays(s: State, a: nat, c: Choice, w: nat)
    requires Inv(s, false) && Shaped(s) && |s.workers| <= 2 && a < |s.notes| && w < |s.workers| && a != w
    requires SpillsAsleep(s.workers[w]) && Guarded(s, w)
    ensures var s' := Step(s, a, c);
      |s'.workers| == |s.workers| <= |s'.notes| && Guarded(s', w)
  {
    hide Inv, Step, SpillsAsleep, OnTheWay, SomeonePicks;
    var s' := Step(s, a, c);
    SameNumber(s, a, c);
    OthersRecord(s, a, c, w);
    if w !in s.sleepers {
      SleepersOnlyLeave(s, a, c, w);
    } else if s.workers[w].ring > 0 {
      if s'.workers[w].ring == 0 {
        assert StepsTo(s, a, c, Copying(w, s'.workers[w].kept));
        ThiefIsOnItsWay(s', a);
      }
    } else if a < 2 && s.notes[a] == Silent {
      OtherWorks(s, w, c);
    } else if a == Other(w) && OnTheWay(s.workers[a], s.notes[a]) {
      CallerRuns(s, a);
      OtherCalls(s, w, c);
    } else {
      OutsiderKeepsGuard(s, w, a, c);
    }
  }

  lemma ThiefIsOnItsWay(s: State, a: nat)
    requires a < |s.workers| <= |s.notes| && s.workers[a].pc.Copying?
    ensures OnTheWay(s.workers[a], s.notes[a])
  {
  }

  lemma CallerRuns(s: State, a: nat)
    requires Inv(s, false) && a < |s.workers| && Shaped(s) && s.notes[a] != Silent && OnTheWay(s.workers[a], s.notes[a])
    ensures s.workers[a].pc == Running && Calling(s.notes[a])
  {
    assert MayNote(s.workers[a].pc);
  }

  /** Nobody else puts a worker among the sleepers. */
  lemma SleepersOnlyLeave(s: State, a: nat, c: Choice, w: nat)
    requires Shaped(s) && a < |s.notes| && w != a && w !in s.sleepers
    ensures w !in Step(s, a, c).sleepers
  {
    hide WorkerStep, NumSearching, NumWorking, WakeUpOne;
    if AtLoop(s, a) {
      WorkerSleepers(s, a, c, w);
    }
  }

  lemma {:induction false} KeptStays(s: State, a: nat, c: Choice, w: nat)
    requires Inv(s, false) && Shaped(s) && |s.workers| <= 2 && a < |s.notes| && w < |s.workers|
    requires KeptByThief(s, w)
    ensures |Step(s, a, c).workers| == |s.workers| && KeptByThief(Step(s, a, c), w)
  {
    hide Inv, Step;
    var s' := Step(s, a, c);
    SameNumber(s, a, c);
    if s.notes[a] != Silent {
      NoteKeepsRecord(s, a, c, w);
      if 0 <= Other(w) < |s.workers| {
        NoteKeepsRecord(s, a, c, Other(w));
      }
    } else if a == w {
      OwnKept(s, w, c);
      if 0 <= Other(w) < |s.workers| {
        OthersRecord(s, a, c, Other(w));
      }
    } else {
      OthersRecord(s, a, c, w);
      if a < |s.workers| && s'.workers[w].kept > 0 && s'.workers[w].kept == s.workers[w].kept {
        ThiefReleases(s, a, c, w);
      } else if a >= |s.workers| && 0 <= Other(w) < |s.workers| {
        OutsiderKeepsRecord(s, a, c, w);
        OutsiderKeepsRecord(s, a, c, Other(w));
      }
    }
  }

  lemma OutsiderKeepsRecord(s: State, a: nat, c: Choice, w: nat)
    requires Shaped(s) && |s.workers| <= a < |s.notes| && s.notes[a] == Silent && w < |s.workers|
    ensures |Step(s, a, c).workers| == |s.workers| && Step(s, a, c).workers[w] == s.workers[w]
  {
  }

  /** A worker's own step keeps slots only if some were kept. */
  lemma OwnKept(s: State, w: nat, c: Choice)
    requires AtLoop(s, w)
    ensures |Step(s, w, c).workers| == |s.workers| && (Step(s, w, c).workers[w].kept > 0 ==> s.workers[w].kept > 0)
  {
    hide PollStep, ArriveStep, TakeStep, RunStep, LeaveStep, WakeStep, NoteStep, SearchStep;
    OwnKeptTaking(s, w, c);
    OwnKeptSearching(s, w, c);
    OwnKeptSleeping(s, w, c);
    OwnKeptRunning(s, w, c);
    OwnKeptWaking(s, w, c);
  }

  lemma OwnKeptTaking(s: State, w: nat, c: Choice)
    requires AtLoop(s, w)
    ensures |TakeStep(s, w, c).workers| == |s.workers|
    ensures TakeStep(s, w, c).workers[w].kept > 0 ==> s.workers[w].kept > 0
    ensures |ArriveStep(s, w, c).workers| == |s.workers| && ArriveStep(s, w, c).workers[w].kept == s.workers[w].kept
  {
  }

  lemma OwnKeptRunning(s: State, w: nat, c: Choice)
    requires AtLoop(s, w)
    ensures |PollStep(s, w, c).workers| == |s.workers| && PollStep(s, w, c).workers[w].kept == s.workers[w].kept
    ensures |RunStep(s, w, c).workers| == |s.workers| && RunStep(s, w, c).workers[w].kept == s.workers[w].kept
  {
    hide NumSearching, DecSearching;
  }

  lemma OwnKeptSearching(s: State, w: nat, c: Choice)
    requires AtLoop(s, w)
    ensures |SearchStep(s, w, c).workers| == |s.workers| && SearchStep(s, w, c).workers[w].kept == s.workers[w].kept
  {
    hide NumSearching, IncSearching;
  }

  lemma OwnKeptSleeping(s: State, w: nat, c: Choice)
    requires AtLoop(s, w)
    ensures |LeaveStep(s, w, c).workers| == |s.workers| && LeaveStep(s, w, c).workers[w].kept == s.workers[w].kept
  {
    hide NumSearching, DecWorking;
  }

  lemma OwnKeptWaking(s: State, w: nat, c: Choice)
    requires AtLoop(s, w)
    ensures |WakeStep(s, w, c).workers| == |s.workers| && WakeStep(s, w, c).workers[w].kept == s.workers[w].kept
  {
    hide WakeUpOne;
  }

  /** When the thief goes on, it gives the slots back. */
  lemma ThiefReleases(s: State, a: nat, c: Choice, w: nat)
    requires AtLoop(s, a) && w < |s.workers| && w != a && s.workers[a].pc.Copying? && s.workers[a].pc.victim == w
    ensures |Step(s, a, c).workers| == |s.workers| && Step(s, a, c).workers[w].kept == 0
  {
    hide NumSearching, IncSearching;
  }

  lemma {:induction false} PairStep(s: State, a: nat, c: Choice)
    requires Inv(s, false) && Shaped(s) && |s.workers| <= 2 && a < |s.notes| && PairInv(s)
    ensures Shaped(Step(s, a, c)) && PairInv(Step(s, a, c))
  {
    hide Inv, Step, Guarded, KeptByThief, SpillsAsleep;
    var s' := Step(s, a, c);
    SameNumber(s, a, c);
    forall w | 0 <= w < |s'.workers|
      ensures KeptByThief(s', w) && (SpillsAsleep(s'.workers[w]) ==> Guarded(s', w))
    {
      KeptStays(s, a, c, w);
      if w == a {
        OwnStep(s, a, c);
      } else {
        OthersRecord(s, a, c, w);
        SamePlace(s.workers[w], s'.workers[w]);
        if SpillsAsleep(s.workers[w]) {
          GuardStays(s, a, c, w);
        }
      }
    }
  }

  lemma SamePlace(x: Worker, y: Worker)
    requires y.pc == x.pc
    ensures SpillsAsleep(y) <==> SpillsAsleep(x)
  {
  }

  lemma {:induction false} OwnStep(s: State, w: nat, c: Choice)
    requires Inv(s, false) && Shaped(s) && |s.workers| <= 2 && w < |s.workers| && PairInv(s)
    ensures var s' := Step(s, w, c);
      |s'.workers| == |s.workers| <= |s'.notes| && (SpillsAsleep(s'.workers[w]) ==> Guarded(s', w))
  {
    hide Inv, Guarded, KeptByThief, ArriveStep, PollStep, TakeStep, RunStep, LeaveStep, WakeStep, NoteStep, SearchStep;
    SameNumber(s, w, c);
    if s.notes[w] != Silent {
      NoteKeepsRecord(s, w, c, w);
      NotingIsNotSpilling(s, w);
    } else if PartOf(s.workers[w].pc) == Arrive {
      OwnStepGuarded(s, w, c);
    } else {
      OnlyArrivalsSpill(s, w, c);
    }
  }

  lemma NotingIsNotSpilling(s: State, w: nat)
    requires Inv(s, false) && Shaped(s) && w < |s.workers| && s.notes[w] != Silent
    ensures !SpillsAsleep(s.workers[w])
  {
    assert MayNote(s.workers[w].pc);
  }

  lemma {:induction false} PairAlways(states: seq<State>, moves: seq<Event>, i: nat)
    requires Run(states, moves) && i < |states| && |states[0].workers| <= 2
    ensures Shaped(states[i]) && |states[i].workers| == |states[0].workers| && PairInv(states[i])
    decreases i
  {
    hide Inv, Step, KeptByThief, Guarded;
    if i == 0 {
      NothingYet(states[0]);
    } else {
      PairAlways(states, moves, i - 1);
      RunInv(states, moves, i - 1, false);
      SameNumber(states[i - 1], moves[i - 1].a, moves[i - 1].c);
      PairStep(states[i - 1], moves[i - 1].a, moves[i - 1].c);
    }
  }

  lemma NothingYet(s: State)
    requires Initial(s)
    ensures PairInv(s)
  {
  }

  /** With at most two workers no push to the global queue is late. */
  lemma {:induction false} PairNeverLate(states: seq<State>, moves: seq<Event>)
    requires Run(states, moves) && |states[0].workers| <= 2
    ensures NoLateSpills(states, moves)
  {
    hide Inv, Step, Run, Guarded, KeptByThief;
    forall i | 0 <= i < |moves| && i < |states|
      ensures !LateSpill(states[i], moves[i].a)
    {
      var s, a := states[i], moves[i].a;
      PairAlways(states, moves, i);
      RunInv(states, moves, i, false);
      if LateSpill(s, a) {
        GuardedIsNoticed(s, a);
      }
    }
  }
}

/** Every step of every thread keeps the invariant. */
module SleepingSteps {
  import opened IdleWord
  import opened Wheel
  import opened Sleeping
  import opened SleepingInv

  // ----- the loop while awake

  lemma {:induction false} LoopKeeps(s: State, w: nat, pc: Pc, strict: bool)
    requires Inv(s, strict) && AtLoop(s, w) && (s.workers[w].pc == Top || s.workers[w].pc == NextTask)
    requires pc == Polling(false) || pc == NextTask || pc == TakingGlobal(true) || pc == TakingLocal(false)
    ensures Inv(Move(s, w, pc), strict)
  {
    hide Inv, OthersSee;
    WorkerFacts(s, w, strict);
    QuietKeeps(s, w, s.workers[w].(pc := pc), false, s.global, strict);
  }

  lemma PollHelps(x: Worker, y: Worker)
    requires Sensible(x) && x.pc.Polling? && y == x.(pc := y.pc, blind := false, token := y.token)
    requires y.pc.Arriving? && (y.pc.src == Upkeep || y.pc.src == LastPoll)
    ensures QuietMove(x, y, false, false) && Helps(y, false)
  {
  }

  lemma {:induction false} PolledKeeps(s: State, w: nat, y: Worker, strict: bool)
    requires Inv(s, strict) && AtLoop(s, w) && s.workers[w].pc.Polling?
    requires y == s.workers[w].(pc := y.pc, blind := false, token := y.token)
    requires y.pc.Arriving? && (y.pc.src == Upkeep || y.pc.src == LastPoll)
    ensures Inv(SetWorker(s, w, y), strict)
  {
    hide Inv, OthersWatch, OthersSee, QuietMove, Helps, Sensible;
    WorkerFacts(s, w, strict);
    PollHelps(s.workers[w], y);
    QuietKeeps(s, w, y, false, s.global, strict);
  }

  lemma {:induction false} PolledNothingKeeps(s: State, w: nat, strict: bool)
    requires Inv(s, strict) && AtLoop(s, w) && s.workers[w].pc.Polling?
    ensures Inv(Move(s, w, if s.workers[w].pc.last then Leaving else NextTask), strict)
  {
    hide Inv, OthersWatch, OthersSee;
    WorkerFacts(s, w, strict);
    QuietKeeps(s, w, s.workers[w].(pc := if s.workers[w].pc.last then Leaving else NextTask), false, s.global, strict);
  }

  lemma {:induction false} PollingKeeps(s: State, w: nat, c: Choice, strict: bool)
    requires Inv(s, strict) && AtLoop(s, w) && s.workers[w].pc.Polling?
    ensures Inv(PollStep(s, w, c), strict)
  {
    hide Inv;
    if c.Events? {
      PolledKeeps(s, w, PollStep(s, w, c).workers[w], strict);
    } else {
      PolledNothingKeeps(s, w, strict);
    }
  }

  lemma {:induction false} TellingKeeps(s: State, w: nat, c: Choice, strict: bool)
    requires Inv(s, strict) && AtLoop(s, w) && s.workers[w].pc.Telling?
    ensures Inv(PollStep(s, w, c), strict)
  {
    hide Inv, OthersWatch, OthersSee;
    WorkerFacts(s, w, strict);
    var x := s.workers[w];
    QuietKeeps(s, w, x.(pc := if x.pc.last then Top else NextTask), !x.searching && x.ring > 1, s.global, strict);
  }

  // ----- push_back_or_overflow

  /** A worker's own way through the pushes. */
  predicate PushMove(x: Worker, y: Worker) {
    && Pushing(x.pc) && y == x.(pc := y.pc, ring := y.ring)
    && ((Pushing(y.pc) && y.pc.src == x.pc.src) || (x.pc.Arriving? && y.pc == Onward(x.pc.src)))
  }

  lemma PushHelps(x: Worker, y: Worker, listed: bool)
    requires Sensible(x) && PushMove(x, y)
    ensures QuietMove(x, y, listed, false) && (y.pc == Running ==> QuietMove(x, y, listed, true))
    ensures y.blind == x.blind && (Asleep(x.pc) <==> x.pc.src == InSleep)
    ensures x.pc.src != InSleep && !listed ==> Helps(y, listed)
    ensures x.pc.src == InSleep ==> (Helps(y, listed) <==> !listed || y.ring > 0)
    ensures x.pc.src == InSleep ==> (Helps(x, listed) <==> !listed || x.ring > 0)
  {
  }

  /** The push of a sleeping worker to the global queue that nobody is going to notice: the worker
      has no task of its own and was not picked, and nobody else is going to look. */
  ghost predicate LateSpill(s: State, w: nat) {
    && AtLoop(s, w) && s.workers[w].pc.Spilling? && s.workers[w].pc.src == InSleep
    && s.workers[w].pc.amount > 0 && s.workers[w].ring == 0 && w in s.sleepers
    && !OthersWatch(s, w)
  }

  /** Any step among the pushes that does not put a task into the global queue unnoticed. */
  lemma {:induction false} PushKeeps(s: State, w: nat, y: Worker, asks: bool, more: nat, strict: bool)
    requires Inv(s, strict) && AtLoop(s, w) && PushMove(s.workers[w], y) && (asks ==> y.pc == Running)
    requires strict && s.workers[w].pc.src == InSleep && w in s.sleepers && y.ring == 0 ==>
      s.workers[w].ring == 0 && (more > 0 ==> OthersWatch(s, w))
    ensures Inv(State(s.word, s.sleepers, s.lock, s.global + more, s.workers[w := y],
                      if asks then s.notes[w := Asking] else s.notes), strict)
  {
    hide Inv, OthersWatch, OthersSee, QuietMove, Helps, Sensible, PushMove;
    WorkerFacts(s, w, strict);
    PushHelps(s.workers[w], y, w in s.sleepers);
    QuietKeeps(s, w, y, asks, s.global + more, strict);
  }

  lemma {:induction false} ArriveKeeps(s: State, w: nat, c: Choice, strict: bool)
    requires Inv(s, strict) && AtLoop(s, w) && Pushing(s.workers[w].pc) && (strict ==> !LateSpill(s, w))
    ensures Inv(ArriveStep(s, w, c), strict)
  {
    hide Inv, OthersWatch;
    var s' := ArriveStep(s, w, c);
    PushKeeps(s, w, s'.workers[w], s'.notes[w] == Asking, s'.global - s.global, strict);
    assert s.workers[w].pc.Arriving? || s'.notes == s.notes;
  }

  predicate Taking(pc: Pc) {
    pc.TakingLocal? || pc.TakingGlobal? || pc.Batching?
  }

  lemma TakeHelps(x: Worker, y: Worker)
    requires Sensible(x) && Taking(x.pc)
    requires y == x.(pc := y.pc, lifo := y.lifo, ring := y.ring, kept := y.kept)
    requires Taking(y.pc) || y.pc == Starting || y.pc == Electing
    requires OutOfTasks(y.pc) ==> !y.HasTask()
    ensures QuietMove(x, y, false, false) && Helps(y, false) && !y.blind && !Asleep(x.pc)
  {
  }

  lemma {:induction false} TakingKeeps(s: State, w: nat, c: Choice, strict: bool)
    requires Inv(s, strict) && AtLoop(s, w) && Taking(s.workers[w].pc)
    ensures Inv(TakeStep(s, w, c), strict)
  {
    hide Inv, OthersWatch, OthersSee, QuietMove, Helps, Asleep;
    WorkerFacts(s, w, strict);
    var s' := TakeStep(s, w, c);
    TakeHelps(s.workers[w], s'.workers[w]);
    QuietKeeps(s, w, s'.workers[w], false, s'.global, strict);
  }

  lemma {:induction false} ScanningGlobalKeeps(s: State, w: nat, c: Choice, strict: bool)
    requires Inv(s, strict) && AtLoop(s, w) && s.workers[w].pc == ScanningGlobal
    ensures Inv(TakeStep(s, w, c), strict)
  {
    hide Inv, OthersWatch, OthersSee;
    WorkerFacts(s, w, strict);
    var s' := TakeStep(s, w, c);
    QuietKeeps(s, w, s'.workers[w], false, s'.global, strict);
  }

  // ----- searching

  /** Whoever is refused the searching role leaves a searcher behind, or one about to be picked. */
  lemma {:induction false} RefusedLeavesOthers(s: State, w: nat, strict: bool)
    requires Inv(s, strict) && AtLoop(s, w) && s.workers[w].pc == Electing && !s.workers[w].searching
    requires NumSearching(s.word) > 0
    ensures OthersWatch(s, w) && OthersSee(s, w)
  {
    hide NumSearching, Faithful, SomeoneSees, Throttled, TokensComing, Watched;
    if Lent(s) > 0 {
      assert Busy(s.notes[s.lock.value]);
      var v :| v in s.sleepers;
      SleeperNotCounted(s, v);
    } else {
      var v := SearcherExists(s);
      assert Helpful(s, v);
      assert Sensible(s.workers[v]);
    }
  }

  lemma {:induction false} ElectingKeeps(s: State, w: nat, c: Choice, strict: bool)
    requires Inv(s, strict) && AtLoop(s, w) && s.workers[w].pc == Electing
    ensures Inv(SearchStep(s, w, c), strict)
  {
    hide Inv, OthersWatch, OthersSee, NumSearching;
    WorkerFacts(s, w, strict);
    var x := s.workers[w];
    if x.searching {
      QuietKeeps(s, w, x.(pc := Scanning), false, s.global, strict);
    } else if 2 * NumSearching(s.word) >= |s.workers| {
      RefusedLeavesOthers(s, w, strict);
      QuietKeeps(s, w, x.(pc := Polling(true), blind := true), false, s.global, strict);
    } else {
      QuietKeeps(s, w, x.(pc := Joining), false, s.global, strict);
    }
  }

  lemma {:induction false} JoiningKeeps(s: State, w: nat, c: Choice, strict: bool)
    requires Inv(s, strict) && AtLoop(s, w) && s.workers[w].pc == Joining
    ensures Inv(SearchStep(s, w, c), strict)
  {
    hide Orderly, PickIsSafe, Throttled, TokensComing, SomeoneSees, Watched, OthersWatch, OthersSee,
      NumSearching, NumWorking, IncSearching, Working, Searching;
    WorkerFacts(s, w, strict);
    var x := s.workers[w].(pc := Scanning, searching := true);
    var word := IncSearching(s.word);
    if Fits(Working(s), Searching(s) + 1) {
      IncSearchingFaithful(Working(s), Searching(s));
    }
    assert After(s, w, x, false, false, word, s.lock, s.global).sleepers == s.sleepers;
    AfterKeeps(s, w, x, false, false, word, s.lock, s.global, strict);
  }

  /** A thief changes its victim's ring, which the thief itself makes up for, and goes on. */
  lemma {:induction false} StealingKeeps(s: State, w: nat, victim: nat, ring: nat, kept: nat, pc: Pc, strict: bool)
    requires Inv(s, strict) && AtLoop(s, w) && victim < |s.workers| && victim != w && ring <= s.workers[victim].ring
    requires (s.workers[w].pc == Scanning && pc.Copying?) || (s.workers[w].pc.Copying? && pc.Publishing?)
    ensures Inv(Move(SetWorker(s, victim, s.workers[victim].(ring := ring, kept := kept)), w, pc), strict)
  {
    hide Inv, OthersWatch, OthersSee;
    WorkerFacts(s, w, strict);
    var v := s.workers[victim];
    var s1 := SetWorker(s, victim, v.(ring := ring, kept := kept));
    assert Watched(s1) by {
      assert Helpful(s1, w);
    }
    TouchKeeps(s, victim, ring, kept, v.token, strict);
    SearchesOn(s1, w, s.workers[w].(pc := pc), strict);
  }

  lemma {:induction false} SearchesOn(s: State, w: nat, y: Worker, strict: bool)
    requires Inv(s, strict) && AtLoop(s, w)
    requires var x := s.workers[w];
      || (x.pc == Scanning && y.pc.Copying? && y == x.(pc := y.pc))
      || (x.pc.Copying? && y.pc.Publishing? && y == x.(pc := y.pc))
      || (x.pc.Publishing? && y.pc == Starting && y == x.(pc := Starting, ring := y.ring))
    ensures Inv(SetWorker(s, w, y), strict)
  {
    hide Inv, OthersWatch, OthersSee;
    WorkerFacts(s, w, strict);
    QuietKeeps(s, w, y, false, s.global, strict);
  }

  lemma {:induction false} FoundNothing(s: State, w: nat, strict: bool)
    requires Inv(s, strict) && AtLoop(s, w) && s.workers[w].pc == Scanning
    ensures Inv(Move(s, w, ScanningGlobal), strict)
  {
    hide Inv, OthersWatch, OthersSee;
    WorkerFacts(s, w, strict);
    QuietKeeps(s, w, s.workers[w].(pc := ScanningGlobal), false, s.global, strict);
  }

  lemma {:induction false} ScanningKeeps(s: State, w: nat, c: Choice, strict: bool)
    requires Inv(s, strict) && AtLoop(s, w) && s.workers[w].pc == Scanning
    ensures Inv(SearchStep(s, w, c), strict)
  {
    hide Inv;
    if c.Steal? && c.victim < |s.workers| && c.victim != w && MayClaim(s.workers[w], s.workers[c.victim], c.n) {
      StealingKeeps(s, w, c.victim, s.workers[c.victim].ring - c.n, c.n, Copying(c.victim, c.n), strict);
    } else {
      FoundNothing(s, w, strict);
    }
  }

  lemma {:induction false} CopyingKeeps(s: State, w: nat, c: Choice, strict: bool)
    requires Inv(s, strict) && AtLoop(s, w) && (s.workers[w].pc.Copying? || s.workers[w].pc.Publishing?)
    ensures Inv(SearchStep(s, w, c), strict)
  {
    hide Inv;
    match s.workers[w].pc
    case Copying(victim, n) =>
      var pc := Publishing(if n > 0 then n - 1 else 0);
      if victim < |s.workers| && victim != w {
        StealingKeeps(s, w, victim, s.workers[victim].ring, 0, pc, strict);
      } else {
        SearchesOn(s, w, s.workers[w].(pc := pc), strict);
      }
    case Publishing(rest) =>
      SearchesOn(s, w, s.workers[w].(pc := Starting, ring := s.workers[w].ring + rest), strict);
  }

  // ----- running

  lemma {:induction false} StartingKeeps(s: State, w: nat, c: Choice, strict: bool)
    requires Inv(s, strict) && AtLoop(s, w) && s.workers[w].pc == Starting
    ensures Inv(RunStep(s, w, c), strict)
  {
    hide Inv, OthersWatch, OthersSee, NumSearching, DecSearching, Working, Searching;
    WorkerFacts(s, w, strict);
    if !s.workers[w].searching {
      QuietKeeps(s, w, s.workers[w].(pc := Running), false, s.global, strict);
    } else {
      var x := s.workers[w].(pc := Running, searching := false);
      StopsSearching(s, w, x, strict);
      assert After(s, w, x, false, NumSearching(s.word) == 1, DecSearching(s.word), s.lock, s.global).sleepers
          == s.sleepers;
      AfterKeeps(s, w, x, false, NumSearching(s.word) == 1, DecSearching(s.word), s.lock, s.global, strict);
    }
  }

  lemma {:induction false} StopsSearching(s: State, w: nat, x: Worker, strict: bool)
    requires Inv(s, strict) && AtLoop(s, w) && s.workers[w].pc == Starting && s.workers[w].searching
    requires x == s.workers[w].(pc := Running, searching := false)
    ensures WordFollows(s, w, x, false, DecSearching(s.word))
  {
    hide Orderly, PickIsSafe, Throttled, TokensComing, SomeoneSees, Watched, NumSearching, NumWorking, Working,
      Searching;
    WorkerFacts(s, w, strict);
  }

  lemma {:induction false} RunningKeeps(s: State, w: nat, c: Choice, strict: bool)
    requires Inv(s, strict) && AtLoop(s, w) && s.workers[w].pc == Running
    ensures Inv(RunStep(s, w, c), strict)
  {
    hide Inv, OthersWatch, OthersSee;
    WorkerFacts(s, w, strict);
    var s' := RunStep(s, w, c);
    var x := s.workers[w];
    assert s.workers[w := x] == s.workers;
    QuietKeeps(s, w, s'.workers[w], s'.notes[w] == Asking, s'.global, strict);
  }

  // ----- falling asleep

  lemma {:induction false} LeavingKeeps(s: State, w: nat, c: Choice, strict: bool)
    requires Inv(s, strict) && AtLoop(s, w) && s.workers[w].pc == Leaving
    ensures Inv(LeaveStep(s, w, c), strict)
  {
    hide Inv, OthersWatch, OthersSee;
    WorkerFacts(s, w, strict);
    QuietKeeps(s, w, s.workers[w].(pc := LeavingLock), false, s.global, strict);
  }

  predicate TakesLock(before: Pc, after: Pc) {
    || (before == LeavingLock && after == LeavingCount)
    || (before == RejoinLock && after == Rejoining)
    || (before == ContainsLock && after == ContainsCheck)
  }

  lemma TakesLockFacts(x: Worker, pc: Pc, listed: bool)
    requires Sensible(x) && TakesLock(x.pc, pc)
    ensures var y := x.(pc := pc);
      && Sensible(y) && Locks(pc) && !Locks(x.pc) && !Drowsy(pc)
      && (Asleep(pc) <==> Asleep(x.pc)) && (OutOfStep(pc) <==> OutOfStep(x.pc))
  {
  }

  lemma TakesLockHelps(x: Worker, pc: Pc, listed: bool)
    requires TakesLock(x.pc, pc)
    ensures Counts(x.(pc := pc), listed) <==> Counts(x, listed)
    ensures Helps(x.(pc := pc), listed) <==> Helps(x, listed)
  {
  }

  /** Taking the lock. */
  lemma {:induction false} LockKeeps(s: State, w: nat, pc: Pc, strict: bool)
    requires Inv(s, strict) && AtLoop(s, w) && s.lock == None && TakesLock(s.workers[w].pc, pc)
    ensures Inv(Move(s, w, pc).(lock := Some(w)), strict)
  {
    hide Inv, OthersWatch, OthersSee, Working, Searching, Sensible, Helps, Counts, Asleep, TakesLock, OutOfStep, Drowsy;
    WorkerFacts(s, w, strict);
    var x, listed := s.workers[w].(pc := pc), w in s.sleepers;
    TakesLockFacts(s.workers[w], pc, listed);
    TakesLockHelps(s.workers[w], pc, listed);
    SameWord(s, w, x, listed, strict);
    assert After(s, w, x, listed, false, s.word, Some(w), s.global).sleepers == s.sleepers;
    AfterKeeps(s, w, x, listed, false, s.word, Some(w), s.global, strict);
  }

  /** A step without gains leaves the word right. */
  lemma {:induction false} SameWord(s: State, w: nat, x: Worker, listed: bool, strict: bool)
    requires Inv(s, strict) && AtLoop(s, w) && WorkingGain(s, w, x, listed) == SearchingGain(s, w, x, listed) == 0
    ensures WordFollows(s, w, x, listed, s.word)
  {
    hide Orderly, PickIsSafe, Throttled, TokensComing, SomeoneSees, Watched, Working, Searching;
  }

  lemma {:induction false} LeavingCountKeeps(s: State, w: nat, c: Choice, strict: bool)
    requires Inv(s, strict) && AtLoop(s, w) && s.workers[w].pc == LeavingCount
    ensures Inv(LeaveStep(s, w, c), strict)
  {
    hide Inv, OthersSee, OthersWatch, NumSearching, DecWorking, Working, Searching;
    WorkerFacts(s, w, strict);
    var wasLast := s.workers[w].searching && NumSearching(s.word) == 1;
    var x := s.workers[w].(pc := Entering(wasLast), searching := false, blind := false);
    LeavesCount(s, w, x, strict);
    if s.workers[w].searching && !wasLast {
      NotLastLeavesOthers(s, w, strict);
    }
    var word := DecWorking(s.word, s.workers[w].searching);
    assert After(s, w, x, false, false, word, s.lock, s.global).sleepers == s.sleepers;
    AfterKeeps(s, w, x, false, false, word, s.lock, s.global, strict);
  }

  lemma {:induction false} LeavesCount(s: State, w: nat, x: Worker, strict: bool)
    requires Inv(s, strict) && AtLoop(s, w) && s.workers[w].pc == LeavingCount
    requires x.pc.Entering? && !x.searching
    ensures WordFollows(s, w, x, false, DecWorking(s.word, s.workers[w].searching))
  {
    hide Orderly, PickIsSafe, Throttled, TokensComing, SomeoneSees, Watched, NumSearching, NumWorking, Working,
      Searching;
    WorkerFacts(s, w, strict);
  }

  /** A searcher that is not the last one leaves another behind. */
  lemma {:induction false} NotLastLeavesOthers(s: State, w: nat, strict: bool)
    requires Inv(s, strict) && AtLoop(s, w) && s.workers[w].pc == LeavingCount && s.workers[w].searching
    requires NumSearching(s.word) != 1
    ensures OthersWatch(s, w)
  {
    hide PickIsSafe, Throttled, TokensComing, SomeoneSees, Watched, NumSearching, NumWorking, Working;
    WorkerFacts(s, w, strict);
    ReadWord(s);
    assert w in Searchers(s);
    var v := OtherSearcherExists(s, w);
    assert Helpful(s, v);
  }

  lemma {:induction false} EnteringKeeps(s: State, w: nat, c: Choice, strict: bool)
    requires Inv(s, strict) && AtLoop(s, w) && s.workers[w].pc.Entering?
    ensures Inv(LeaveStep(s, w, c), strict)
  {
    hide Inv, OthersSee, OthersWatch, Working, Searching;
    WorkerFacts(s, w, strict);
    var x := s.workers[w].(pc := if s.workers[w].pc.wasLast then Looking(0) else Waiting);
    SameWord(s, w, x, true, strict);
    AfterKeeps(s, w, x, true, false, s.word, None, s.global, strict);
  }

  /** A worker with tasks in its ring is going to look at the global queue. */
  lemma {:induction false} FullRingWatches(s: State, w: nat, v: nat, strict: bool)
    requires Inv(s, strict) && v < |s.workers| && v != w && s.workers[v].ring > 0
    ensures OthersWatch(s, w)
  {
    hide Faithful, PickIsSafe, Throttled, TokensComing, SomeoneSees, Watched;
    assert Sensible(s.workers[v]);
    assert Helpful(s, v);
  }

  lemma LooksOn(x: Worker, listed: bool, pc: Pc)
    requires Sensible(x) && x.pc.Looking? && (pc.Looking? || pc.Nudging? || pc == Waiting)
    ensures forall asks :: (asks ==> pc == Waiting) ==> QuietMove(x, x.(pc := pc), listed, asks)
    ensures pc.Looking? ==> Helps(x.(pc := pc), listed)
  {
  }

  /** Another worker has tasks: it will look. */
  lemma {:induction false} LooksAway(s: State, w: nat, strict: bool)
    requires Inv(s, strict) && AtLoop(s, w) && s.workers[w].pc.Looking? && s.workers[w].pc.next < |s.workers|
    requires s.workers[s.workers[w].pc.next].ring > 0
    ensures Inv(Move(s, w, Nudging(s.workers[w].pc.next)), strict)
  {
    hide Inv, OthersSee, OthersWatch, QuietMove, Helps;
    WorkerFacts(s, w, strict);
    var x, next := s.workers[w], s.workers[w].pc.next;
    FullRingWatches(s, w, next, strict);
    LooksOn(x, w in s.sleepers, Nudging(next));
    QuietKeeps(s, w, x.(pc := Nudging(next)), false, s.global, strict);
  }

  lemma {:induction false} LookingKeeps(s: State, w: nat, c: Choice, strict: bool)
    requires Inv(s, strict) && AtLoop(s, w) && s.workers[w].pc.Looking?
    ensures Inv(LeaveStep(s, w, c), strict)
  {
    hide Inv, OthersSee, OthersWatch, QuietMove, Helps;
    WorkerFacts(s, w, strict);
    var x, next, listed := s.workers[w], s.workers[w].pc.next, w in s.sleepers;
    if next < |s.workers| && s.workers[next].ring > 0 {
      LooksAway(s, w, strict);
    } else {
      var pc := if next < |s.workers| then Looking(next + 1) else Waiting;
      LooksOn(x, listed, pc);
      QuietKeeps(s, w, x.(pc := pc), pc == Waiting && s.global > 0, s.global, strict);
    }
  }

  /** Setting a token. */
  lemma {:induction false} NudgeKeeps(s: State, target: nat, strict: bool)
    requires Inv(s, strict) && target < |s.workers|
    ensures Inv(SetWorker(s, target, s.workers[target].(token := true)), strict)
  {
    hide Orderly, Faithful, PickIsSafe, Throttled, TokensComing, SomeoneSees, Helps;
    var x := s.workers[target];
    var s' := SetWorker(s, target, x.(token := true));
    if s.global > 0 {
      SameHelp(x, target in s.sleepers);
      if w :| 0 <= w < |s.workers| && Helpful(s, w) {
        assert Helpful(s', w);
      }
    }
    TouchKeeps(s, target, x.ring, x.kept, true, strict);
  }

  lemma SameHelp(x: Worker, listed: bool)
    ensures Helps(x.(token := true), listed) <==> Helps(x, listed)
  {
  }

  lemma NudgeMove(x: Worker, listed: bool)
    requires Sensible(x) && x.pc.Nudging?
    ensures var y := x.(pc := Waiting);
      QuietMove(x, y, listed, false) && !y.blind && (Helps(y, listed) <==> Helps(x, listed))
  {
  }

  lemma {:induction false} NudgingKeeps(s: State, w: nat, c: Choice, strict: bool)
    requires Inv(s, strict) && AtLoop(s, w) && s.workers[w].pc.Nudging?
    ensures Inv(LeaveStep(s, w, c), strict)
  {
    hide Inv, OthersSee, OthersWatch, QuietMove, Helps, Sensible;
    WorkerFacts(s, w, strict);
    var target := s.workers[w].pc.target;
    var s1 := s;
    if target < |s.workers| {
      NudgeKeeps(s, target, strict);
      s1 := SetWorker(s, target, s.workers[target].(token := true));
    }
    WorkerFacts(s1, w, strict);
    NudgeMove(s1.workers[w], w in s1.sleepers);
    QuietKeeps(s1, w, s1.workers[w].(pc := Waiting), false, s1.global, strict);
  }

  // ----- waking up

  lemma Wakes(x: Worker, y: Worker, listed: bool)
    requires Sensible(x) && x.pc == Waiting && y == x.(pc := y.pc, token := y.token)
    requires y.pc.Arriving? && y.pc.src == InSleep
    ensures QuietMove(x, y, listed, false) && !y.blind
    ensures Helps(y, listed) <==> Helps(x, listed)
  {
  }

  lemma {:induction false} WaitingKeeps(s: State, w: nat, c: Choice, strict: bool)
    requires Inv(s, strict) && AtLoop(s, w) && s.workers[w].pc == Waiting
    ensures Inv(WakeStep(s, w, c), strict)
  {
    hide Inv, OthersSee, OthersWatch, QuietMove, Helps;
    if c.Events? {
      WorkerFacts(s, w, strict);
      var y := WakeStep(s, w, c).workers[w];
      Wakes(s.workers[w], y, w in s.sleepers);
      QuietKeeps(s, w, y, false, s.global, strict);
    }
  }

  lemma {:induction false} WokenKeeps(s: State, w: nat, c: Choice, strict: bool)
    requires Inv(s, strict) && AtLoop(s, w) && s.workers[w].pc == Woken
    ensures Inv(WakeStep(s, w, c), strict)
  {
    hide Inv, OthersSee, OthersWatch;
    WorkerFacts(s, w, strict);
    var x := s.workers[w];
    QuietKeeps(s, w, x.(pc := if x.HasTask() then RejoinLock else ContainsLock), false, s.global, strict);
  }

  lemma {:induction false} RejoiningKeeps(s: State, w: nat, c: Choice, strict: bool)
    requires Inv(s, strict) && AtLoop(s, w) && s.workers[w].pc == Rejoining
    ensures Inv(WakeStep(s, w, c), strict)
  {
    hide Inv, OthersSee, OthersWatch, Working, Searching;
    WorkerFacts(s, w, strict);
    var x := s.workers[w];
    if w in s.sleepers {
      var y := x.(pc := RejoinCount);
      SameWord(s, w, y, false, strict);
      AfterKeeps(s, w, y, false, false, s.word, s.lock, s.global, strict);
    } else {
      BackToSearching(s, w, strict);
    }
  }

  /** A worker that finds itself picked goes on as a searcher, and gives up the lock. */
  lemma {:induction false} BackToSearching(s: State, w: nat, strict: bool)
    requires Inv(s, strict) && AtLoop(s, w) && w !in s.sleepers
    requires s.workers[w].pc == Rejoining || s.workers[w].pc == ContainsCheck
    ensures Inv(SetWorker(s, w, s.workers[w].(pc := Top, searching := true)).(lock := None), strict)
  {
    hide Inv, OthersSee, OthersWatch, Working, Searching;
    WorkerFacts(s, w, strict);
    var x := s.workers[w].(pc := Top, searching := true);
    SameWord(s, w, x, false, strict);
    assert After(s, w, x, false, false, s.word, None, s.global).sleepers == s.sleepers;
    AfterKeeps(s, w, x, false, false, s.word, None, s.global, strict);
  }

  lemma {:induction false} RejoinCountKeeps(s: State, w: nat, c: Choice, strict: bool)
    requires Inv(s, strict) && AtLoop(s, w) && s.workers[w].pc == RejoinCount
    ensures Inv(WakeStep(s, w, c), strict)
  {
    hide Inv, OthersSee, OthersWatch, Working, Searching, WakeUpOne;
    WorkerFacts(s, w, strict);
    var x := s.workers[w].(pc := Top);
    RejoinsCount(s, w, x, strict);
    var word := WakeUpOne(s.word, 0);
    assert After(s, w, x, false, false, word, None, s.global).sleepers == s.sleepers;
    AfterKeeps(s, w, x, false, false, word, None, s.global, strict);
  }

  lemma {:induction false} RejoinsCount(s: State, w: nat, x: Worker, strict: bool)
    requires Inv(s, strict) && AtLoop(s, w) && s.workers[w].pc == RejoinCount
    requires x == s.workers[w].(pc := Top)
    ensures WordFollows(s, w, x, false, WakeUpOne(s.word, 0))
  {
    hide Orderly, PickIsSafe, Throttled, TokensComing, SomeoneSees, Watched, WakeUpOne, Working, Searching;
    WorkerFacts(s, w, strict);
    if Fits(Working(s) + 1, Searching(s)) {
      WakeUpOneFaithful(Working(s), Searching(s), 0);
    }
  }

  lemma WaitMove(x: Worker)
    requires Sensible(x) && x.pc == ContainsCheck
    ensures var y := x.(pc := Waiting);
      && Sensible(y) && !Locks(Waiting) && Asleep(Waiting) && !x.blind && !Helps(x, true)
      && !Counts(y, true) && !Counts(x, true) && !OutOfStep(Waiting) && !OutOfStep(x.pc)
  {
  }

  /** Nobody picked the sleeper: it goes back to wait. */
  lemma {:induction false} WaitsAgain(s: State, w: nat, strict: bool)
    requires Inv(s, strict) && AtLoop(s, w) && s.workers[w].pc == ContainsCheck && w in s.sleepers
    ensures Inv(Move(s, w, Waiting).(lock := None), strict)
  {
    hide Inv, OthersSee, OthersWatch, Working, Searching, Sensible, Helps, Counts, OutOfStep;
    WorkerFacts(s, w, strict);
    WaitMove(s.workers[w]);
    var x := s.workers[w].(pc := Waiting);
    SameWord(s, w, x, true, strict);
    assert After(s, w, x, true, false, s.word, None, s.global).sleepers == s.sleepers;
    AfterKeeps(s, w, x, true, false, s.word, None, s.global, strict);
  }

  lemma {:induction false} ContainsCheckKeeps(s: State, w: nat, c: Choice, strict: bool)
    requires Inv(s, strict) && AtLoop(s, w) && s.workers[w].pc == ContainsCheck
    ensures Inv(WakeStep(s, w, c), strict)
  {
    hide Inv;
    if w in s.sleepers {
      WaitsAgain(s, w, strict);
    } else {
      BackToSearching(s, w, strict);
    }
  }

  // ----- wake_up_one

  /** A thread that goes on with a wake-up, without picking anybody. */
  function NoteAfter(s: State, a: nat, note: Note, word: nat, lock: Option<nat>): State
    requires a < |s.notes|
  {
    s.(word := word, lock := lock, notes := s.notes[a := note])
  }

  ghost predicate ProperNote(s: State, a: nat, note: Note, lock: Option<nat>) {
    && a < |s.notes| && s.notes[a] != Silent && !s.notes[a].Waking? && !note.Waking? && s.notes[a] != Picking
    && (lock == s.lock || (s.lock == None && lock == Some(a)) || (s.lock == Some(a) && lock == None))
    && (NoteLocks(note) <==> lock == Some(a))
  }

  lemma {:induction false} NoteOrderly(s: State, a: nat, note: Note, word: nat, lock: Option<nat>)
    requires Orderly(s) && ProperNote(s, a, note, lock)
    ensures Orderly(NoteAfter(s, a, note, word, lock))
  {
    hide Sensible;
    var s' := NoteAfter(s, a, note, word, lock);
    forall b | 0 <= b < |s'.notes|
      ensures Holding(s', b) <==> s'.lock == Some(b)
    {
      assert Holding(s, b) <==> s.lock == Some(b);
      assert Holding(s, a) <==> s.lock == Some(a);
    }
  }

  lemma {:induction false} NoteCounts(s: State, a: nat, note: Note, word: nat, lock: Option<nat>)
    requires Orderly(s) && ProperNote(s, a, note, lock)
    ensures var s' := NoteAfter(s, a, note, word, lock);
      && Searching(s') == Searching(s) + (if note == Picking then 1 else 0)
      && Working(s') == Working(s) + (if note == Picking then 1 else 0)
  {
    hide Sensible, Asleep;
    var s' := NoteAfter(s, a, note, word, lock);
    assert Searchers(s') == Searchers(s);
    assert Holding(s, a) <==> s.lock == Some(a);
  }

  lemma {:induction false} NoteTokens(s: State, a: nat, note: Note, word: nat, lock: Option<nat>)
    requires TokensComing(s) && a < |s.notes| && !s.notes[a].Waking?
    ensures TokensComing(NoteAfter(s, a, note, word, lock))
  {
    var s' := NoteAfter(s, a, note, word, lock);
    forall v | 0 <= v < |s'.workers| && Drowsy(s'.workers[v].pc) && v !in s'.sleepers
      ensures s'.workers[v].token || BeingWoken(s', v)
    {
      if BeingWoken(s, v) {
        var b :| 0 <= b < |s.notes| && s.notes[b] == Waking(v);
        assert s'.notes[b] == Waking(v);
      }
    }
  }

  /** Somebody other than thread `a`, in its wake-up, is going to look. */
  ghost predicate WatchedWithout(s: State, a: nat) {
    || (exists b :: 0 <= b < |s.notes| && b != a && Busy(s.notes[b]))
    || (exists w :: 0 <= w < |s.workers| && Helpful(s, w))
  }

  lemma {:induction false} NoteWatched(s: State, a: nat, note: Note, word: nat, lock: Option<nat>)
    requires a < |s.notes| && (Busy(note) || WatchedWithout(s, a))
    ensures Watched(NoteAfter(s, a, note, word, lock))
  {
    hide Helps;
    var s' := NoteAfter(s, a, note, word, lock);
    if Busy(note) {
      assert Busy(s'.notes[a]);
    } else if b :| 0 <= b < |s.notes| && b != a && Busy(s.notes[b]) {
      assert Busy(s'.notes[b]);
    } else {
      var w :| 0 <= w < |s.workers| && Helpful(s, w);
      assert Helpful(s', w);
    }
  }

  lemma {:induction false} NoteKeeps(s: State, a: nat, note: Note, word: nat, lock: Option<nat>, strict: bool)
    requires Inv(s, strict) && ProperNote(s, a, note, lock)
    requires Busy(note) || WatchedWithout(s, a)
    requires note == Counting || note == Picking ==>
      s.sleepers != {} && forall w :: 0 <= w < |s.workers| ==> !Notified(s, w)
    requires if note == Picking then word == WakeUpOne(s.word, 1) else word == s.word
    ensures Inv(NoteAfter(s, a, note, word, lock), strict)
  {
    hide WatchedWithout, Watched, Sensible, Asleep, Helps, WakeUpOne, Working, Searching, TokensComing;
    var s' := NoteAfter(s, a, note, word, lock);
    NoteOrderly(s, a, note, word, lock);
    NoteCounts(s, a, note, word, lock);
    NoteTokens(s, a, note, word, lock);
    NoteWatched(s, a, note, word, lock);
    NotePickIsSafe(s, a, note, word, lock);
    CountsFit(s');
    if note == Picking {
      WakeUpOneFaithful(Working(s), Searching(s), 1);
    }
  }

  lemma {:induction false} NotePickIsSafe(s: State, a: nat, note: Note, word: nat, lock: Option<nat>)
    requires PickIsSafe(s) && Throttled(s) && SomeoneSees(s) && ProperNote(s, a, note, lock)
    requires note == Counting || note == Picking ==>
      s.sleepers != {} && forall w :: 0 <= w < |s.workers| ==> !Notified(s, w)
    ensures var s' := NoteAfter(s, a, note, word, lock);
      PickIsSafe(s') && Throttled(s') && SomeoneSees(s')
  {
    hide Asleep;
    var s' := NoteAfter(s, a, note, word, lock);
    forall w: nat
      ensures Notified(s', w) <==> Notified(s, w)
    {
    }
    assert s'.workers == s.workers;
  }
}

/** What every step of the run loops keeps: the packed word is faithful, at most
    one worker is woken but not yet running, and as long as the global queue is
    not empty somebody is going to look at it. */
module SleepingInv {
  import opened IdleWord
  import opened Wheel
  import opened Sleeping

  // ----- phases of the loop

  /** In the sleepers' set, unless picked by another thread. */
  predicate Asleep(pc: Pc) {
    match pc
    case Arriving(src, _) => src == InSleep
    case Storing(src, _) => src == InSleep
    case Halving(src, _) => src == InSleep
    case Spilling(src, _, _) => src == InSleep
    case Looking(_) => true
    case Nudging(_) => true
    case Waiting => true
    case Woken => true
    case RejoinLock => true
    case Rejoining => true
    case ContainsLock => true
    case ContainsCheck => true
    case _ => false
  }

  /** The places where a worker holds the lock. */
  predicate Locks(pc: Pc) {
    pc == LeavingCount || pc.Entering? || pc == Rejoining || pc == RejoinCount || pc == ContainsCheck
  }

  /** Under the lock, where the count and the set are out of step. */
  predicate OutOfStep(pc: Pc) {
    pc.Entering? || pc == RejoinCount
  }

  predicate NoteLocks(note: Note) {
    note == Confirming || note == Counting || note == Picking
  }

  /** Among the pushes of what arrives. */
  predicate Pushing(pc: Pc) {
    pc.Arriving? || pc.Storing? || pc.Halving? || pc.Spilling?
  }

  /** The places between the search and sleep. */
  predicate GivenUp(pc: Pc) {
    pc == Polling(true) || pc == Leaving || pc == LeavingLock || pc == LeavingCount
  }

  predicate MaySearch(pc: Pc) {
    pc == Top || pc.Polling? || pc.Telling? || pc == NextTask || pc.TakingLocal? || pc.TakingGlobal? || pc.Batching?
    || pc == Electing || pc == Scanning || pc.Copying? || pc.Publishing? || pc == ScanningGlobal || pc == Starting
    || GivenUp(pc) || (Pushing(pc) && (pc.src == Upkeep || pc.src == LastPoll))
  }

  /** The places that are only reached with nothing of one's own left to run. */
  predicate OutOfTasks(pc: Pc) {
    pc == TakingGlobal(false) || pc == Electing || pc == Joining || pc == Scanning || pc.Copying? || pc.Publishing?
    || pc == ScanningGlobal || GivenUp(pc) || pc.Entering? || pc.Looking? || pc.Nudging?
    || pc == Waiting || pc == ContainsLock || pc == ContainsCheck
  }

  /** What holds of a worker by itself. */
  predicate Sensible(x: Worker) {
    && (x.blind ==> GivenUp(x.pc) && !x.searching)
    && (GivenUp(x.pc) ==> x.searching || x.blind)
    && (x.searching ==> MaySearch(x.pc))
    && (x.pc == Scanning || x.pc.Copying? || x.pc.Publishing? || x.pc == ScanningGlobal ==> x.searching)
    && (OutOfTasks(x.pc) ==> !x.HasTask())
    && (x.pc == Woken || (Pushing(x.pc) && x.pc.src == InSleep) ==> !x.lifo)
  }

  /** The places a wake-up is started from. */
  predicate MayNote(pc: Pc) {
    pc == Top || pc == NextTask || pc == Running || pc == Waiting
  }

  // ----- counting

  /** Counted as searching: the searchers, and the sleepers picked to be woken. */
  predicate Counts(x: Worker, listed: bool) {
    x.searching || (Asleep(x.pc) && !listed)
  }

  predicate Counted(s: State, w: nat) {
    w < |s.workers| && Counts(s.workers[w], w in s.sleepers)
  }

  ghost function Searchers(s: State): set<nat> {
    set w: nat | w < |s.workers| && Counted(s, w)
  }

  /** A sleeper that was picked and does not run yet. */
  predicate Notified(s: State, w: nat) {
    w < |s.workers| && Asleep(s.workers[w].pc) && w !in s.sleepers
  }

  predicate Holding(s: State, a: nat) {
    a < |s.notes| && (NoteLocks(s.notes[a]) || (a < |s.workers| && Locks(s.workers[a].pc)))
  }

  /** How far the count of working workers is ahead of the set of sleepers, while the lock is held. */
  function Shift(s: State): int {
    if s.lock == None || s.lock.value >= |s.notes| then 0
    else if s.notes[s.lock.value] == Picking then 1
    else if s.lock.value < |s.workers| && OutOfStep(s.workers[s.lock.value].pc) then -1
    else 0
  }

  /** Whether a worker is counted as searching that is still to be picked. */
  function Lent(s: State): nat {
    if s.lock != None && s.lock.value < |s.notes| && s.notes[s.lock.value] == Picking then 1 else 0
  }

  ghost function Working(s: State): int {
    |s.workers| - |s.sleepers| + Shift(s)
  }

  ghost function Searching(s: State): nat {
    |Searchers(s)| + Lent(s)
  }

  /** The word says how many workers work and how many search. */
  ghost predicate Faithful(s: State) {
    Fits(Working(s), Searching(s)) && s.word == Packed(Working(s), Searching(s))
  }

  // ----- the invariant

  /** The set of sleepers, and the lock. */
  ghost predicate Orderly(s: State) {
    && Shaped(s)
    && (forall w :: w in s.sleepers ==> w < |s.workers| && Asleep(s.workers[w].pc))
    && (s.lock != None ==> s.lock.value < |s.notes|)
    && (forall a :: 0 <= a < |s.notes| ==> (Holding(s, a) <==> s.lock == Some(a)))
    && (forall w :: 0 <= w < |s.workers| ==> Sensible(s.workers[w]))
    && (forall w :: 0 <= w < |s.workers| && s.notes[w] != Silent ==> MayNote(s.workers[w].pc))
    && (forall a :: 0 <= a < |s.notes| && s.notes[a].Waking? ==> s.notes[a].target < |s.workers|)
  }

  /** A thread about to pick a sleeper has one to pick, and nobody is picked already. */
  ghost predicate PickIsSafe(s: State) {
    s.lock != None && s.lock.value < |s.notes|
    && (s.notes[s.lock.value] == Counting || s.notes[s.lock.value] == Picking) ==>
      s.sleepers != {} && forall w :: 0 <= w < |s.workers| ==> !Notified(s, w)
  }

  ghost predicate Throttled(s: State) {
    forall v, w :: Notified(s, v) && Notified(s, w) ==> v == w
  }

  /** Asleep and not yet woken. */
  predicate Drowsy(pc: Pc) {
    pc.Looking? || pc.Nudging? || pc == Waiting
  }

  predicate BeingWoken(s: State, w: nat) {
    exists a :: 0 <= a < |s.notes| && s.notes[a] == Waking(w)
  }

  /** A picked sleeper has its token, or the thread that picked it will set it. */
  ghost predicate TokensComing(s: State) {
    forall w :: 0 <= w < |s.workers| && Drowsy(s.workers[w].pc) && w !in s.sleepers ==>
      s.workers[w].token || BeingWoken(s, w)
  }

  /** Not everybody was refused the searching role. */
  ghost predicate SomeoneSees(s: State) {
    exists w :: 0 <= w < |s.workers| && !s.workers[w].blind
  }

  /** The worker is going to look at the global queue, or to pass that on, before it rests. */
  predicate Helps(x: Worker, listed: bool) {
    || Counts(x, listed)
    || x.pc == Entering(true) || x.pc.Looking?
    || x.pc == RejoinLock || x.pc == Rejoining || x.pc == RejoinCount
    || ((x.pc == Woken || (Pushing(x.pc) && x.pc.src == InSleep)) && x.ring > 0)
    || (!x.blind && !Asleep(x.pc) && !x.pc.Entering?)
  }

  predicate Helpful(s: State, w: nat) {
    w < |s.workers| && Helps(s.workers[w], w in s.sleepers)
  }

  /** A wake-up that has not yet picked anybody is under way. */
  predicate Busy(note: Note) {
    note != Silent && !note.Waking?
  }

  ghost predicate Watched(s: State) {
    || (exists a :: 0 <= a < |s.notes| && Busy(s.notes[a]))
    || (exists w :: 0 <= w < |s.workers| && Helpful(s, w))
  }

  ghost predicate Inv(s: State, strict: bool) {
    && Orderly(s)
    && Faithful(s)
    && PickIsSafe(s)
    && Throttled(s)
    && TokensComing(s)
    && SomeoneSees(s)
    && (strict && s.global > 0 ==> Watched(s))
  }

  // ----- counting lemmas

  lemma {:induction false} RangeSize(a: set<nat>, n: nat)
    requires forall w :: w in a ==> w < n
    ensures |a| <= n
  {
    if n > 0 {
      var rest := a - {n - 1};
      RangeSize(rest, n - 1);
      assert n - 1 !in a ==> rest == a;
    } else {
      assert a == {};
    }
  }

  /** If one number of the range is missing, there are fewer. */
  lemma {:induction false} RangeSizeLess(a: set<nat>, n: nat, missing: nat)
    requires missing < n && missing !in a && forall w :: w in a ==> w < n
    ensures |a| < n
  {
    RangeSize(a + {missing}, n);
  }

  /** The counts always fit their fields: with fewer than 2^16 workers nothing carries or borrows. */
  lemma {:induction false} CountsFit(s: State)
    requires Orderly(s) && PickIsSafe(s)
    ensures Fits(Working(s), Searching(s))
  {
    hide Sensible;
    RangeSize(s.sleepers, |s.workers|);
    RangeSize(Searchers(s), |s.workers|);
    if Shift(s) < 0 {
      RangeSizeLess(s.sleepers, |s.workers|, s.lock.value);
    }
    if Lent(s) > 0 {
      var w :| w in s.sleepers;
      assert Holding(s, s.lock.value);
      SleeperNotCounted(s, w);
      RangeSizeLess(Searchers(s), |s.workers|, w);
    }
  }

  lemma SleeperNotCounted(s: State, w: nat)
    requires Orderly(s) && w in s.sleepers
    ensures !Counted(s, w) && !s.workers[w].searching && !s.workers[w].blind
  {
    assert Sensible(s.workers[w]);
  }

  lemma {:induction false} ReadWord(s: State)
    requires Faithful(s)
    ensures NumWorking(s.word) == Working(s) && NumSearching(s.word) == Searching(s)
  {
    hide NumWorking, NumSearching;
    FieldsOf(Working(s), Searching(s));
  }

  /** If the word counts a searcher, there is one, or one is about to be picked. */
  lemma {:induction false} SearcherExists(s: State) returns (w: nat)
    requires Orderly(s) && Faithful(s) && NumSearching(s.word) > Lent(s)
    ensures Counted(s, w)
  {
    hide NumSearching, NumWorking, Counted;
    ReadWord(s);
    assert Searchers(s) != {};
    w :| w in Searchers(s);
  }

  lemma {:induction false} OtherSearcherExists(s: State, v: nat) returns (w: nat)
    requires Orderly(s) && Faithful(s) && NumSearching(s.word) > Lent(s) + 1
    ensures Counted(s, w) && w != v
  {
    hide NumSearching, NumWorking, Counted;
    ReadWord(s);
    assert |Searchers(s) - {v}| > 0;
    w :| w in Searchers(s) - {v};
  }

  lemma {:induction false} NoSearchers(s: State)
    requires Faithful(s) && NumSearching(s.word) == 0
    ensures forall w :: 0 <= w < |s.workers| ==> !Counted(s, w)
    ensures Lent(s) == 0
  {
    hide NumSearching, NumWorking, Counted;
    ReadWord(s);
    forall w: nat | w < |s.workers|
      ensures !Counted(s, w)
    {
      assert w !in Searchers(s);
    }
  }

  // ----- a step of a worker that changes its own record, the lock, its place among the sleepers, or the global queue

  /** The state after such a step; `asks` if it starts a wake-up. */
  function After(s: State, w: nat, x: Worker, listed: bool, asks: bool, word: nat, lock: Option<nat>,
                 global: nat): State
    requires Shaped(s) && w < |s.workers|
  {
    State(word, if listed then s.sleepers + {w} else s.sleepers - {w}, lock, global,
          s.workers[w := x], if asks then s.notes[w := Asking] else s.notes)
  }

  /** Worker `w` is to go on with its loop. */
  predicate AtLoop(s: State, w: nat) {
    Shaped(s) && w < |s.workers| && s.notes[w] == Silent
  }

  /** The lock is left alone, taken when free, or given up, and the worker is where it holds the lock exactly if it
      does. */
  predicate LockMoves(s: State, w: nat, x: Worker, lock: Option<nat>) {
    && (lock == s.lock || (s.lock == None && lock == Some(w)) || (s.lock == Some(w) && lock == None))
    && (Locks(x.pc) <==> lock == Some(w))
  }

  ghost predicate Proper(s: State, w: nat, x: Worker, listed: bool, asks: bool, lock: Option<nat>) {
    && AtLoop(s, w)
    && Sensible(x) && (asks ==> MayNote(x.pc))
    && (listed ==> Asleep(x.pc))
    && LockMoves(s, w, x, lock)
    && (listed != (w in s.sleepers) ==> s.lock == Some(w))
    && (Asleep(x.pc) && !listed ==> Notified(s, w))
  }

  lemma {:induction false} AfterOrderly(s: State, w: nat, x: Worker, listed: bool, asks: bool, word: nat,
                                        lock: Option<nat>, global: nat)
    requires Orderly(s) && Proper(s, w, x, listed, asks, lock)
    ensures Orderly(After(s, w, x, listed, asks, word, lock, global))
  {
    hide Sensible;
    var s' := After(s, w, x, listed, asks, word, lock, global);
    forall a | 0 <= a < |s'.notes|
      ensures Holding(s', a) <==> s'.lock == Some(a)
    {
      assert Holding(s, a) <==> s.lock == Some(a);
    }
  }

  lemma {:induction false} AfterThrottled(s: State, w: nat, x: Worker, listed: bool, asks: bool, word: nat,
                                          lock: Option<nat>, global: nat)
    requires Orderly(s) && PickIsSafe(s) && Throttled(s) && Proper(s, w, x, listed, asks, lock)
    ensures PickIsSafe(After(s, w, x, listed, asks, word, lock, global))
    ensures Throttled(After(s, w, x, listed, asks, word, lock, global))
  {
    hide Sensible, Asleep, Locks;
    var s' := After(s, w, x, listed, asks, word, lock, global);
    forall v: nat
      ensures Notified(s', v) ==> Notified(s, v)
    {
    }
    if listed == (w in s.sleepers) {
      assert s'.sleepers == s.sleepers;
    }
  }

  /** The two counts after the step, from what the worker was and is. */
  lemma {:induction false} AfterCounts(s: State, w: nat, x: Worker, listed: bool, asks: bool, word: nat,
                                       lock: Option<nat>, global: nat)
    requires Orderly(s) && Proper(s, w, x, listed, asks, lock)
    ensures Working(After(s, w, x, listed, asks, word, lock, global))
            == Working(s) + (if w in s.sleepers then 1 else 0) - (if listed then 1 else 0)
               + (if OutOfStep(s.workers[w].pc) then 1 else 0) - (if OutOfStep(x.pc) then 1 else 0)
    ensures Searching(After(s, w, x, listed, asks, word, lock, global))
            == Searching(s) - (if Counted(s, w) then 1 else 0) + (if Counts(x, listed) then 1 else 0)
  {
    AfterShift(s, w, x, listed, asks, word, lock, global);
    AfterSearchers(s, w, x, listed, asks, word, lock, global);
    SleepersSize(s.sleepers, w, listed);
  }

  lemma SleepersSize(a: set<nat>, w: nat, listed: bool)
    ensures |if listed then a + {w} else a - {w}| == |a| - (if w in a then 1 else 0) + (if listed then 1 else 0)
  {
    if listed && w in a {
      assert a + {w} == a;
    } else if !listed && w !in a {
      assert a - {w} == a;
    }
  }

  lemma {:induction false} AfterShift(s: State, w: nat, x: Worker, listed: bool, asks: bool, word: nat,
                                      lock: Option<nat>, global: nat)
    requires Orderly(s) && Proper(s, w, x, listed, asks, lock)
    ensures Lent(After(s, w, x, listed, asks, word, lock, global)) == Lent(s)
    ensures Shift(After(s, w, x, listed, asks, word, lock, global))
            == Shift(s) + (if OutOfStep(s.workers[w].pc) then 1 else 0) - (if OutOfStep(x.pc) then 1 else 0)
  {
    hide Sensible, Asleep, Counts;
    assert Holding(s, w) <==> s.lock == Some(w);
  }

  lemma {:induction false} AfterCounted(s: State, w: nat, x: Worker, listed: bool, asks: bool, word: nat,
                                        lock: Option<nat>, global: nat, v: nat)
    requires AtLoop(s, w)
    ensures Counted(After(s, w, x, listed, asks, word, lock, global), v)
            <==> if v == w then Counts(x, listed) else Counted(s, v)
  {
    hide Counts;
  }

  lemma {:induction false} AfterSearchers(s: State, w: nat, x: Worker, listed: bool, asks: bool, word: nat,
                                          lock: Option<nat>, global: nat)
    requires AtLoop(s, w)
    ensures |Searchers(After(s, w, x, listed, asks, word, lock, global))|
            == |Searchers(s)| - (if Counted(s, w) then 1 else 0) + (if Counts(x, listed) then 1 else 0)
  {
    hide Counts, Counted;
    var s' := After(s, w, x, listed, asks, word, lock, global);
    var expected := if Counts(x, listed) then Searchers(s) + {w} else Searchers(s) - {w};
    forall v: nat
      ensures v in Searchers(s') <==> v in expected
    {
      AfterCounted(s, w, x, listed, asks, word, lock, global, v);
    }
    assert Searchers(s') == expected;
    SleepersSize(Searchers(s), w, Counts(x, listed));
  }

  lemma {:induction false} AfterTokens(s: State, w: nat, x: Worker, listed: bool, asks: bool, word: nat,
                                       lock: Option<nat>, global: nat)
    requires AtLoop(s, w) && TokensComing(s)
    requires Drowsy(x.pc) && !listed ==> w !in s.sleepers && Drowsy(s.workers[w].pc) && (s.workers[w].token ==> x.token)
    ensures TokensComing(After(s, w, x, listed, asks, word, lock, global))
  {
    hide Sensible, Asleep, Locks, Orderly;
    var s' := After(s, w, x, listed, asks, word, lock, global);
    forall v | 0 <= v < |s'.workers| && Drowsy(s'.workers[v].pc) && v !in s'.sleepers
      ensures s'.workers[v].token || BeingWoken(s', v)
    {
      if BeingWoken(s, v) {
        var a :| 0 <= a < |s.notes| && s.notes[a] == Waking(v);
        assert s'.notes[a] == Waking(v);
      }
    }
  }

  /** Somebody other than worker `w` is going to look. */
  ghost predicate OthersWatch(s: State, w: nat) {
    || (exists a :: 0 <= a < |s.notes| && Busy(s.notes[a]))
    || (exists v :: 0 <= v < |s.workers| && v != w && Helpful(s, v))
  }

  /** Somebody other than worker `w` was not refused. */
  ghost predicate OthersSee(s: State, w: nat) {
    exists v :: 0 <= v < |s.workers| && v != w && !s.workers[v].blind
  }

  lemma {:induction false} AfterWatched(s: State, w: nat, x: Worker, listed: bool, asks: bool, word: nat,
                                        lock: Option<nat>, global: nat)
    requires AtLoop(s, w)
    requires Helps(x, listed) || asks || OthersWatch(s, w) || (Watched(s) && !Helpful(s, w))
    ensures Watched(After(s, w, x, listed, asks, word, lock, global))
  {
    hide Helps;
    var s' := After(s, w, x, listed, asks, word, lock, global);
    if Helps(x, listed) {
      assert Helpful(s', w);
    } else if asks {
      assert Busy(s'.notes[w]);
    } else if exists a :: 0 <= a < |s.notes| && Busy(s.notes[a]) {
      var a :| 0 <= a < |s.notes| && Busy(s.notes[a]);
      assert Busy(s'.notes[a]);
    } else {
      var v :| 0 <= v < |s.workers| && v != w && Helpful(s, v);
      assert Helpful(s', v);
    }
  }

  /** By how much the step changes the two counts. */
  function WorkingGain(s: State, w: nat, x: Worker, listed: bool): int
    requires AtLoop(s, w)
  {
    (if w in s.sleepers then 1 else 0) - (if listed then 1 else 0)
    + (if OutOfStep(s.workers[w].pc) then 1 else 0) - (if OutOfStep(x.pc) then 1 else 0)
  }

  function SearchingGain(s: State, w: nat, x: Worker, listed: bool): int
    requires AtLoop(s, w)
  {
    (if Counts(x, listed) then 1 else 0) - (if Counted(s, w) then 1 else 0)
  }

  /** The new word packs the old counts with their gains, if they fit. */
  ghost predicate WordFollows(s: State, w: nat, x: Worker, listed: bool, word: nat)
    requires AtLoop(s, w)
  {
    var working, searching := Working(s) + WorkingGain(s, w, x, listed), Searching(s) + SearchingGain(s, w, x, listed);
    Fits(working, searching) ==> word == Packed(working, searching)
  }

  /** All of the above: what is left to show of a step is local to the worker. */
  lemma {:induction false} AfterKeeps(s: State, w: nat, x: Worker, listed: bool, asks: bool, word: nat,
                                      lock: Option<nat>, global: nat, strict: bool)
    requires Inv(s, strict) && AtLoop(s, w) && Proper(s, w, x, listed, asks, lock)
    requires Drowsy(x.pc) && !listed ==> w !in s.sleepers && Drowsy(s.workers[w].pc) && (s.workers[w].token ==> x.token)
    requires x.blind ==> s.workers[w].blind || OthersSee(s, w)
    requires strict && global > 0 ==>
      Helps(x, listed) || asks || OthersWatch(s, w) || (s.global > 0 && !Helpful(s, w))
    requires WordFollows(s, w, x, listed, word)
    ensures Inv(After(s, w, x, listed, asks, word, lock, global), strict)
  {
    hide Sensible, Asleep, Locks, Orderly, PickIsSafe, Throttled, TokensComing, Watched, OthersWatch, OthersSee, Helps;
    var s' := After(s, w, x, listed, asks, word, lock, global);
    AfterCounts(s, w, x, listed, asks, word, lock, global);
    AfterOrderly(s, w, x, listed, asks, word, lock, global);
    AfterThrottled(s, w, x, listed, asks, word, lock, global);
    AfterTokens(s, w, x, listed, asks, word, lock, global);
    CountsFit(s');
    if strict && global > 0 {
      AfterWatched(s, w, x, listed, asks, word, lock, global);
    }
    AfterSees(s, w, x, listed, asks, word, lock, global);
  }

  lemma {:induction false} AfterSees(s: State, w: nat, x: Worker, listed: bool, asks: bool, word: nat,
                                     lock: Option<nat>, global: nat)
    requires AtLoop(s, w) && SomeoneSees(s) && (x.blind ==> s.workers[w].blind || OthersSee(s, w))
    ensures SomeoneSees(After(s, w, x, listed, asks, word, lock, global))
  {
    var v :| 0 <= v < |s.workers| && !s.workers[v].blind && (x.blind ==> v != w);
    assert !After(s, w, x, listed, asks, word, lock, global).workers[v].blind;
  }

  // ----- a step that changes neither count

  /** The worker stays awake, or stays asleep, and is not at the lock. */
  predicate QuietMove(x: Worker, y: Worker, listed: bool, asks: bool) {
    && Sensible(y) && (asks ==> MayNote(y.pc))
    && (Asleep(y.pc) <==> Asleep(x.pc))
    && !Locks(x.pc) && !Locks(y.pc)
    && y.searching == x.searching
    && (Drowsy(y.pc) && !listed ==> Drowsy(x.pc) && (x.token ==> y.token))
  }

  lemma {:induction false} QuietKeeps(s: State, w: nat, y: Worker, asks: bool, global: nat, strict: bool)
    requires Inv(s, strict) && AtLoop(s, w) && QuietMove(s.workers[w], y, w in s.sleepers, asks)
    requires y.blind ==> s.workers[w].blind || OthersSee(s, w)
    requires strict && global > 0 ==>
      Helps(y, w in s.sleepers) || asks || OthersWatch(s, w) || (s.global > 0 && !Helps(s.workers[w], w in s.sleepers))
    ensures Inv(State(s.word, s.sleepers, s.lock, global, s.workers[w := y],
        if asks then s.notes[w := Asking] else s.notes), strict)
  {
    hide Sensible, Asleep, Orderly, PickIsSafe, Throttled, TokensComing, Watched, OthersWatch, OthersSee, Helps,
      Working, Searching;
    WorkerFacts(s, w, strict);
    var listed := w in s.sleepers;
    assert After(s, w, y, listed, asks, s.word, s.lock, global).sleepers == s.sleepers;
    AfterKeeps(s, w, y, listed, asks, s.word, s.lock, global, strict);
  }

  /** What the invariant says of one worker. */
  lemma WorkerFacts(s: State, w: nat, strict: bool)
    requires Inv(s, strict) && AtLoop(s, w)
    ensures Sensible(s.workers[w])
    ensures w in s.sleepers ==> Asleep(s.workers[w].pc)
    ensures Locks(s.workers[w].pc) <==> s.lock == Some(w)
  {
    assert Holding(s, w) <==> s.lock == Some(w);
  }

  // ----- a step that changes another worker's ring, or sets its token

  lemma {:induction false} TouchKeeps(s: State, v: nat, ring: nat, kept: nat, token: bool, strict: bool)
    requires Inv(s, strict) && v < |s.workers| && ring <= s.workers[v].ring && (s.workers[v].token ==> token)
    requires strict && s.global > 0 ==>
        Watched(SetWorker(s, v, s.workers[v].(ring := ring, kept := kept, token := token)))
    ensures Inv(SetWorker(s, v, s.workers[v].(ring := ring, kept := kept, token := token)), strict)
  {
    hide Watched, Asleep, Locks, Sensible;
    TouchSensible(s.workers[v], ring, kept, token);
    var s' := SetWorker(s, v, s.workers[v].(ring := ring, kept := kept, token := token));
    TouchSame(s, v, ring, kept, token);
    forall a | 0 <= a < |s'.notes|
      ensures Holding(s', a) <==> s'.lock == Some(a)
    {
      assert Holding(s, a) <==> s.lock == Some(a);
    }
    assert SomeoneSees(s') by {
      var u :| 0 <= u < |s.workers| && !s.workers[u].blind;
      assert !s'.workers[u].blind;
    }
    assert TokensComing(s') by {
      forall u | 0 <= u < |s'.workers| && Drowsy(s'.workers[u].pc) && u !in s'.sleepers
        ensures s'.workers[u].token || BeingWoken(s', u)
      {
        if BeingWoken(s, u) {
          assert BeingWoken(s', u);
        }
      }
    }
  }

  lemma TouchSensible(x: Worker, ring: nat, kept: nat, token: bool)
    requires Sensible(x) && ring <= x.ring
    ensures Sensible(x.(ring := ring, kept := kept, token := token))
  {
  }

  lemma {:induction false} TouchSame(s: State, v: nat, ring: nat, kept: nat, token: bool)
    requires Shaped(s) && v < |s.workers|
    ensures var s' := SetWorker(s, v, s.workers[v].(ring := ring, kept := kept, token := token));
      && Searching(s') == Searching(s) && Working(s') == Working(s)
      && (forall u :: Notified(s', u) <==> Notified(s, u))
  {
    hide Asleep;
    var s' := SetWorker(s, v, s.workers[v].(ring := ring, kept := kept, token := token));
    forall u: nat
      ensures u in Searchers(s') <==> u in Searchers(s)
    {
    }
    assert Searchers(s') == Searchers(s);
  }
}

/** With three workers or more a wake-up can be lost: a sleeper that has found its
    ring full pushes to the global queue only after everybody else has looked.
    This module builds the run, for any number of workers and outside threads. */
module SleepingLoss {
  import opened IdleWord
  import opened Wheel
  import opened Sleeping
  import opened SleepingInv
  import opened SleepingSafety
  import Ring

  // ----- paths

  ghost predicate Path(states: seq<State>, moves: seq<Event>, s: State, t: State) {
    && |states| == |moves| + 1 && states[0] == s && states[|moves|] == t
    && forall i :: 0 <= i < |moves| ==>
         Shaped(states[i]) && moves[i].a < |states[i].notes| && states[i + 1] == Step(states[i], moves[i].a, moves[i].c)
  }

  ghost predicate Leads(s: State, t: State) {
    exists states: seq<State>, moves: seq<Event> :: Path(states, moves, s, t)
  }

  lemma Stays(s: State)
    ensures Leads(s, s)
  {
    assert Path([s], [], s, s);
  }

  lemma Goes(s: State, a: nat, c: Choice)
    requires Shaped(s) && a < |s.notes|
    ensures Leads(s, Step(s, a, c))
  {
    assert Path([s, Step(s, a, c)], [By(a, c)], s, Step(s, a, c));
  }

  lemma {:induction false} GoesOn(s: State, t: State, u: State)
    requires Leads(s, t) && Leads(t, u)
    ensures Leads(s, u)
  {
    hide Step;
    var states, moves :| Path(states, moves, s, t);
    var states', moves' :| Path(states', moves', t, u);
    var all: seq<State>, steps: seq<Event> := states[..|moves|] + states', moves + moves';
    forall i | 0 <= i < |steps|
      ensures Shaped(all[i]) && steps[i].a < |all[i].notes| && all[i + 1] == Step(all[i], steps[i].a, steps[i].c)
    {
      if i < |moves| {
        assert all[i] == states[i] && all[i + 1] == states[i + 1];
      } else {
        assert all[i] == states'[i - |moves|] && all[i + 1] == states'[i - |moves| + 1];
      }
    }
    assert Path(all, steps, s, u);
  }

  /** One more step. */
  lemma Then(s: State, t: State, a: nat, c: Choice)
    requires Leads(s, t) && Shaped(t) && a < |t.notes|
    ensures Leads(s, Step(t, a, c))
  {
    Goes(t, a, c);
    GoesOn(s, t, Step(t, a, c));
  }

  // ----- single steps, written out

  lemma StepLoop(s: State, w: nat)
    requires AtLoop(s, w)
    ensures s.workers[w].pc == Top ==> Step(s, w, Go) == Move(s, w, NextTask)
    ensures s.workers[w].pc == NextTask ==> Step(s, w, Go) == Move(s, w, TakingLocal(false))
    ensures s.workers[w].pc == Top ==> Step(s, w, Maintain) == Move(s, w, Polling(false))
  {
    hide PollStep, ArriveStep, TakeStep, SearchStep, RunStep, LeaveStep, WakeStep, NoteStep;
  }

  lemma StepTake(s: State, w: nat)
    requires AtLoop(s, w) && PartOf(s.workers[w].pc) == Take
    ensures Step(s, w, Go) == TakeStep(s, w, Go)
  {
    hide PollStep, ArriveStep, TakeStep, SearchStep, RunStep, LeaveStep, WakeStep, NoteStep;
  }

  lemma StepPoll(s: State, w: nat, c: Choice)
    requires AtLoop(s, w) && PartOf(s.workers[w].pc) == Poll
    ensures Step(s, w, c) == PollStep(s, w, c)
  {
    hide PollStep, ArriveStep, TakeStep, SearchStep, RunStep, LeaveStep, WakeStep, NoteStep;
  }

  lemma StepArrive(s: State, w: nat)
    requires AtLoop(s, w) && PartOf(s.workers[w].pc) == Arrive
    ensures Step(s, w, Go) == ArriveStep(s, w, Go)
  {
    hide PollStep, ArriveStep, TakeStep, SearchStep, RunStep, LeaveStep, WakeStep, NoteStep;
  }

  lemma StepSearch(s: State, w: nat, c: Choice)
    requires AtLoop(s, w) && PartOf(s.workers[w].pc) == Search
    ensures Step(s, w, c) == SearchStep(s, w, c)
  {
    hide PollStep, ArriveStep, TakeStep, SearchStep, RunStep, LeaveStep, WakeStep, NoteStep;
  }

  lemma StepRun(s: State, w: nat)
    requires AtLoop(s, w) && PartOf(s.workers[w].pc) == Perform
    ensures Step(s, w, Go) == RunStep(s, w, Go)
  {
    hide PollStep, ArriveStep, TakeStep, SearchStep, RunStep, LeaveStep, WakeStep, NoteStep;
  }

  lemma StepLeave(s: State, w: nat)
    requires AtLoop(s, w) && PartOf(s.workers[w].pc) == Leave
    ensures Step(s, w, Go) == LeaveStep(s, w, Go)
  {
    hide PollStep, ArriveStep, TakeStep, SearchStep, RunStep, LeaveStep, WakeStep, NoteStep;
  }

  lemma StepWake(s: State, w: nat, c: Choice)
    requires AtLoop(s, w) && PartOf(s.workers[w].pc) == Awaken
    ensures Step(s, w, c) == WakeStep(s, w, c)
  {
    hide PollStep, ArriveStep, TakeStep, SearchStep, RunStep, LeaveStep, WakeStep, NoteStep;
  }

  lemma StepNote(s: State, a: nat, c: Choice)
    requires Shaped(s) && a < |s.notes| && s.notes[a] != Silent
    ensures Step(s, a, c) == NoteStep(s, a, c)
  {
    hide NoteStep, WorkerStep;
  }

  // ----- stretches of one worker's way

  /** From the choice of a task to the search, with nothing found on the way. */
  lemma {:induction false} ComesToSearch(s: State, w: nat, working: nat, searching: nat) returns (t: State)
    requires AtLoop(s, w) && s.workers[w].pc == NextTask && !s.workers[w].HasTask() && s.global == 0
    requires Fits(working, searching + 1) && s.word == Packed(working, searching)
    requires !s.workers[w].searching ==> 2 * searching < |s.workers|
    ensures Leads(s, t)
    ensures var x := s.workers[w];
      t == s.(word := Packed(working, if x.searching then searching else searching + 1),
              workers := s.workers[w := x.(pc := Scanning, searching := true)])
  {
    hide Step, Leads, Packed, IncSearching, NumSearching;
    FieldsOf(working, searching);
    IncSearchingFaithful(working, searching);
    var x := s.workers[w];
    StepLoop(s, w);
    Goes(s, w, Go);
    var s1 := Move(s, w, TakingLocal(false));
    StepTake(s1, w);
    Then(s, s1, w, Go);
    var s2 := Move(s, w, TakingGlobal(false));
    assert TakeStep(s1, w, Go) == s2;
    StepTake(s2, w);
    Then(s, s2, w, Go);
    var s3 := Move(s, w, Electing);
    assert TakeStep(s2, w, Go) == s3;
    StepSearch(s3, w, Go);
    Then(s, s3, w, Go);
    if x.searching {
      t := Move(s, w, Scanning);
      assert SearchStep(s3, w, Go) == t;
    } else {
      var s4 := Move(s, w, Joining);
      assert SearchStep(s3, w, Go) == s4;
      StepSearch(s4, w, Go);
      Then(s, s4, w, Go);
      t := SearchStep(s4, w, Go);
    }
  }

  /** From the search to the lock, with nothing found. */
  lemma {:induction false} GivesUpSearch(s: State, w: nat) returns (t: State)
    requires AtLoop(s, w) && s.workers[w].pc == Scanning && !s.workers[w].HasTask() && s.global == 0
    ensures Leads(s, t) && t == Move(s, w, LeavingLock)
  {
    hide Step, Leads, NumSearching;
    var s2 := FindsNothing(s, w);
    StepPoll(s2, w, Go);
    Then(s, s2, w, Go);
    var s3 := Move(s, w, Leaving);
    assert PollStep(s2, w, Go) == s3;
    StepLeave(s3, w);
    Then(s, s3, w, Go);
    t := LeaveStep(s3, w, Go);
  }

  lemma {:induction false} FindsNothing(s: State, w: nat) returns (t: State)
    requires AtLoop(s, w) && s.workers[w].pc == Scanning && s.global == 0
    ensures Leads(s, t) && t == Move(s, w, Polling(true))
  {
    hide Step, Leads, NumSearching;
    StepSearch(s, w, Go);
    Goes(s, w, Go);
    var s1 := Move(s, w, ScanningGlobal);
    assert SearchStep(s, w, Go) == s1;
    StepTake(s1, w);
    Then(s, s1, w, Go);
    t := TakeStep(s1, w, Go);
  }

  /** Through the lock, counted out. */
  lemma {:induction false} CountsOut(s: State, w: nat, working: nat, searching: nat) returns (t: State)
    requires AtLoop(s, w) && s.workers[w].pc == LeavingLock && s.lock == None && s.workers[w].searching
    requires Fits(working, searching) && working > 0 && searching > 0 && s.word == Packed(working, searching)
    ensures Leads(s, t)
    ensures var x := s.workers[w];
      t == s.(word := Packed(working - 1, searching - 1), lock := Some(w),
              workers := s.workers[w := x.(pc := Entering(searching == 1), searching := false, blind := false)])
  {
    hide Step, Leads, Packed, DecWorking, NumSearching;
    FieldsOf(working, searching);
    DecWorkingFaithful(working, searching, true);
    StepLeave(s, w);
    Goes(s, w, Go);
    var s1 := Move(s, w, LeavingCount).(lock := Some(w));
    StepLeave(s1, w);
    Then(s, s1, w, Go);
    t := LeaveStep(s1, w, Go);
  }

  lemma {:induction false} Looks(s: State, w: nat) returns (t: State)
    requires AtLoop(s, w) && s.workers[w].pc.Looking? && s.workers[w].pc.next <= |s.workers|
    requires forall v :: s.workers[w].pc.next <= v < |s.workers| ==> s.workers[v].ring == 0
    ensures Leads(s, t) && t == Move(s, w, Looking(|s.workers|))
    decreases |s.workers| - s.workers[w].pc.next
  {
    hide Step, Leads, NumSearching;
    var next := s.workers[w].pc.next;
    if next == |s.workers| {
      Stays(s);
      t := s;
      assert s.workers[w := s.workers[w]] == s.workers;
    } else {
      StepLeave(s, w);
      Goes(s, w, Go);
      var s1 := Move(s, w, Looking(next + 1));
      t := Looks(s1, w);
      GoesOn(s, s1, t);
    }
  }

  /** Into the set of sleepers; the last searcher looks at everything again, in vain. */
  lemma {:induction false} FallsAsleep(s: State, w: nat) returns (t: State)
    requires AtLoop(s, w) && s.workers[w].pc.Entering? && s.global == 0
    requires forall v :: 0 <= v < |s.workers| ==> s.workers[v].ring == 0 || !s.workers[w].pc.wasLast
    ensures Leads(s, t)
    ensures t == Move(s, w, Waiting).(sleepers := s.sleepers + {w}, lock := None)
  {
    hide Step, Leads, NumSearching;
    StepLeave(s, w);
    Goes(s, w, Go);
    if s.workers[w].pc.wasLast {
      var s1 := Move(s, w, Looking(0)).(sleepers := s.sleepers + {w}, lock := None);
      var s2 := Looks(s1, w);
      GoesOn(s, s1, s2);
      StepLeave(s2, w);
      Then(s, s2, w, Go);
      t := LeaveStep(s2, w, Go);
    } else {
      t := LeaveStep(s, w, Go);
    }
  }

  /** A worker finds nothing and falls asleep. */
  lemma {:induction false} GoesToSleep(s: State, w: nat, working: nat, searching: nat) returns (t: State)
    requires AtLoop(s, w) && s.workers[w].pc == NextTask && !s.workers[w].HasTask() && s.global == 0 && s.lock == None
    requires Fits(working, searching + 1) && working > 0 && s.word == Packed(working, searching)
    requires if s.workers[w].searching then searching > 0 else 2 * searching < |s.workers|
    requires var others := if s.workers[w].searching then searching - 1 else searching;
      others == 0 ==> forall v :: 0 <= v < |s.workers| ==> s.workers[v].ring == 0
    ensures Leads(s, t)
    ensures var x := s.workers[w];
      t == s.(word := Packed(working - 1, if x.searching then searching - 1 else searching),
              sleepers := s.sleepers + {w},
              workers := s.workers[w := x.(pc := Waiting, searching := false, blind := false)])
  {
    hide Step, Leads, Packed;
    var t1 := ComesToSearch(s, w, working, searching);
    var t2 := GivesUpSearch(t1, w);
    GoesOn(s, t1, t2);
    var t3 := CountsOut(t2, w, working, if s.workers[w].searching then searching else searching + 1);
    GoesOn(s, t2, t3);
    t := FallsAsleep(t3, w);
    GoesOn(s, t3, t);
  }

  // ----- running one's own tasks

  lemma {:induction false} RunsOne(s: State, w: nat) returns (t: State)
    requires AtLoop(s, w) && s.workers[w].pc == NextTask && !s.workers[w].lifo && s.workers[w].ring > 0
    requires !s.workers[w].searching
    ensures Leads(s, t) && t == SetWorker(s, w, Popped(s.workers[w]))
  {
    hide Step, Leads, NumSearching, DecSearching;
    var x := s.workers[w];
    StepLoop(s, w);
    Goes(s, w, Go);
    var s1 := Move(s, w, TakingLocal(false));
    StepTake(s1, w);
    Then(s, s1, w, Go);
    var s2 := SetWorker(s, w, Popped(x).(pc := Starting));
    assert TakeStep(s1, w, Go) == s2;
    StepRun(s2, w);
    Then(s, s2, w, Go);
    var s3 := SetWorker(s, w, Popped(x).(pc := Running));
    assert RunStep(s2, w, Go) == s3;
    StepRun(s3, w);
    Then(s, s3, w, Go);
    var s4 := SetWorker(s, w, Popped(x).(pc := Top));
    assert RunStep(s3, w, Go) == s4;
    StepLoop(s4, w);
    Then(s, s4, w, Go);
    t := Move(s4, w, NextTask);
  }

  lemma {:induction false} RunsAll(s: State, w: nat) returns (t: State)
    requires AtLoop(s, w) && s.workers[w].pc == NextTask && !s.workers[w].lifo && !s.workers[w].searching
    ensures Leads(s, t)
    ensures var x := s.workers[w];
      t == SetWorker(s, w, x.(ring := 0, kept := if x.kept > 0 then x.kept + x.ring else 0))
      || (x.ring == 0 && t == s)
    decreases s.workers[w].ring
  {
    hide Step, Leads;
    if s.workers[w].ring == 0 {
      Stays(s);
      t := s;
    } else {
      var s1 := RunsOne(s, w);
      t := RunsAll(s1, w);
      GoesOn(s, s1, t);
    }
  }

  // ----- arrivals

  lemma {:induction false} StoresAll(s: State, w: nat) returns (t: State)
    requires AtLoop(s, w) && s.workers[w].pc.Arriving?
    requires s.workers[w].pc.todo + s.workers[w].Used() <= Ring.CAPACITY
    ensures Leads(s, t)
    ensures var x := s.workers[w];
      t == SetWorker(s, w, x.(pc := Arriving(x.pc.src, 0), ring := x.ring + x.pc.todo))
    decreases s.workers[w].pc.todo
  {
    hide Step, Leads;
    var x := s.workers[w];
    if x.pc.todo == 0 {
      Stays(s);
      t := s;
      assert s.workers[w := x] == s.workers;
    } else {
      StepArrive(s, w);
      Goes(s, w, Go);
      var s1 := Move(s, w, Storing(x.pc.src, x.pc.todo));
      StepArrive(s1, w);
      Then(s, s1, w, Go);
      var s2 := SetWorker(s, w, x.(pc := Arriving(x.pc.src, x.pc.todo - 1), ring := x.ring + 1));
      assert ArriveStep(s1, w, Go) == s2;
      t := StoresAll(s2, w);
      GoesOn(s, s2, t);
    }
  }

  lemma {:induction false} Receives(s: State, w: nat, count: nat) returns (t: State)
    requires AtLoop(s, w) && s.workers[w].pc == Top && s.workers[w].Used() == 0 && count <= Ring.CAPACITY
    requires !s.workers[w].blind && !s.workers[w].token
    ensures Leads(s, t)
    ensures t == SetWorker(s, w, s.workers[w].(pc := Arriving(Upkeep, 0), ring := count))
  {
    hide Step, Leads, PollStep;
    var s2 := StartsReceiving(s, w, count);
    t := StoresAll(s2, w);
    GoesOn(s, s2, t);
  }

  lemma {:induction false} StartsReceiving(s: State, w: nat, count: nat) returns (t: State)
    requires AtLoop(s, w) && s.workers[w].pc == Top && !s.workers[w].blind && !s.workers[w].token
    ensures Leads(s, t) && t == Move(s, w, Arriving(Upkeep, count))
  {
    hide Step, Leads;
    var arrivals := Events(count, false);
    StepLoop(s, w);
    Goes(s, w, Maintain);
    var s1 := Move(s, w, Polling(false));
    StepPoll(s1, w, arrivals);
    Then(s, s1, w, arrivals);
    t := Move(s, w, Arriving(Upkeep, count));
    assert PollStep(s1, w, arrivals) == t;
  }

  lemma {:induction false} StartsTelling(s: State, w: nat) returns (t: State)
    requires AtLoop(s, w) && s.workers[w].pc == Arriving(Upkeep, 0) && !s.workers[w].searching
    ensures Leads(s, t)
    ensures t == if s.workers[w].ring > 1 then SetNote(Move(s, w, NextTask), w, Asking) else Move(s, w, NextTask)
  {
    hide Step, Leads;
    StepArrive(s, w);
    Goes(s, w, Go);
    var s1 := Move(s, w, Telling(false));
    assert ArriveStep(s, w, Go) == s1;
    StepPoll(s1, w, Go);
    Then(s, s1, w, Go);
    t := PollStep(s1, w, Go);
  }

  /** Nobody is woken as long as somebody searches. */
  lemma {:induction false} TellsNobody(s: State, w: nat, working: nat, searching: nat) returns (t: State)
    requires AtLoop(s, w) && s.workers[w].pc == Arriving(Upkeep, 0) && !s.workers[w].searching
    requires Fits(working, searching) && searching > 0 && s.word == Packed(working, searching)
    ensures Leads(s, t) && t == Move(s, w, NextTask)
  {
    hide Step, Leads, Packed, NumSearching, NumWorking;
    FieldsOf(working, searching);
    t := StartsTelling(s, w);
    if s.workers[w].ring > 1 {
      var s2 := t;
      StepNote(s2, w, Go);
      Then(s, s2, w, Go);
      t := NoteStep(s2, w, Go);
      assert s.notes[w := Asking][w := Silent] == s.notes;
    }
  }

  // ----- waking another

  /** A worker whose last search ended in a task wakes `target`. */
  lemma {:induction false} Wakes(s: State, a: nat, target: nat, working: nat) returns (t: State)
    requires Shaped(s) && a < |s.workers| && target < |s.workers| && target in s.sleepers && s.lock == None
    requires s.notes[a] == Asking && working < |s.workers|
    requires s.word == Packed(working, 0)
    ensures Leads(s, t)
    ensures t == SetWorker(s, target, s.workers[target].(token := true))
                 .(word := Packed(working + 1, 1), sleepers := s.sleepers - {target}, notes := s.notes[a := Silent])
  {
    hide Step, Leads, Packed, NumSearching, NumWorking, WakeUpOne;
    FieldsOf(working, 0);
    WakeUpOneFaithful(working, 0, 1);
    StepNote(s, a, Go);
    Goes(s, a, Go);
    var s1 := SetNote(s, a, Locking);
    StepNote(s1, a, Go);
    Then(s, s1, a, Go);
    var s2 := SetNote(s, a, Confirming).(lock := Some(a));
    assert NoteStep(s1, a, Go) == s2;
    StepNote(s2, a, Go);
    Then(s, s2, a, Go);
    var s3 := SetNote(s, a, Counting).(lock := Some(a));
    assert NoteStep(s2, a, Go) == s3;
    StepNote(s3, a, Go);
    Then(s, s3, a, Go);
    var s4 := SetNote(s, a, Picking).(lock := Some(a), word := Packed(working + 1, 1));
    assert NoteStep(s3, a, Go) == s4;
    StepNote(s4, a, Pick(target));
    Then(s, s4, a, Pick(target));
    var s5 := SetNote(s, a, Waking(target)).(word := Packed(working + 1, 1), sleepers := s.sleepers - {target});
    assert NoteStep(s4, a, Pick(target)) == s5;
    StepNote(s5, a, Go);
    Then(s, s5, a, Go);
    t := NoteStep(s5, a, Go);
  }

  /** A picked sleeper finds nothing of its own and goes on as a searcher. */
  lemma {:induction false} Rises(s: State, w: nat) returns (t: State)
    requires AtLoop(s, w) && s.workers[w].pc == Waiting && !s.workers[w].HasTask() && s.lock == None && w !in s.sleepers
    ensures Leads(s, t)
    ensures t == SetWorker(s, w, s.workers[w].(pc := NextTask, searching := true, token := false))
  {
    hide Step, Leads, WakeUpOne;
    var x := s.workers[w].(token := false);
    StepWake(s, w, Events(0, true));
    Goes(s, w, Events(0, true));
    var s1 := SetWorker(s, w, x.(pc := Arriving(InSleep, 0)));
    var s2 := ContainsNothing(s1, w);
    GoesOn(s, s1, s2);
    StepWake(s2, w, Go);
    Then(s, s2, w, Go);
    var s3 := SetWorker(s, w, x.(pc := Top, searching := true));
    assert WakeStep(s2, w, Go) == s3;
    StepLoop(s3, w);
    Then(s, s3, w, Go);
    t := Move(s3, w, NextTask);
  }

  /** With everything arrived and nothing in the ring, the sleeper looks whether it was picked. */
  lemma {:induction false} ContainsNothing(s: State, w: nat) returns (t: State)
    requires AtLoop(s, w) && s.workers[w].pc == Arriving(InSleep, 0) && !s.workers[w].HasTask() && s.lock == None
    ensures Leads(s, t) && t == Move(s, w, ContainsCheck).(lock := Some(w))
  {
    hide Step, Leads, WakeUpOne;
    StepArrive(s, w);
    Goes(s, w, Go);
    var s1 := Move(s, w, Woken);
    StepWake(s1, w, Go);
    Then(s, s1, w, Go);
    var s2 := Move(s, w, ContainsLock);
    assert WakeStep(s1, w, Go) == s2;
    StepWake(s2, w, Go);
    Then(s, s2, w, Go);
    t := WakeStep(s2, w, Go);
  }

  // ----- the run

  /** A worker that waits, is not woken and has nothing. */
  predicate Dormant(x: Worker) {
    x == Worker(Waiting, false, false, false, 0, 0, false)
  }

  /** Outside the lock, with nothing going on but what the first three workers do. */
  ghost predicate Scene(s: State, n: nat, m: nat, working: nat, searching: nat, awake: set<nat>) {
    && Shaped(s) && 3 <= n == |s.workers| && m == |s.notes| && s.lock == None
    && s.word == Packed(working, searching) && working + searching < UNIT
    && (forall a :: 0 <= a < m ==> s.notes[a] == Silent)
    && (forall w :: w in s.sleepers <==> 0 <= w < n && w !in awake)
    && (forall w :: 3 <= w < n ==> Dormant(s.workers[w]))
  }

  function Idler(pc: Pc): Worker {
    Worker(pc, false, false, false, 0, 0, false)
  }

  /** At the start all workers from number `k` on fall asleep, one after the other. */
  lemma {:induction false} OthersSleep(s: State, n: nat, m: nat, k: nat) returns (t: State)
    requires Initial(s) && s.global == 0 && |s.workers| == n && |s.notes| == m && 1 <= k <= n < UNIT
    ensures Leads(s, t) && Shaped(t) && |t.workers| == n && t.notes == s.notes && t.lock == None && t.global == 0
    ensures t.word == Packed(k, 0)
    ensures forall w :: w in t.sleepers <==> k <= w < n
    ensures forall w :: 0 <= w < n ==> t.workers[w] == Idler(if w < k then Top else Waiting)
    decreases n - k
  {
    hide Leads, Packed, Step;
    if k == n {
      Stays(s);
      t := s;
    } else {
      var s1 := OthersSleep(s, n, m, k + 1);
      StepLoop(s1, k);
      Then(s, s1, k, Go);
      var s2 := Move(s1, k, NextTask);
      t := GoesToSleep(s2, k, k + 1, 0);
      GoesOn(s, s2, t);
    }
  }

  /** All but the first two workers are asleep, and worker 1 searches. */
  lemma {:induction false} SearchBegins(s: State, n: nat, m: nat) returns (t: State)
    requires Initial(s) && s.global == 0 && |s.workers| == n && |s.notes| == m && 3 <= n < UNIT
    ensures Leads(s, t) && t.global == 0 && Scene(t, n, m, 2, 1, {0, 1})
    ensures t.workers[0] == Idler(Top)
    ensures t.workers[1] == Worker(Scanning, true, false, false, 0, 0, false)
    ensures Dormant(t.workers[2])
  {
    hide Leads, Packed, Step;
    var s1 := OthersSleep(s, n, m, 2);
    StepLoop(s1, 1);
    Then(s, s1, 1, Go);
    var s2 := Move(s1, 1, NextTask);
    t := ComesToSearch(s2, 1, 2, 0);
    GoesOn(s, s2, t);
  }

  /** A whole ring arrives for worker 0, which runs on. */
  lemma {:induction false} RingFills(s: State, n: nat, m: nat) returns (t: State)
    requires s.global == 0 && Scene(s, n, m, 2, 1, {0, 1})
    requires s.workers[0] == Idler(Top)
    ensures Leads(s, t)
    ensures t == SetWorker(s, 0, Worker(NextTask, false, false, false, Ring.CAPACITY, 0, false))
  {
    hide Leads, Packed, Step;
    var s1 := Receives(s, 0, Ring.CAPACITY);
    t := TellsNobody(s1, 0, 2, 1);
    GoesOn(s, s1, t);
  }

  lemma {:induction false} HalfIsClaimed(s: State, n: nat, m: nat) returns (t: State)
    requires s.global == 0 && Scene(s, n, m, 2, 1, {0, 1})
    requires s.workers[0] == Worker(NextTask, false, false, false, Ring.CAPACITY, 0, false)
    requires s.workers[1] == Worker(Scanning, true, false, false, 0, 0, false)
    ensures Leads(s, t)
    ensures t == SetWorker(SetWorker(s, 0, Worker(NextTask, false, false, false, 128, 128, false)), 1,
                           Worker(Copying(0, 128), true, false, false, 0, 0, false))
  {
    hide Leads, Packed, Step;
    StepSearch(s, 1, Steal(0, 128));
    Goes(s, 1, Steal(0, 128));
    t := SearchStep(s, 1, Steal(0, 128));
  }

  /** Scene 1: worker 1 searches while a whole ring arrives for worker 0; worker 1 claims half of it. */
  lemma {:induction false} FirstScene(s: State, n: nat, m: nat) returns (t: State)
    requires Initial(s) && s.global == 0 && |s.workers| == n && |s.notes| == m && 3 <= n < UNIT
    ensures Leads(s, t) && t.global == 0 && Scene(t, n, m, 2, 1, {0, 1})
    ensures t.workers[0] == Worker(NextTask, false, false, false, 128, 128, false)
    ensures t.workers[1] == Worker(Copying(0, 128), true, false, false, 0, 0, false)
    ensures Dormant(t.workers[2])
  {
    hide Leads, Packed, Step;
    var s1 := SearchBegins(s, n, m);
    var s2 := RingFills(s1, n, m);
    GoesOn(s, s1, s2);
    t := HalfIsClaimed(s2, n, m);
    GoesOn(s, s2, t);
  }

  /** Scene 2: worker 0 runs the rest and falls asleep; one more task arrives, and finds the ring full. */
  lemma {:induction false} SecondScene(s: State, n: nat, m: nat) returns (t: State)
    requires s.global == 0 && Scene(s, n, m, 2, 1, {0, 1})
    requires s.workers[0] == Worker(NextTask, false, false, false, 128, 128, false)
    requires s.workers[1] == Worker(Copying(0, 128), true, false, false, 0, 0, false)
    requires Dormant(s.workers[2])
    ensures Leads(s, t) && t.global == 0 && Scene(t, n, m, 1, 1, {1})
    ensures t.workers[0] == Worker(Spilling(InSleep, 1, 1), false, false, false, 0, 256, false)
    ensures t.workers[1] == s.workers[1] && t.workers[2] == s.workers[2]
  {
    hide Leads, Packed, Step;
    var s1 := RunsAll(s, 0);
    var s2 := GoesToSleep(s1, 0, 2, 1);
    GoesOn(s, s1, s2);
    StepWake(s2, 0, Events(1, false));
    Then(s, s2, 0, Events(1, false));
    var s3 := WakeStep(s2, 0, Events(1, false));
    StepArrive(s3, 0);
    Then(s, s3, 0, Go);
    t := ArriveStep(s3, 0, Go);
  }

  /** Scene 3: worker 1 takes over what it claimed, and wakes worker 2. */
  lemma {:induction false} ThirdScene(s: State, n: nat, m: nat) returns (t: State)
    requires s.global == 0 && Scene(s, n, m, 1, 1, {1})
    requires s.workers[0] == Worker(Spilling(InSleep, 1, 1), false, false, false, 0, 256, false)
    requires s.workers[1] == Worker(Copying(0, 128), true, false, false, 0, 0, false)
    requires Dormant(s.workers[2])
    ensures Leads(s, t) && t.global == 0 && Scene(t, n, m, 2, 1, {1, 2})
    ensures t.workers[0] == Worker(Spilling(InSleep, 1, 1), false, false, false, 0, 0, false)
    ensures t.workers[1] == Worker(Running, false, false, false, 127, 0, false)
    ensures t.workers[2] == Worker(Waiting, false, false, false, 0, 0, true)
  {
    hide Leads, Step, NumSearching, NumWorking, DecSearching;
    FieldsOf(1, 1);
    DecSearchingFaithful(1, 1);
    StepSearch(s, 1, Go);
    Goes(s, 1, Go);
    var s1 := SearchStep(s, 1, Go);
    StepSearch(s1, 1, Go);
    Then(s, s1, 1, Go);
    var s2 := SearchStep(s1, 1, Go);
    StepRun(s2, 1);
    Then(s, s2, 1, Go);
    var s3 := RunStep(s2, 1, Go);
    t := Wakes(s3, 1, 2, 1);
    GoesOn(s, s3, t);
  }

  /** Scene 4: worker 1 runs its tasks and falls asleep, not as the last searcher, for worker 2 counts as one. */
  lemma {:induction false} FourthScene(s: State, n: nat, m: nat) returns (t: State)
    requires s.global == 0 && Scene(s, n, m, 2, 1, {1, 2})
    requires s.workers[0] == Worker(Spilling(InSleep, 1, 1), false, false, false, 0, 0, false)
    requires s.workers[1] == Worker(Running, false, false, false, 127, 0, false)
    requires s.workers[2] == Worker(Waiting, false, false, false, 0, 0, true)
    ensures Leads(s, t) && t.global == 0 && Scene(t, n, m, 1, 1, {2})
    ensures t.workers[0] == s.workers[0] && Dormant(t.workers[1]) && t.workers[2] == s.workers[2]
  {
    hide Leads, Packed, Step;
    StepRun(s, 1);
    Goes(s, 1, Go);
    var s1 := Move(s, 1, Top);
    assert RunStep(s, 1, Go) == s1;
    StepLoop(s1, 1);
    Then(s, s1, 1, Go);
    var s2 := Move(s1, 1, NextTask);
    var s3 := RunsAll(s2, 1);
    GoesOn(s, s2, s3);
    t := GoesToSleep(s3, 1, 2, 1);
    GoesOn(s, s3, t);
  }

  /** Scene 5: worker 2 finds nothing, looks again as the last searcher, finds nothing, and falls asleep. */
  lemma {:induction false} FifthScene(s: State, n: nat, m: nat) returns (t: State)
    requires s.global == 0 && Scene(s, n, m, 1, 1, {2})
    requires s.workers[0] == Worker(Spilling(InSleep, 1, 1), false, false, false, 0, 0, false)
    requires Dormant(s.workers[1]) && s.workers[2] == Worker(Waiting, false, false, false, 0, 0, true)
    ensures Leads(s, t) && t.global == 0 && Scene(t, n, m, 0, 0, {})
    ensures t.workers[0] == s.workers[0] && Dormant(t.workers[1]) && Dormant(t.workers[2])
  {
    hide Leads, Packed, Step;
    var s1 := Rises(s, 2);
    t := GoesToSleep(s1, 2, 1, 1);
    GoesOn(s, s1, t);
  }

  /** Scene 6: worker 0 pushes to the global queue at last, was not picked, and waits again. */
  lemma {:induction false} LastScene(s: State, n: nat, m: nat) returns (t: State)
    requires s.global == 0 && Scene(s, n, m, 0, 0, {})
    requires s.workers[0] == Worker(Spilling(InSleep, 1, 1), false, false, false, 0, 0, false)
    requires Dormant(s.workers[1]) && Dormant(s.workers[2])
    ensures Leads(s, t) && Resting(t) && t.global == 1
  {
    hide Leads, Packed, Step;
    StepArrive(s, 0);
    Goes(s, 0, Go);
    var s1 := Move(s, 0, Arriving(InSleep, 0)).(global := 1);
    var s2 := ContainsNothing(s1, 0);
    GoesOn(s, s1, s2);
    StepWake(s2, 0, Go);
    Then(s, s2, 0, Go);
    t := WakeStep(s2, 0, Go);
  }

  /** Three or more workers, with any number of outside threads, can come to rest with a task in the global queue. */
  lemma {:induction false} WakeUpLost(s: State) returns (states: seq<State>, moves: seq<Event>)
    requires Initial(s) && s.global == 0 && |s.workers| >= 3
    ensures Run(states, moves) && states[0] == s
    ensures Resting(states[|moves|]) && states[|moves|].global == 1
  {
    hide Step, Scene, Dormant;
    var n, m := |s.workers|, |s.notes|;
    var s1 := FirstScene(s, n, m);
    var s2 := SecondScene(s1, n, m);
    GoesOn(s, s1, s2);
    var s3 := ThirdScene(s2, n, m);
    GoesOn(s, s2, s3);
    var s4 := FourthScene(s3, n, m);
    GoesOn(s, s3, s4);
    var s5 := FifthScene(s4, n, m);
    GoesOn(s, s4, s5);
    var s6 := LastScene(s5, n, m);
    GoesOn(s, s5, s6);
    states, moves :| Path(states, moves, s, s6);
  }
}

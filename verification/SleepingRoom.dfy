/** When no wake-up is lost: as long as a sleeper's arrivals fit its ring, and with
    at most two workers always. */
module SleepingRoom {
  import opened IdleWord
  import opened Wheel
  import opened Sleeping
  import opened SleepingInv
  import opened SleepingSteps
  import opened SleepingSafety
  import Ring

  // ----- what a step leaves alone

  /** A step changes another worker's record only as a thief or by setting a token. */
  lemma {:induction false} OthersRecord(s: State, a: nat, c: Choice, w: nat)
    requires Shaped(s) && a < |s.notes| && w < |s.workers| && w != a
    ensures |Step(s, a, c).workers| == |s.workers|
    ensures var x, y := s.workers[w], Step(s, a, c).workers[w];
      && y == x.(ring := y.ring, kept := y.kept, token := y.token)
      && y.ring <= x.ring && y.Used() <= x.Used()
      && (y.ring != x.ring ==> StepsTo(s, a, c, Copying(w, y.kept)))
      && (y.kept > 0 && y.kept != x.kept ==> StepsTo(s, a, c, Copying(w, y.kept)))
  {
    hide NumSearching, NumWorking, WakeUpOne, DecWorking, IncSearching, DecSearching, PollStep, ArriveStep, TakeStep,
      RunStep, LeaveStep, WakeStep, NoteStep, SearchStep;
    if s.notes[a] != Silent {
      NoteOthers(s, a, c, w);
    } else if a < |s.workers| {
      SearchOthers(s, a, c, w);
      LeaveOthers(s, a, c, w);
      LoopOthers(s, a, c, w);
    }
  }

  /** The worker goes on with its loop, to this place. */
  predicate StepsTo(s: State, a: nat, c: Choice, pc: Pc)
    requires Shaped(s) && a < |s.notes|
  {
    AtLoop(s, a) && |Step(s, a, c).workers| == |s.workers| && Step(s, a, c).workers[a].pc == pc
  }

  lemma NoteOthers(s: State, a: nat, c: Choice, w: nat)
    requires Shaped(s) && a < |s.notes| && w < |s.workers|
    ensures var s' := NoteStep(s, a, c);
      && |s'.workers| == |s.workers| && s'.workers[w] == s.workers[w].(token := s'.workers[w].token)
  {
    hide NumSearching, NumWorking, WakeUpOne;
  }

  lemma SearchOthers(s: State, a: nat, c: Choice, w: nat)
    requires AtLoop(s, a) && w < |s.workers| && w != a
    ensures var s' := SearchStep(s, a, c);
      var x, y := s.workers[w], s'.workers[w];
      && |s'.workers| == |s.workers|
      && y == x.(ring := y.ring, kept := y.kept) && y.ring <= x.ring && y.Used() <= x.Used()
      && (y.ring != x.ring ==> s'.workers[a].pc == Copying(w, y.kept))
      && (y.kept > 0 && y.kept != x.kept ==> s'.workers[a].pc == Copying(w, y.kept))
  {
    hide NumSearching, IncSearching;
  }

  lemma LeaveOthers(s: State, a: nat, c: Choice, w: nat)
    requires AtLoop(s, a) && w < |s.workers| && w != a
    ensures var s' := LeaveStep(s, a, c);
      |s'.workers| == |s.workers| && s'.workers[w] == s.workers[w].(token := s'.workers[w].token)
  {
    hide NumSearching, DecWorking;
  }

  lemma LoopOthers(s: State, a: nat, c: Choice, w: nat)
    requires AtLoop(s, a) && w < |s.workers| && w != a
    ensures |PollStep(s, a, c).workers| == |s.workers| && PollStep(s, a, c).workers[w] == s.workers[w]
    ensures |ArriveStep(s, a, c).workers| == |s.workers| && ArriveStep(s, a, c).workers[w] == s.workers[w]
    ensures |TakeStep(s, a, c).workers| == |s.workers| && TakeStep(s, a, c).workers[w] == s.workers[w]
    ensures |RunStep(s, a, c).workers| == |s.workers| && RunStep(s, a, c).workers[w] == s.workers[w]
    ensures |WakeStep(s, a, c).workers| == |s.workers| && WakeStep(s, a, c).workers[w] == s.workers[w]
  {
    hide NumSearching, NumWorking, WakeUpOne, DecSearching;
  }

  // ----- arrivals that fit

  /** What arrives for a sleeper fits the free slots of its ring. */
  predicate InRoom(s: State, a: nat, c: Choice) {
    AtLoop(s, a) && s.workers[a].pc == Waiting && c.Events? ==> c.count + s.workers[a].Used() <= Ring.CAPACITY
  }

  /** The rest of what arrives for a sleeper fits. */
  predicate RestFits(x: Worker) {
    Pushing(x.pc) && x.pc.src == InSleep ==>
      && (x.pc.Arriving? || (x.pc.Storing? && x.pc.todo > 0))
      && x.pc.todo + x.Used() <= Ring.CAPACITY
  }

  ghost predicate AllFit(s: State) {
    forall w :: 0 <= w < |s.workers| ==> RestFits(s.workers[w])
  }

  lemma PushFits(s: State, a: nat, c: Choice)
    requires AtLoop(s, a) && PartOf(s.workers[a].pc) == Arrive && RestFits(s.workers[a])
    ensures |ArriveStep(s, a, c).workers| == |s.workers| && RestFits(ArriveStep(s, a, c).workers[a])
  {
  }

  lemma WakeFits(s: State, a: nat, c: Choice)
    requires AtLoop(s, a) && PartOf(s.workers[a].pc) == Awaken && InRoom(s, a, c)
    ensures |WakeStep(s, a, c).workers| == |s.workers| && RestFits(WakeStep(s, a, c).workers[a])
  {
    hide WakeUpOne;
  }

  lemma PollFits(s: State, a: nat, c: Choice)
    requires AtLoop(s, a)
    ensures PartOf(s.workers[a].pc) == Poll ==>
      |PollStep(s, a, c).workers| == |s.workers| && RestFits(PollStep(s, a, c).workers[a])
    ensures PartOf(s.workers[a].pc) == Perform ==>
      |RunStep(s, a, c).workers| == |s.workers| && RestFits(RunStep(s, a, c).workers[a])
  {
    hide NumSearching, DecSearching;
  }

  lemma TakeFits(s: State, a: nat, c: Choice)
    requires AtLoop(s, a) && PartOf(s.workers[a].pc) == Take
    ensures |TakeStep(s, a, c).workers| == |s.workers| && RestFits(TakeStep(s, a, c).workers[a])
  {
  }

  lemma SearchFits(s: State, a: nat, c: Choice)
    requires AtLoop(s, a) && PartOf(s.workers[a].pc) == Search
    ensures |SearchStep(s, a, c).workers| == |s.workers| && RestFits(SearchStep(s, a, c).workers[a])
  {
    hide NumSearching, IncSearching, RestFits, MayClaim;
    var s' := SearchStep(s, a, c);
    if s.workers[a].pc == Scanning {
      assert s'.workers[a].pc == ScanningGlobal || s'.workers[a].pc.Copying?;
    }
    NoPushFits(s'.workers[a]);
  }

  lemma NoPushFits(x: Worker)
    ensures !Pushing(x.pc) ==> RestFits(x)
  {
  }

  lemma LeaveFits(s: State, a: nat, c: Choice)
    requires AtLoop(s, a) && PartOf(s.workers[a].pc) == Leave
    ensures |LeaveStep(s, a, c).workers| == |s.workers| && RestFits(LeaveStep(s, a, c).workers[a])
  {
    hide NumSearching, DecWorking, RestFits, Worker.HasTask;
    var s', pc := LeaveStep(s, a, c), s.workers[a].pc;
    if pc.Nudging? {
      assert s'.workers[a].pc == Waiting;
    } else if pc.Looking? {
      assert s'.workers[a].pc == Waiting || s'.workers[a].pc.Looking? || s'.workers[a].pc.Nudging?;
    }
    NoPushFits(s'.workers[a]);
  }

  lemma {:induction false} OwnFits(s: State, a: nat, c: Choice)
    requires AtLoop(s, a) && RestFits(s.workers[a]) && InRoom(s, a, c)
    ensures |Step(s, a, c).workers| == |s.workers| && RestFits(Step(s, a, c).workers[a])
  {
    hide PollStep, ArriveStep, TakeStep, RunStep, LeaveStep, WakeStep, NoteStep, SearchStep, InRoom, RestFits;
    match PartOf(s.workers[a].pc)
    case Loop => LoopFits(s.workers[a]);
    case Poll => PollFits(s, a, c);
    case Arrive => PushFits(s, a, c);
    case Take => TakeFits(s, a, c);
    case Search => SearchFits(s, a, c);
    case Perform => PollFits(s, a, c);
    case Leave => LeaveFits(s, a, c);
    case Awaken => WakeFits(s, a, c);
  }

  lemma LoopFits(x: Worker)
    ensures forall pc: Pc :: !Pushing(pc) ==> RestFits(x.(pc := pc))
  {
  }

  lemma {:induction false} StepFits(s: State, a: nat, c: Choice)
    requires Shaped(s) && a < |s.notes| && AllFit(s) && InRoom(s, a, c)
    ensures AllFit(Step(s, a, c))
  {
    hide Step, StepsTo, InRoom;
    var s' := Step(s, a, c);
    SameNumber(s, a, c);
    forall w | 0 <= w < |s'.workers|
      ensures RestFits(s'.workers[w])
    {
      if w != a {
        OthersRecord(s, a, c, w);
      } else if s.notes[a] == Silent {
        OwnFits(s, a, c);
      } else {
        NoteKeepsRecord(s, a, c, w);
      }
    }
  }

  /** The numbers of workers and of threads stay. */
  lemma {:induction false} SameNumber(s: State, a: nat, c: Choice)
    requires Shaped(s) && a < |s.notes|
    ensures |Step(s, a, c).workers| == |s.workers| && |Step(s, a, c).notes| == |s.notes|
  {
    hide PollStep, ArriveStep, TakeStep, RunStep, LeaveStep, WakeStep, NoteStep, SearchStep;
    NoteNumbers(s, a, c);
    if AtLoop(s, a) {
      LoopNumbers(s, a, c);
      LeaveNumbers(s, a, c);
    }
  }

  lemma NoteNumbers(s: State, a: nat, c: Choice)
    requires Shaped(s) && a < |s.notes|
    ensures |NoteStep(s, a, c).workers| == |s.workers| && |NoteStep(s, a, c).notes| == |s.notes|
  {
    hide NumSearching, NumWorking, WakeUpOne;
  }

  lemma LoopNumbers(s: State, a: nat, c: Choice)
    requires AtLoop(s, a)
    ensures |PollStep(s, a, c).workers| == |s.workers| && |PollStep(s, a, c).notes| == |s.notes|
    ensures |ArriveStep(s, a, c).workers| == |s.workers| && |ArriveStep(s, a, c).notes| == |s.notes|
    ensures |TakeStep(s, a, c).workers| == |s.workers| && |TakeStep(s, a, c).notes| == |s.notes|
    ensures |RunStep(s, a, c).workers| == |s.workers| && |RunStep(s, a, c).notes| == |s.notes|
  {
    hide NumSearching, DecSearching;
  }

  lemma LeaveNumbers(s: State, a: nat, c: Choice)
    requires AtLoop(s, a)
    ensures |SearchStep(s, a, c).workers| == |s.workers| && |SearchStep(s, a, c).notes| == |s.notes|
    ensures |LeaveStep(s, a, c).workers| == |s.workers| && |LeaveStep(s, a, c).notes| == |s.notes|
    ensures |WakeStep(s, a, c).workers| == |s.workers| && |WakeStep(s, a, c).notes| == |s.notes|
  {
    hide NumSearching, WakeUpOne, DecWorking, IncSearching;
  }

  lemma NoteKeepsRecord(s: State, a: nat, c: Choice, w: nat)
    requires Shaped(s) && a < |s.notes| && s.notes[a] != Silent && w < |s.workers|
    ensures var s' := Step(s, a, c);
      |s'.workers| == |s.workers| && s'.workers[w] == s.workers[w].(token := s'.workers[w].token)
  {
    hide NoteStep, WorkerStep;
    NoteOthers(s, a, c, w);
  }

  /** A run in which everything that arrives for a sleeper fits its ring. */
  ghost predicate RoomyRun(states: seq<State>, moves: seq<Event>) {
    Run(states, moves) && forall i :: 0 <= i < |moves| ==> InRoom(states[i], moves[i].a, moves[i].c)
  }

  lemma {:induction false} RoomyFits(states: seq<State>, moves: seq<Event>, i: nat)
    requires RoomyRun(states, moves) && i < |states|
    ensures AllFit(states[i])
    decreases i
  {
    hide Step, InRoom, Initial, AllFit;
    if i == 0 {
      InitialFits(states[0]);
    } else {
      RoomyFits(states, moves, i - 1);
      StepFits(states[i - 1], moves[i - 1].a, moves[i - 1].c);
    }
  }

  lemma InitialFits(s: State)
    requires Initial(s)
    ensures AllFit(s)
  {
  }

  /** Then no sleeper ever pushes to the global queue. */
  lemma {:induction false} RoomyNeverSpills(states: seq<State>, moves: seq<Event>)
    requires RoomyRun(states, moves)
    ensures NoLateSpills(states, moves)
  {
    hide RoomyRun, OthersWatch;
    forall i | 0 <= i < |moves| && i < |states|
      ensures !LateSpill(states[i], moves[i].a)
    {
      RoomyFits(states, moves, i);
      if AtLoop(states[i], moves[i].a) {
        assert RestFits(states[i].workers[moves[i].a]);
      }
    }
  }
}

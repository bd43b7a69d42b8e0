/** Work gets run: as long as no sleeper makes a late push, from every state in which a task is anywhere the threads
    can come, by their own steps and without anything new from outside, to run one. */
module SleepingLive {
  import opened IdleWord
  import opened Wheel
  import opened Sleeping
  import opened SleepingInv
  import opened SleepingSteps
  import opened SleepingSafety
  import opened SleepingRoom
  import opened SleepingBalance
  import opened SleepingLoss
  import Ring

  // ----- paths without anything from outside

  /** Nothing is submitted, spawned or completed; a sleeper only goes on if it has its token. */
  predicate Quiet(s: State, a: nat, c: Choice) {
    && Shaped(s) && a < |s.notes| && !c.SpawnLocal? && !c.SpawnRemote?
    && (c.Events? ==> c == Events(0, true) && AtLoop(s, a) && s.workers[a].pc == Waiting && s.workers[a].token)
  }

  /** The last move of the path makes a worker run a task. */
  ghost predicate RunsOne(states: seq<State>, moves: seq<Event>, s: State) {
    && |states| == |moves| + 1 && moves != [] && states[0] == s
    && (forall i :: 0 <= i < |moves| ==>
          Quiet(states[i], moves[i].a, moves[i].c) && states[i + 1] == Step(states[i], moves[i].a, moves[i].c))
    && StartsToRun(states[|moves| - 1], moves[|moves| - 1].a, states[|moves|]) == 1
  }

  ghost predicate ComesToRun(s: State) {
    exists states, moves :: RunsOne(states, moves, s)
  }

  lemma AtStart(s: State, w: nat)
    requires AtLoop(s, w) && s.workers[w].pc == Starting
    ensures ComesToRun(s)
  {
    hide Step, NumSearching, DecSearching;
    StepRun(s, w);
    var states, moves := [s, Step(s, w, Go)], [By(w, Go)];
    assert StartsToRun(states[0], w, states[1]) == 1;
    assert RunsOne(states, moves, s);
  }

  lemma {:induction false} Before(s: State, a: nat, c: Choice)
    requires Quiet(s, a, c) && ComesToRun(Step(s, a, c))
    ensures ComesToRun(s)
  {
    hide Step, StartsToRun;
    var states, moves :| RunsOne(states, moves, Step(s, a, c));
    var states', moves' := [s] + states, [By(a, c)] + moves;
    forall i | 0 <= i < |moves'|
      ensures Quiet(states'[i], moves'[i].a, moves'[i].c)
      ensures states'[i + 1] == Step(states'[i], moves'[i].a, moves'[i].c)
    {
      if i > 0 {
        assert states'[i] == states[i - 1] && moves'[i] == moves[i - 1] && states'[i + 1] == states[i];
      }
    }
    assert states'[|moves'| - 1] == states[|moves| - 1];
    assert RunsOne(states', moves', s);
  }

  // ----- a claim has its thief

  ghost predicate HasThief(s: State, w: nat) {
    exists a :: 0 <= a < |s.workers| && a != w && s.workers[a].pc.Copying? && s.workers[a].pc.victim == w
  }

  ghost predicate Thieves(s: State) {
    forall w :: 0 <= w < |s.workers| && s.workers[w].kept > 0 ==> HasThief(s, w)
  }

  /** The worker has a claim on its ring only if it had one before. */
  predicate ClaimStays(s: State, w: nat, s': State)
    requires w < |s.workers|
  {
    |s'.workers| == |s.workers| && (s'.workers[w].kept > 0 ==> s.workers[w].kept > 0)
  }

  lemma PollClaim(s: State, w: nat, c: Choice)
    requires AtLoop(s, w)
    ensures ClaimStays(s, w, PollStep(s, w, c))
  {
    hide Packed;
  }

  lemma ArriveClaim(s: State, w: nat, c: Choice)
    requires AtLoop(s, w)
    ensures ClaimStays(s, w, ArriveStep(s, w, c))
  {
    hide Packed;
  }

  lemma TakeClaim(s: State, w: nat, c: Choice)
    requires AtLoop(s, w)
    ensures ClaimStays(s, w, TakeStep(s, w, c))
  {
    hide Packed;
  }

  lemma SearchClaim(s: State, w: nat, c: Choice)
    requires AtLoop(s, w)
    ensures ClaimStays(s, w, SearchStep(s, w, c))
  {
    hide NumSearching, IncSearching;
  }

  lemma PerformClaim(s: State, w: nat, c: Choice)
    requires AtLoop(s, w)
    ensures ClaimStays(s, w, RunStep(s, w, c))
  {
    hide NumSearching, DecSearching;
  }

  lemma LeaveClaim(s: State, w: nat, c: Choice)
    requires AtLoop(s, w)
    ensures ClaimStays(s, w, LeaveStep(s, w, c))
  {
    hide NumSearching, DecWorking;
  }

  lemma AwakenClaim(s: State, w: nat, c: Choice)
    requires AtLoop(s, w)
    ensures ClaimStays(s, w, WakeStep(s, w, c))
  {
    hide WakeUpOne;
  }

  lemma OwnClaim(s: State, a: nat, c: Choice)
    requires Shaped(s) && a < |s.notes| && a < |s.workers|
    ensures ClaimStays(s, a, Step(s, a, c))
  {
    hide PollStep, ArriveStep, TakeStep, SearchStep, RunStep, LeaveStep, WakeStep, NumSearching, NumWorking, WakeUpOne;
    if s.notes[a] == Silent {
      PollClaim(s, a, c);
      ArriveClaim(s, a, c);
      TakeClaim(s, a, c);
      SearchClaim(s, a, c);
      PerformClaim(s, a, c);
      LeaveClaim(s, a, c);
      AwakenClaim(s, a, c);
    }
  }

  lemma CopyEnds(s: State, a: nat, c: Choice, w: nat)
    requires AtLoop(s, a) && s.workers[a].pc.Copying? && s.workers[a].pc.victim == w && w != a && w < |s.workers|
    ensures Step(s, a, c).workers[w].kept == 0
  {
    hide NumSearching, NumWorking, WakeUpOne, DecWorking, IncSearching, DecSearching;
  }

  lemma NoteKeepsPc(s: State, a: nat, c: Choice)
    requires Shaped(s) && a < |s.notes| && a < |s.workers| && s.notes[a] != Silent
    ensures |Step(s, a, c).workers| == |s.workers| && Step(s, a, c).workers[a].pc == s.workers[a].pc
  {
    hide NumSearching, NumWorking, WakeUpOne;
  }

  lemma {:induction false} StepKeepsThieves(s: State, a: nat, c: Choice)
    requires Shaped(s) && a < |s.notes| && Thieves(s)
    ensures Thieves(Step(s, a, c))
  {
    hide Step;
    var s' := Step(s, a, c);
    forall w | 0 <= w < |s'.workers| && s'.workers[w].kept > 0
      ensures HasThief(s', w)
    {
      ThiefStays(s, a, c, w);
    }
  }

  lemma {:induction false} ThiefStays(s: State, a: nat, c: Choice, w: nat)
    requires Shaped(s) && a < |s.notes| && Thieves(s)
    requires w < |Step(s, a, c).workers| && Step(s, a, c).workers[w].kept > 0
    ensures HasThief(Step(s, a, c), w)
  {
    hide Step;
    var s' := Step(s, a, c);
    if a < |s.workers| {
      OwnClaim(s, a, c);
    } else {
      OthersRecord(s, a, c, 0);
    }
    if w != a {
      OthersRecord(s, a, c, w);
    }
    if w == a || s.workers[w].kept == s'.workers[w].kept {
      var v :| 0 <= v < |s.workers| && v != w && s.workers[v].pc.Copying? && s.workers[v].pc.victim == w;
      if v != a {
        OthersRecord(s, a, c, v);
      } else if s.notes[a] != Silent {
        NoteKeepsPc(s, a, c);
      } else {
        CopyEnds(s, a, c, w);
      }
      assert s'.workers[v].pc.Copying? && s'.workers[v].pc.victim == w;
    } else {
      assert s'.workers[a].pc == Copying(w, s'.workers[w].kept);
    }
  }

  // ----- a worker that is going to run a task if it goes on by itself

  predicate Unlisted(s: State, w: nat) {
    s.global > 0 && w !in s.sleepers
  }

  predicate Promising(s: State, w: nat) {
    w < |s.workers| &&
    var x := s.workers[w];
    var found := x.HasTask() || s.global > 0;
    match x.pc
    case Starting => true
    case Batching(_) => true
    case Copying(_, _) => true
    case Publishing(_) => true
    case TakingLocal(interval) => x.HasTask() || (s.global > 0 && !interval)
    case TakingGlobal(interval) => s.global > 0 || (x.HasTask() && interval)
    case NextTask => found
    case Top => found
    case Running => found
    case Telling(_) => found
    case Polling(last) => found && !last
    case Electing => s.global > 0 && (x.searching || 2 * NumSearching(s.word) < |s.workers|)
    case Joining => s.global > 0
    case Scanning => s.global > 0
    case ScanningGlobal => s.global > 0
    case RejoinLock => found
    case Rejoining => found
    case RejoinCount => found
    case Woken => x.HasTask() || Unlisted(s, w)
    case ContainsLock => Unlisted(s, w)
    case ContainsCheck => Unlisted(s, w)
    case Waiting => Unlisted(s, w) && x.token
    case Arriving(src, todo) =>
      if todo > 0 then x.HasTask() || x.kept == 0
      else if src == InSleep then x.HasTask() || Unlisted(s, w)
      else found
    case Storing(_, _) => true
    case Halving(_, _) => x.HasTask() || x.kept == 0
    case Spilling(_, _, _) => x.HasTask()
    case _ => false
  }

  /** How far it is from running a task, along the line on which it goes on by itself. */
  function Far(x: Worker): nat {
    match x.pc
    case Starting => 0
    case Batching(_) => 1
    case Publishing(_) => 1
    case ScanningGlobal => 1
    case Copying(_, _) => 2
    case Scanning => 2
    case Joining => 3
    case Electing => 4
    case TakingLocal(interval) => if interval then 2 else 4
    case TakingGlobal(_) => 3
    case NextTask => 5
    case Top => 6
    case Polling(_) => 6
    case Telling(_) => 7
    case Running => 7
    case RejoinCount => 7
    case Rejoining => 8
    case RejoinLock => 9
    case ContainsCheck => 8
    case ContainsLock => 9
    case Woken => 10
    case Arriving(_, todo) => 12 + 4 * todo
    case Storing(_, todo) => 9 + 4 * todo
    case Spilling(_, todo, _) => 9 + 4 * todo
    case Halving(_, todo) => if x.ring == Ring.CAPACITY && x.kept == 0 then 10 + 4 * todo else 13 + 4 * todo
    case Waiting => 13
    case _ => 0
  }

  function Stage(note: Note): nat {
    match note
    case Silent => 0
    case Waking(_) => 1
    case Picking => 2
    case Counting => 3
    case Confirming => 4
    case Locking => 5
    case Asking => 6
  }

  function Distance(s: State, w: nat): nat
    requires w < |s.workers| <= |s.notes|
  {
    7 * Far(s.workers[w]) + Stage(s.notes[w])
  }

  /** One step of the worker brings it closer. */
  ghost predicate Closer(s: State, w: nat, s': State)
    requires w < |s.workers| <= |s.notes|
  {
    Shaped(s') && |s'.workers| == |s.workers| && Promising(s', w) && Distance(s', w) < Distance(s, w)
  }

  lemma PollCloser(s: State, w: nat)
    requires AtLoop(s, w) && Promising(s, w) && PartOf(s.workers[w].pc) == Poll
    ensures Closer(s, w, PollStep(s, w, Go))
  {
    hide NumSearching;
  }

  lemma LoopCloser(s: State, w: nat)
    requires AtLoop(s, w) && Promising(s, w) && PartOf(s.workers[w].pc) == Loop
    ensures Closer(s, w, WorkerStep(s, w, Go))
  {
    hide NumSearching, PollStep, ArriveStep, TakeStep, SearchStep, RunStep, LeaveStep, WakeStep;
  }

  lemma ArrivingCloser(s: State, w: nat)
    requires AtLoop(s, w) && Promising(s, w) && s.workers[w].pc.Arriving? && Sound(s.workers[w])
    ensures Closer(s, w, ArriveStep(s, w, Go))
  {
    hide NumSearching;
  }

  lemma StoringCloser(s: State, w: nat)
    requires AtLoop(s, w) && Promising(s, w) && s.workers[w].pc.Storing? && Sound(s.workers[w])
    ensures Closer(s, w, ArriveStep(s, w, Go))
  {
    hide NumSearching;
  }

  lemma SpillingCloser(s: State, w: nat)
    requires AtLoop(s, w) && Promising(s, w) && (s.workers[w].pc.Halving? || s.workers[w].pc.Spilling?)
    requires Sound(s.workers[w])
    ensures Closer(s, w, ArriveStep(s, w, Go))
  {
    hide NumSearching;
  }

  lemma TakingLocalCloser(s: State, w: nat)
    requires AtLoop(s, w) && Promising(s, w) && s.workers[w].pc.TakingLocal?
    ensures Closer(s, w, TakeStep(s, w, Go))
  {
    hide NumSearching;
  }

  lemma TakingGlobalCloser(s: State, w: nat)
    requires AtLoop(s, w) && Promising(s, w) && PartOf(s.workers[w].pc) == Take && !s.workers[w].pc.TakingLocal?
    ensures Closer(s, w, TakeStep(s, w, Go))
  {
    hide NumSearching, Popped;
  }

  lemma ElectingCloser(s: State, w: nat)
    requires AtLoop(s, w) && Promising(s, w) && (s.workers[w].pc == Electing || s.workers[w].pc == Joining)
    ensures Closer(s, w, SearchStep(s, w, Go))
  {
    hide NumSearching, IncSearching;
  }

  lemma StealingCloser(s: State, w: nat)
    requires AtLoop(s, w) && Promising(s, w) && PartOf(s.workers[w].pc) == Search
    requires s.workers[w].pc != Electing && s.workers[w].pc != Joining
    ensures Closer(s, w, SearchStep(s, w, Go))
  {
    hide NumSearching, IncSearching;
  }

  lemma RunCloser(s: State, w: nat)
    requires AtLoop(s, w) && Promising(s, w) && s.workers[w].pc == Running
    ensures Closer(s, w, RunStep(s, w, Go))
  {
    hide NumSearching, DecSearching;
  }

  lemma WaitingCloser(s: State, w: nat, c: Choice)
    requires AtLoop(s, w) && Promising(s, w)
    requires (s.workers[w].pc == Waiting && c == Events(0, true)) || (s.workers[w].pc == Woken && c == Go)
    ensures Closer(s, w, WakeStep(s, w, c))
  {
    hide NumSearching, WakeUpOne;
  }

  lemma RejoiningCloser(s: State, w: nat)
    requires AtLoop(s, w) && Promising(s, w) && (NeedsLock(s, w) ==> s.lock == None)
    requires s.workers[w].pc == RejoinLock || s.workers[w].pc == Rejoining || s.workers[w].pc == RejoinCount
    ensures Closer(s, w, WakeStep(s, w, Go))
  {
    hide NumSearching, WakeUpOne;
  }

  lemma ContainsCloser(s: State, w: nat)
    requires AtLoop(s, w) && Promising(s, w) && (NeedsLock(s, w) ==> s.lock == None)
    requires s.workers[w].pc == ContainsLock || s.workers[w].pc == ContainsCheck
    ensures Closer(s, w, WakeStep(s, w, Go))
  {
    hide NumSearching, WakeUpOne;
  }

  lemma NoteCloser(s: State, w: nat, c: Choice)
    requires Shaped(s) && w < |s.workers| && s.notes[w] != Silent && Promising(s, w) && MayNote(s.workers[w].pc)
    requires s.notes[w].Waking? ==> s.notes[w].target < |s.workers|
    requires NeedsLock(s, w) ==> s.lock == None
    requires s.notes[w] == Picking ==> c.Pick? && c.sleeper in s.sleepers
    ensures Closer(s, w, NoteStep(s, w, c))
  {
    hide NumSearching, ShouldWake, WakeUpOne;
  }

  /** A step of a wake-up that does not have to wait. */
  lemma {:induction false} NoteChoice(s: State, a: nat) returns (c: Choice)
    requires Inv(s, false) && a < |s.notes| && s.notes[a] != Silent
    ensures c.Go? || c.Pick?
    ensures s.notes[a] == Picking ==> c.Pick? && c.sleeper in s.sleepers
  {
    hide Faithful, Throttled, TokensComing, SomeoneSees, Sensible;
    c := Go;
    if s.notes[a] == Picking {
      assert Holding(s, a);
      var t :| t in s.sleepers;
      c := Pick(t);
    }
  }

  lemma Facts(s: State, w: nat)
    requires Inv(s, false) && w < |s.workers|
    ensures Shaped(s) && Sensible(s.workers[w]) && (s.notes[w] != Silent ==> MayNote(s.workers[w].pc))
    ensures forall a :: 0 <= a < |s.notes| && s.notes[a].Waking? ==> s.notes[a].target < |s.workers|
  {
    hide Faithful, PickIsSafe, Throttled, TokensComing, SomeoneSees, Sensible, MayNote;
  }

  lemma {:induction false} OwnStep(s: State, w: nat) returns (c: Choice)
    requires Inv(s, false) && w < |s.workers| && Sound(s.workers[w]) && Promising(s, w)
    requires s.workers[w].pc != Starting && (NeedsLock(s, w) ==> s.lock == None)
    ensures Quiet(s, w, c) && Closer(s, w, Step(s, w, c))
  {
    hide Inv, Sensible, Sound, Closer, Far, PollStep, ArriveStep, TakeStep, SearchStep, RunStep, LeaveStep, WakeStep,
      NoteStep, NumSearching, MayNote;
    Facts(s, w);
    if s.notes[w] != Silent {
      c := NoteChoice(s, w);
      NoteCloser(s, w, c);
    } else {
      c := if s.workers[w].pc == Waiting then Events(0, true) else Go;
      match PartOf(s.workers[w].pc)
      case Loop => LoopCloser(s, w);
      case Poll => PollCloser(s, w);
      case Arrive =>
        if s.workers[w].pc.Arriving? {
          ArrivingCloser(s, w);
        } else if s.workers[w].pc.Storing? {
          StoringCloser(s, w);
        } else {
          SpillingCloser(s, w);
        }
      case Take =>
        if s.workers[w].pc.TakingLocal? {
          TakingLocalCloser(s, w);
        } else {
          TakingGlobalCloser(s, w);
        }
      case Search =>
        if s.workers[w].pc == Electing || s.workers[w].pc == Joining {
          ElectingCloser(s, w);
        } else {
          StealingCloser(s, w);
        }
      case Perform => RunCloser(s, w);
      case Awaken =>
        if s.workers[w].pc == Waiting || s.workers[w].pc == Woken {
          WaitingCloser(s, w, c);
        } else if s.workers[w].pc == ContainsLock || s.workers[w].pc == ContainsCheck {
          ContainsCloser(s, w);
        } else {
          RejoiningCloser(s, w);
        }
      case Leave =>
    }
  }

  // ----- the lock comes free

  function Grip(s: State, b: nat): nat
    requires b < |s.notes|
  {
    if s.notes[b] != Silent then Stage(s.notes[b])
    else if b >= |s.workers| then 0
    else
      match s.workers[b].pc
      case LeavingCount => 2
      case Entering(_) => 1
      case Rejoining => 2
      case _ => 1
  }

  /** How many steps the holder of the lock still has to take under it. */
  function Held(s: State): nat {
    if s.lock == None || s.lock.value >= |s.notes| then 0 else Grip(s, s.lock.value)
  }

  /** Nothing has changed for worker `w`, and the lock is closer to being free. */
  ghost predicate Freer(s: State, w: nat, s': State)
    requires w < |s.workers| <= |s.notes|
  {
    && Shaped(s') && |s'.workers| == |s.workers| && |s'.notes| == |s.notes|
    && s'.workers[w] == s.workers[w] && s'.notes[w] == s.notes[w] && s'.global == s.global
    && (w in s'.sleepers ==> w in s.sleepers) && Held(s') < Held(s)
  }

  lemma HolderNote(s: State, b: nat, w: nat, c: Choice)
    requires Shaped(s) && w < |s.workers| && b < |s.notes| && b != w && s.lock == Some(b) && NoteLocks(s.notes[b])
    requires s.notes[b] == Picking ==> c.Pick? && c.sleeper in s.sleepers
    ensures Freer(s, w, NoteStep(s, b, c))
  {
    hide ShouldWake, WakeUpOne;
  }

  lemma HolderLeaves(s: State, b: nat, w: nat)
    requires AtLoop(s, b) && w < |s.workers| && b != w && s.lock == Some(b)
    requires s.workers[b].pc == LeavingCount || s.workers[b].pc.Entering?
    ensures Freer(s, w, LeaveStep(s, b, Go))
  {
    hide NumSearching, DecWorking;
  }

  lemma HolderRises(s: State, b: nat, w: nat)
    requires AtLoop(s, b) && w < |s.workers| && b != w && s.lock == Some(b)
    requires s.workers[b].pc == Rejoining || s.workers[b].pc == RejoinCount || s.workers[b].pc == ContainsCheck
    ensures Freer(s, w, WakeStep(s, b, Go))
  {
    hide WakeUpOne;
  }

  lemma HolderIs(s: State, b: nat)
    requires Inv(s, false) && s.lock == Some(b)
    ensures b < |s.notes| && Holding(s, b)
    ensures b < |s.workers| && Locks(s.workers[b].pc) ==> s.notes[b] == Silent
  {
    hide Faithful, PickIsSafe, Throttled, TokensComing, SomeoneSees, Sensible;
    assert b < |s.notes| && Holding(s, b);
  }

  lemma {:induction false} HolderStep(s: State, w: nat) returns (b: nat, c: Choice)
    requires Inv(s, false) && w < |s.workers| && s.lock != None && NeedsLock(s, w)
    ensures Quiet(s, b, c) && Freer(s, w, Step(s, b, c))
  {
    hide Inv, Sensible, Freer, PollStep, ArriveStep, TakeStep, SearchStep, RunStep, LeaveStep, WakeStep, NoteStep;
    b := s.lock.value;
    Facts(s, w);
    HolderIs(s, b);
    if s.notes[b] != Silent {
      c := NoteChoice(s, b);
      HolderNote(s, b, w, c);
    } else {
      c := Go;
      if s.workers[b].pc == LeavingCount || s.workers[b].pc.Entering? {
        HolderLeaves(s, b, w);
      } else {
        HolderRises(s, b, w);
      }
    }
  }

  lemma FreerPromising(s: State, w: nat, s': State)
    requires w < |s.workers| <= |s.notes| && NeedsLock(s, w) && Promising(s, w) && Freer(s, w, s')
    requires s.notes[w] != Silent ==> MayNote(s.workers[w].pc)
    ensures Promising(s', w) && Distance(s', w) == Distance(s, w)
  {
    hide Held, NumSearching;
  }

  // ----- such a worker runs a task

  lemma {:induction false} Drive(s: State, w: nat)
    requires Inv(s, false) && AllSound(s) && Shaped(s) && Promising(s, w)
    ensures ComesToRun(s)
    decreases Distance(s, w), Held(s)
  {
    hide Inv, Sound, Sensible, Step, ComesToRun, Promising, Distance, Held, NeedsLock, Quiet;
    PromisingInside(s, w);
    Facts(s, w);
    if s.workers[w].pc == Starting {
      NotYetNoting(s, w);
      AtStart(s, w);
    } else {
      var a, c := w, Go;
      if NeedsLock(s, w) && s.lock != None {
        a, c := HolderStep(s, w);
        QuietInside(s, a, c);
        FreerPromising(s, w, Step(s, a, c));
      } else {
        c := OwnStep(s, w);
      }
      QuietInside(s, a, c);
      StepKeeps(s, a, c, false);
      StepKeepsBalance(s, a, c);
      Drive(Step(s, a, c), w);
      Before(s, a, c);
    }
  }

  lemma QuietInside(s: State, a: nat, c: Choice)
    requires Quiet(s, a, c)
    ensures Shaped(s) && a < |s.notes|
  {
  }

  lemma PromisingInside(s: State, w: nat)
    requires Promising(s, w)
    ensures w < |s.workers|
  {
  }

  lemma NotYetNoting(s: State, w: nat)
    requires Inv(s, false) && w < |s.workers| && s.workers[w].pc == Starting
    ensures AtLoop(s, w)
  {
    Facts(s, w);
  }

  // ----- nobody is promising: all are on their way to sleep

  /** How far the worker is from its sleep. */
  function Fall(x: Worker, n: nat): nat {
    (if x.token then 6 else 0) +
    match x.pc
    case Waiting => 0
    case ContainsCheck => 1
    case ContainsLock => 2
    case Woken => 3
    case Arriving(_, _) => 4
    case Spilling(_, _, _) => 5
    case Nudging(_) => 7
    case Looking(next) => 13 + if next < n then n - next else 0
    case Entering(_) => 14 + n
    case LeavingCount => 15 + n
    case LeavingLock => 16 + n
    case Leaving => 17 + n
    case Polling(_) => 18 + n
    case Electing => 19 + n
    case TakingLocal(_) => 20 + n
    case _ => 0
  }

  /** A wake-up counts more than the token in which it ends, and less than the look around in which it begins. */
  function Weight(note: Note): nat {
    if note == Silent then 0 else 6 + Stage(note)
  }

  function Falls(workers: seq<Worker>, n: nat): nat {
    if workers == [] then 0 else Falls(workers[..|workers| - 1], n) + Fall(workers[|workers| - 1], n)
  }

  function Weights(notes: seq<Note>): nat {
    if notes == [] then 0 else Weights(notes[..|notes| - 1]) + Weight(notes[|notes| - 1])
  }

  function Unrest(s: State): nat {
    Falls(s.workers, |s.workers|) + Weights(s.notes)
  }

  lemma {:induction false} FallsUpdate(workers: seq<Worker>, n: nat, w: nat, x: Worker)
    requires w < |workers|
    ensures Falls(workers[w := x], n) + Fall(workers[w], n) == Falls(workers, n) + Fall(x, n)
  {
    hide Fall;
    var m := |workers| - 1;
    if w < m {
      FallsUpdate(workers[..m], n, w, x);
      assert workers[w := x][..m] == workers[..m][w := x];
    } else {
      assert workers[w := x][..m] == workers[..m];
    }
  }

  lemma {:induction false} WeightsUpdate(notes: seq<Note>, a: nat, note: Note)
    requires a < |notes|
    ensures Weights(notes[a := note]) + Weight(notes[a]) == Weights(notes) + Weight(note)
  {
    hide Weight;
    var m := |notes| - 1;
    if a < m {
      WeightsUpdate(notes[..m], a, note);
      assert notes[a := note][..m] == notes[..m][a := note];
    } else {
      assert notes[a := note][..m] == notes[..m];
    }
  }

  /** There is work, and nobody is going to run it by just going on. */
  ghost predicate Stalled(s: State) {
    s.global > 0 && forall w :: 0 <= w < |s.workers| ==> !Promising(s, w)
  }

  /** Somebody is promising now, or everybody is closer to sleep. */
  ghost predicate Calmer(s: State, s': State) {
    s'.global > 0 && |s'.workers| == |s.workers|
    && ((exists v :: Promising(s', v)) || Unrest(s') < Unrest(s))
  }

  /** One worker's record and one note change. */
  lemma {:induction false} FallsOne(s: State, s': State, w: nat, x: Worker, note: Note)
    requires w < |s.workers| <= |s.notes| && s'.workers == s.workers[w := x] && s'.notes == s.notes[w := note]
    requires Fall(x, |s.workers|) + Weight(note) < Fall(s.workers[w], |s.workers|) + Weight(s.notes[w])
    ensures Unrest(s') < Unrest(s)
  {
    hide Fall, Weight;
    FallsUpdate(s.workers, |s.workers|, w, x);
    WeightsUpdate(s.notes, w, note);
  }

  lemma {:induction false} NoteFalls(s: State, a: nat, c: Choice)
    requires Shaped(s) && a < |s.notes| && s.notes[a] != Silent && s.global > 0
    requires s.notes[a].Waking? ==> s.notes[a].target < |s.workers|
    requires NeedsLock(s, a) ==> s.lock == None
    requires s.notes[a] == Picking ==> c.Pick? && c.sleeper in s.sleepers
    ensures Calmer(s, NoteStep(s, a, c))
  {
    hide ShouldWake, WakeUpOne, Falls, Weights, Promising;
    var s' := NoteStep(s, a, c);
    WeightsUpdate(s.notes, a, s'.notes[a]);
    if s.notes[a].Waking? {
      var target := s.notes[a].target;
      FallsUpdate(s.workers, |s.workers|, target, s.workers[target].(token := true));
    }
  }

  lemma TakingFalls(s: State, w: nat)
    requires AtLoop(s, w) && s.global > 0 && !Promising(s, w)
    requires PartOf(s.workers[w].pc) == Take || PartOf(s.workers[w].pc) == Search || PartOf(s.workers[w].pc) == Poll
    ensures var s' := if PartOf(s.workers[w].pc) == Take then TakeStep(s, w, Go)
                      else if PartOf(s.workers[w].pc) == Search then SearchStep(s, w, Go)
                      else PollStep(s, w, Go);
      Calmer(s, s')
  {
    hide NumSearching, Falls, Weights;
    var x := s.workers[w];
    var pc := if x.pc.TakingLocal? then Electing else if x.pc == Electing then Polling(true) else Leaving;
    var y := x.(pc := pc, blind := if x.pc == Electing then true else x.blind);
    assert x.pc == TakingLocal(true) || x.pc == Electing || x.pc == Polling(true);
    FallsOne(s, SetWorker(s, w, y), w, y, s.notes[w]);
  }

  lemma LeavingFalls(s: State, w: nat)
    requires AtLoop(s, w) && s.global > 0 && Sensible(s.workers[w]) && (NeedsLock(s, w) ==> s.lock == None)
    requires s.workers[w].pc == Leaving || s.workers[w].pc == LeavingLock || s.workers[w].pc == LeavingCount
      || s.workers[w].pc.Entering?
    ensures Calmer(s, LeaveStep(s, w, Go))
  {
    hide NumSearching, DecWorking, Falls, Weights, Promising;
    var s' := LeaveStep(s, w, Go);
    FallsOne(s, s', w, s'.workers[w], s.notes[w]);
  }

  lemma LookingFalls(s: State, w: nat)
    requires AtLoop(s, w) && s.global > 0 && s.workers[w].pc.Looking?
    ensures Calmer(s, LeaveStep(s, w, Go))
  {
    hide NumSearching, DecWorking, Falls, Weights, Promising;
    var s' := LeaveStep(s, w, Go);
    FallsOne(s, s', w, s'.workers[w], s'.notes[w]);
  }

  lemma NudgingFalls(s: State, w: nat)
    requires AtLoop(s, w) && s.global > 0 && s.workers[w].pc.Nudging?
    ensures Calmer(s, LeaveStep(s, w, Go))
  {
    hide NumSearching, DecWorking, Falls, Weights, Promising;
    var x, target := s.workers[w], s.workers[w].pc.target;
    if target < |s.workers| {
      var y := s.workers[target].(token := true);
      var told := SetWorker(s, target, y);
      FallsUpdate(s.workers, |s.workers|, target, y);
      FallsUpdate(told.workers, |s.workers|, w, told.workers[w].(pc := Waiting));
    } else {
      FallsOne(s, Move(s, w, Waiting), w, x.(pc := Waiting), s.notes[w]);
    }
  }

  lemma AwakeningFalls(s: State, w: nat, c: Choice)
    requires AtLoop(s, w) && s.global > 0 && !Promising(s, w) && (NeedsLock(s, w) ==> s.lock == None)
    requires PartOf(s.workers[w].pc) == Awaken && (s.workers[w].pc == Waiting ==> s.workers[w].token)
    requires c == if s.workers[w].pc == Waiting then Events(0, true) else Go
    ensures Calmer(s, WakeStep(s, w, c))
  {
    hide NumSearching, WakeUpOne, Falls, Weights;
    var s' := WakeStep(s, w, c);
    FallsOne(s, s', w, s'.workers[w], s.notes[w]);
  }

  lemma ArrivingFalls(s: State, w: nat)
    requires AtLoop(s, w) && s.global > 0 && !Promising(s, w) && s.workers[w].kept == 0
    requires s.workers[w].pc.Arriving?
    ensures Calmer(s, ArriveStep(s, w, Go))
  {
    hide NumSearching, Falls, Weights;
    var s' := ArriveStep(s, w, Go);
    FallsOne(s, s', w, s'.workers[w], s.notes[w]);
  }

  lemma SpillingFalls(s: State, w: nat)
    requires AtLoop(s, w) && s.global > 0 && !Promising(s, w) && s.workers[w].kept == 0
    requires PartOf(s.workers[w].pc) == Arrive && !s.workers[w].pc.Arriving?
    ensures Calmer(s, ArriveStep(s, w, Go))
  {
    hide NumSearching, Falls, Weights;
    var s' := ArriveStep(s, w, Go);
    assert s.workers[w].pc.Spilling?;
    if !Promising(s', w) {
      FallsOne(s, s', w, s'.workers[w], s.notes[w]);
    }
  }

  lemma ThiefIsPromising(s: State, w: nat)
    requires Thieves(s) && w < |s.workers| && s.workers[w].kept > 0
    ensures exists a :: Promising(s, a)
  {
    hide NumSearching;
    var a :| 0 <= a < |s.workers| && a != w && s.workers[a].pc.Copying? && s.workers[a].pc.victim == w;
    assert Promising(s, a);
  }

  /** Where nobody is promising, nobody is copying and nothing is claimed. */
  lemma NothingClaimed(s: State, w: nat)
    requires Stalled(s) && Thieves(s) && w < |s.workers|
    ensures s.workers[w].kept == 0 && !Promising(s, w)
  {
    hide NumSearching, Thieves;
    if s.workers[w].kept > 0 {
      ThiefIsPromising(s, w);
    }
  }

  lemma {:induction false} WorkerFalls(s: State, w: nat) returns (c: Choice)
    requires Inv(s, false) && Stalled(s) && Thieves(s) && AtLoop(s, w) && Active(s, w)
    requires NeedsLock(s, w) ==> s.lock == None
    ensures Quiet(s, w, c) && Calmer(s, Step(s, w, c))
  {
    hide Inv, Sensible, Calmer, PollStep, ArriveStep, TakeStep, SearchStep, RunStep, LeaveStep, WakeStep, NoteStep,
      NumSearching, Thieves, NeedsLock;
    Facts(s, w);
    NothingClaimed(s, w);
    c := if s.workers[w].pc == Waiting then Events(0, true) else Go;
    match PartOf(s.workers[w].pc)
    case Take => TakingFalls(s, w);
    case Search => TakingFalls(s, w);
    case Poll => TakingFalls(s, w);
    case Arrive =>
      if s.workers[w].pc.Arriving? {
        ArrivingFalls(s, w);
      } else {
        SpillingFalls(s, w);
      }
    case Leave =>
      if s.workers[w].pc.Looking? {
        LookingFalls(s, w);
      } else if s.workers[w].pc.Nudging? {
        NudgingFalls(s, w);
      } else {
        LeavingFalls(s, w);
      }
    case Awaken => AwakeningFalls(s, w, c);
    case Loop =>
    case Perform =>
  }

  /** Some thread goes on, and after that somebody is promising or all are closer to sleep. */
  lemma {:induction false} CalmStep(s: State) returns (a: nat, c: Choice)
    requires Inv(s, true) && Shaped(s) && Stalled(s) && Thieves(s)
    ensures Quiet(s, a, c) && Calmer(s, Step(s, a, c))
  {
    hide Inv, Stalled, Thieves, Calmer, NoteStep, WorkerStep, Quiet, NoWork, Resting;
    Loosely(s);
    NotResting(s);
    a := SomeoneActive(s);
    if NeedsLock(s, a) && s.lock != None {
      a := s.lock.value;
      HolderIs(s, a);
    }
    if s.notes[a] != Silent {
      c := NoteChoice(s, a);
      Facts(s, 0);
      WorkLeft(s);
      NoteFalls(s, a, c);
      NoteIsQuiet(s, a, c);
    } else {
      c := WorkerFalls(s, a);
    }
  }

  lemma Loosely(s: State)
    requires Inv(s, true)
    ensures Inv(s, false)
  {
    hide Orderly, Faithful, PickIsSafe, Throttled, TokensComing, SomeoneSees, Watched;
  }

  lemma NoteIsQuiet(s: State, a: nat, c: Choice)
    requires Shaped(s) && a < |s.notes| && (c.Go? || c.Pick?)
    ensures Quiet(s, a, c)
  {
  }

  lemma WorkLeft(s: State)
    requires Stalled(s)
    ensures s.global > 0
  {
  }

  lemma NotResting(s: State)
    requires Inv(s, true) && Stalled(s)
    ensures !Resting(s)
  {
    hide Inv, Promising;
    if Resting(s) {
      RestingHasNoWork(s, true);
    }
  }

  /** While the work is watched, no push is late. */
  lemma WatchedIsNotLate(s: State, a: nat)
    requires Inv(s, true) && s.global > 0
    ensures !LateSpill(s, a)
  {
    hide Inv, OthersWatch;
    if LateSpill(s, a) {
      OthersWatchToo(s, a);
    }
  }

  /** A listed sleeper with an empty ring is not the one who watches. */
  lemma OthersWatchToo(s: State, w: nat)
    requires Inv(s, true) && s.global > 0 && AtLoop(s, w) && w in s.sleepers
    requires Pushing(s.workers[w].pc) && s.workers[w].pc.src == InSleep && s.workers[w].ring == 0
    ensures OthersWatch(s, w)
  {
    hide Faithful, PickIsSafe, Throttled, TokensComing, SomeoneSees;
    assert Sensible(s.workers[w]);
    assert !Helpful(s, w);
  }

  /** As long as the global queue is not empty and watched, the threads come to run a task. */
  lemma {:induction false} WatchedRuns(s: State)
    requires Inv(s, true) && Shaped(s) && AllSound(s) && Thieves(s) && s.global > 0
    ensures ComesToRun(s)
    decreases Unrest(s)
  {
    hide Inv, AllSound, Thieves, Step, Quiet, Promising, Unrest, ComesToRun, LateSpill;
    if w :| Promising(s, w) {
      Loosely(s);
      Drive(s, w);
    } else {
      var a, c := CalmStep(s);
      QuietInside(s, a, c);
      var s' := Step(s, a, c);
      WatchedIsNotLate(s, a);
      StepKeeps(s, a, c, true);
      StepKeepsBalance(s, a, c);
      StepKeepsThieves(s, a, c);
      StillShaped(s');
      if v :| Promising(s', v) {
        Loosely(s');
        Drive(s', v);
      } else {
        WatchedRuns(s');
      }
      Before(s, a, c);
    }
  }

  lemma StillShaped(s: State)
    requires Inv(s, true)
    ensures Shaped(s)
  {
  }

  // ----- the theorem

  /** A worker that holds a task is promising, or is about to spill and has nothing else. */
  lemma {:induction false} HolderPromises(s: State, w: nat)
    requires Inv(s, false) && AllSound(s) && Thieves(s) && w < |s.workers| && Holds(s.workers[w]) > 0
    ensures (exists v :: Promising(s, v))
         || (AtLoop(s, w) && s.workers[w].pc.Spilling? && s.workers[w].kept == 0 && !s.workers[w].HasTask())
  {
    hide Inv, NumSearching;
    Facts(s, w);
    if s.workers[w].kept > 0 {
      ThiefIsPromising(s, w);
    } else if !s.workers[w].pc.Spilling? {
      assert Promising(s, w);
    } else if s.workers[w].HasTask() {
      assert Promising(s, w);
    }
  }

  /** The spill of a worker that has nothing else fills the global queue. */
  lemma SpillFills(s: State, w: nat)
    requires AtLoop(s, w) && s.workers[w].pc.Spilling? && Sound(s.workers[w])
    ensures Step(s, w, Go).global > 0
  {
    hide Sound;
    StepArrive(s, w);
    SpillsSomething(s.workers[w]);
  }

  lemma SpillsSomething(x: Worker)
    requires Sound(x) && x.pc.Spilling?
    ensures x.pc.amount > 0
  {
  }

  /** A task is somewhere: in the global queue, or with a worker. */
  lemma {:induction false} SomewhereHeld(s: State) returns (w: nat)
    requires Total(s) > 0 && s.global == 0
    ensures w < |s.workers| && Holds(s.workers[w]) > 0
  {
    hide Holds;
    if forall v :: 0 <= v < |s.workers| ==> Holds(s.workers[v]) == 0 {
      NobodyHolds(s.workers);
    }
    w :| 0 <= w < |s.workers| && Holds(s.workers[w]) > 0;
  }

  lemma {:induction false} HeldRuns(s: State, w: nat)
    requires Inv(s, true) && Shaped(s) && AllSound(s) && Thieves(s) && !LateSpill(s, w)
    requires w < |s.workers| && Holds(s.workers[w]) > 0
    ensures ComesToRun(s)
  {
    hide Inv, Step, Quiet, Promising, ComesToRun, LateSpill, Thieves, Holds, Sound;
    Loosely(s);
    HolderPromises(s, w);
    if v :| Promising(s, v) {
      Drive(s, v);
    } else {
      assert Sound(s.workers[w]);
      var s' := Step(s, w, Go);
      StepKeeps(s, w, Go, true);
      StepKeepsBalance(s, w, Go);
      StepKeepsThieves(s, w, Go);
      StillShaped(s');
      SpillFills(s, w);
      WatchedRuns(s');
      NoteIsQuiet(s, w, Go);
      Before(s, w, Go);
    }
  }

  lemma {:induction false} RunThieves(states: seq<State>, moves: seq<Event>, i: nat)
    requires Run(states, moves) && i < |states|
    ensures Thieves(states[i])
    decreases i
  {
    hide Step, Thieves;
    if i == 0 {
      NoThievesAtFirst(states[0]);
    } else {
      RunThieves(states, moves, i - 1);
      StepKeepsThieves(states[i - 1], moves[i - 1].a, moves[i - 1].c);
    }
  }

  lemma NoThievesAtFirst(s: State)
    requires Initial(s)
    ensures Thieves(s)
  {
    hide Packed;
  }

  /** In every run without a late push, whenever a task is anywhere and none is just about to be pushed too late, the
      threads can come by their own steps, without anything new from outside, to run a task. */
  lemma {:induction false} WorkGetsRun(states: seq<State>, moves: seq<Event>, i: nat)
    requires Run(states, moves) && NoLateSpills(states, moves) && i < |states|
    requires Total(states[i]) > 0 && forall w :: 0 <= w < |states[i].workers| ==> !LateSpill(states[i], w)
    ensures ComesToRun(states[i])
  {
    hide Run, NoLateSpills, Inv, LateSpill, Thieves, AllSound, ComesToRun, Total;
    RunInv(states, moves, i, true);
    NothingLost(states, moves, i);
    RunThieves(states, moves, i);
    StillShaped(states[i]);
    if states[i].global > 0 {
      WatchedRuns(states[i]);
    } else {
      var w := SomewhereHeld(states[i]);
      HeldRuns(states[i], w);
    }
  }
}

/** How workers fall asleep, search for work and are woken: the run loop of N
    workers and any number of outside threads that submit tasks, in any
    interleaving.

    The word that counts working and searching workers is read and updated in
    single atomic steps; the set of sleepers is only touched by the holder of the
    lock.  Tasks are only counted.  A worker keeps one task aside (`lifo`) and
    `ring` in its ring of 256 slots, of which `kept` more are not free because a
    thief is copying; `global` is the length of the global queue.  Every arrival
    is pushed by itself, and looking at the ring and pushing to the global queue
    are steps of their own.  A wake-up is a token that stays until the sleeper
    consumes it. */
module Sleeping {
  import opened IdleWord
  import opened Wheel
  import Ring

  /** Where a thread is in `wake_up_one`: ask without the lock, lock, ask again,
      count one more worker, pick a sleeper, and wake it after unlocking. */
  datatype Note = Silent | Asking | Locking | Confirming | Counting | Picking | Waking(target: nat)

  /** Where arriving tasks come from: the poll for maintenance, the one before sleeping, the one
      in which the worker sleeps, or the worker's running task. */
  datatype Source = Upkeep | LastPoll | InSleep | Spawn

  /** Where a worker is in its run loop. */
  datatype Pc =
    | Top
    | Polling(last: bool)       // `last` tells the poll before sleeping from the one for maintenance
    | Telling(last: bool)       // events came in: should others be notified?
    // push_back_or_overflow, for each of `todo` tasks
    | Arriving(src: Source, todo: nat)
    | Storing(src: Source, todo: nat)
    | Halving(src: Source, todo: nat)
    | Spilling(src: Source, todo: nat, amount: nat)
    | NextTask
    | TakingLocal(interval: bool)
    | TakingGlobal(interval: bool)
    | Batching(rest: nat)       // a batch is taken from the global queue and not yet in the ring
    | Electing                  // read the number of searchers
    | Joining                   // become a searcher
    | Scanning                  // try to steal
    | Copying(victim: nat, n: nat)
    | Publishing(rest: nat)     // the claim is released, the tasks are not yet in the ring
    | ScanningGlobal
    | Starting                  // a task is found; stop searching
    | Running
    // falling asleep
    | Leaving
    | LeavingLock
    | LeavingCount
    | Entering(wasLast: bool)
    | Looking(next: nat)        // the last searcher looks at every queue again
    | Nudging(target: nat)
    // asleep
    | Waiting
    | Woken
    | RejoinLock
    | Rejoining
    | RejoinCount
    | ContainsLock
    | ContainsCheck

  /** `blind` records that the worker was refused the searching role since it was last at the top of its loop. */
  datatype Worker = Worker(pc: Pc, searching: bool, blind: bool, lifo: bool, ring: nat, kept: nat, token: bool) {
    predicate HasTask() {
      lifo || ring > 0
    }

    /** The slots that are not free: from `steal` to the tail. */
    function Used(): nat {
      ring + kept
    }
  }

  /** Thread `a` is a worker if `a < |workers|`, otherwise an outside thread; `notes` has an entry for each. */
  datatype State = State(word: nat, sleepers: set<nat>, lock: Option<nat>, global: nat,
                         workers: seq<Worker>, notes: seq<Note>)

  datatype Choice =
    | Go
    | Maintain
    | Interval
    | Spurious
    | Events(count: nat, consumed: bool)   // a poll with completions, `count` of which make a task runnable
    | Amount(n: nat)
    | Steal(victim: nat, n: nat)
    | SpawnLocal
    | SpawnRemote(count: nat)
    | Pick(sleeper: nat)

  predicate Shaped(s: State) {
    1 <= |s.workers| <= |s.notes| && |s.workers| < UNIT
  }

  // ----- wake_up_one

  predicate ShouldWake(s: State) {
    NumSearching(s.word) == 0 && NumWorking(s.word) < |s.workers|
  }

  function SetNote(s: State, a: nat, note: Note): State
    requires a < |s.notes|
  {
    s.(notes := s.notes[a := note])
  }

  function SetWorker(s: State, w: nat, x: Worker): State
    requires w < |s.workers|
  {
    s.(workers := s.workers[w := x])
  }

  /** A step that has to wait, for the lock or for a choice that is possible, leaves the state as it is. */
  function NoteStep(s: State, a: nat, c: Choice): State
    requires Shaped(s) && a < |s.notes|
  {
    match s.notes[a]
    case Silent => s
    case Asking => SetNote(s, a, if ShouldWake(s) then Locking else Silent)
    case Locking => if s.lock == None then SetNote(s.(lock := Some(a)), a, Confirming) else s
    case Confirming =>
      if ShouldWake(s) then SetNote(s, a, Counting) else SetNote(s.(lock := None), a, Silent)
    case Counting => SetNote(s.(word := WakeUpOne(s.word, 1)), a, Picking)
    case Picking =>
      if c.Pick? && c.sleeper in s.sleepers then
        SetNote(s.(sleepers := s.sleepers - {c.sleeper}, lock := None), a, Waking(c.sleeper))
      else s
    case Waking(target) =>
      if target < |s.workers| then
        SetNote(SetWorker(s, target, s.workers[target].(token := true)), a, Silent)
      else s
  }

  // ----- the loop while awake

  function Move(s: State, w: nat, pc: Pc): State
    requires w < |s.workers|
  {
    SetWorker(s, w, s.workers[w].(pc := pc))
  }

  function PollStep(s: State, w: nat, c: Choice): State
    requires Shaped(s) && w < |s.workers|
  {
    var x := s.workers[w];
    match x.pc
    case Polling(last) =>
      if c.Events? then
        SetWorker(s, w, x.(pc := Arriving(if last then LastPoll else Upkeep, c.count), blind := false,
                           token := x.token && !c.consumed))
      else Move(s, w, if last then Leaving else NextTask)
    case Telling(last) =>
      var s' := Move(s, w, if last then Top else NextTask);
      if !x.searching && x.ring > 1 then SetNote(s', w, Asking) else s'
    case _ => s
  }

  /** Where the worker goes on when everything has arrived. */
  function Onward(src: Source): Pc {
    match src
    case Upkeep => Telling(false)
    case LastPoll => Telling(true)
    case InSleep => Woken
    case Spawn => Running
  }

  /** One more is pushed. */
  function Less(src: Source, todo: nat): Pc {
    Arriving(src, if todo > 0 then todo - 1 else 0)
  }

  function ArriveStep(s: State, w: nat, c: Choice): State
    requires Shaped(s) && w < |s.workers|
  {
    var x := s.workers[w];
    match x.pc
    case Arriving(src, todo) =>
      if todo == 0 then
        var s' := Move(s, w, Onward(src));
        if src == Spawn then SetNote(s', w, Asking) else s'
      else if x.Used() < Ring.CAPACITY then Move(s, w, Storing(src, todo))
      else if x.kept > 0 then Move(s, w, Spilling(src, todo, 1))
      else Move(s, w, Halving(src, todo))
    case Storing(src, todo) => SetWorker(s, w, x.(pc := Less(src, todo), ring := x.ring + 1))
    case Halving(src, todo) =>
      if c != Spurious && x.ring == Ring.CAPACITY && x.kept == 0 then
        SetWorker(s, w, x.(pc := Spilling(src, todo, Ring.CAPACITY / 2 + 1), ring := Ring.CAPACITY / 2))
      else Move(s, w, Arriving(src, todo))
    case Spilling(src, todo, amount) => Move(s, w, Less(src, todo)).(global := s.global + amount)
    case _ => s
  }

  /** The owner takes a task from its ring; the slot stays in use while a thief is copying. */
  function Popped(x: Worker): Worker {
    if x.ring == 0 then x else x.(ring := x.ring - 1, kept := if x.kept > 0 then x.kept + 1 else 0)
  }

  function TakeStep(s: State, w: nat, c: Choice): State
    requires Shaped(s) && w < |s.workers|
  {
    var x := s.workers[w];
    match x.pc
    case TakingLocal(interval) =>
      if x.lifo then SetWorker(s, w, x.(pc := Starting, lifo := false))
      else if x.ring > 0 then SetWorker(s, w, Popped(x).(pc := Starting))
      else Move(s, w, if interval then Electing else TakingGlobal(false))
    case TakingGlobal(interval) =>
      if s.global == 0 then Move(s, w, if interval then TakingLocal(true) else Electing)
      else
        // one task at the interval or without room, otherwise a batch whose first task is run
        var n := if !interval && c.Amount? && 0 < c.n <= s.global && c.n <= Ring.CAPACITY / 2
                    && x.Used() + c.n <= Ring.CAPACITY then c.n else 1;
        Move(s, w, Batching(n - 1)).(global := s.global - n)
    case Batching(rest) => SetWorker(s, w, x.(pc := Starting, ring := x.ring + rest))
    case ScanningGlobal =>
      if s.global == 0 then Move(s, w, Polling(true))
      else Move(s, w, Starting).(global := s.global - 1)
    case _ => s
  }

  /** A thief may claim the larger half of a ring that nobody else is copying from, or less if it
      saw an older tail, unless its own ring is more than half full. */
  predicate MayClaim(x: Worker, v: Worker, n: nat) {
    x.Used() <= Ring.CAPACITY / 2 && v.kept == 0 && 0 < n <= v.ring - v.ring / 2
  }

  function SearchStep(s: State, w: nat, c: Choice): State
    requires Shaped(s) && w < |s.workers|
  {
    var x := s.workers[w];
    match x.pc
    case Electing =>
      if x.searching then Move(s, w, Scanning)
      else if 2 * NumSearching(s.word) >= |s.workers| then SetWorker(s, w, x.(pc := Polling(true), blind := true))
      else Move(s, w, Joining)
    case Joining =>
      SetWorker(s, w, x.(pc := Scanning, searching := true)).(word := IncSearching(s.word))
    case Scanning =>
      if c.Steal? && c.victim < |s.workers| && c.victim != w && MayClaim(x, s.workers[c.victim], c.n) then
        var v := s.workers[c.victim];
        SetWorker(SetWorker(s, c.victim, v.(ring := v.ring - c.n, kept := c.n)), w, x.(pc := Copying(c.victim, c.n)))
      else Move(s, w, ScanningGlobal)
    case Copying(victim, n) =>
      var s' := if victim < |s.workers| && victim != w then SetWorker(s, victim, s.workers[victim].(kept := 0)) else s;
      SetWorker(s', w, x.(pc := Publishing(if n > 0 then n - 1 else 0)))
    case Publishing(rest) => SetWorker(s, w, x.(pc := Starting, ring := x.ring + rest))
    case _ => s
  }

  function RunStep(s: State, w: nat, c: Choice): State
    requires Shaped(s) && w < |s.workers|
  {
    var x := s.workers[w];
    match x.pc
    case Starting =>
      if !x.searching then Move(s, w, Running)
      else
        var s' := SetWorker(s, w, x.(pc := Running, searching := false)).(word := DecSearching(s.word));
        if NumSearching(s.word) == 1 then SetNote(s', w, Asking) else s'
    case Running =>
      if c.SpawnRemote? then
        SetNote(s.(global := s.global + c.count), w, Asking)
      else if c.SpawnLocal? && !x.lifo then SetWorker(s, w, x.(lifo := true))
      else if c.SpawnLocal? then Move(s, w, Arriving(Spawn, 1))
      else Move(s, w, Top)
    case _ => s
  }

  // ----- falling asleep

  function LeaveStep(s: State, w: nat, c: Choice): State
    requires Shaped(s) && w < |s.workers|
  {
    var x := s.workers[w];
    match x.pc
    case Leaving =>
      if x.HasTask() then SetWorker(s, w, x.(pc := Top, blind := false)) else Move(s, w, LeavingLock)
    case LeavingLock => if s.lock == None then Move(s, w, LeavingCount).(lock := Some(w)) else s
    case LeavingCount =>
      var wasLast := x.searching && NumSearching(s.word) == 1;
      SetWorker(s, w, x.(pc := Entering(wasLast), searching := false, blind := false))
      .(word := DecWorking(s.word, x.searching))
    case Entering(wasLast) =>
      Move(s, w, if wasLast then Looking(0) else Waiting).(sleepers := s.sleepers + {w}, lock := None)
    case Looking(next) =>
      if next < |s.workers| then
        Move(s, w, if s.workers[next].ring > 0 then Nudging(next) else Looking(next + 1))
      else if s.global > 0 then SetNote(Move(s, w, Waiting), w, Asking)
      else Move(s, w, Waiting)
    case Nudging(target) =>
      var s' := if target < |s.workers| then SetWorker(s, target, s.workers[target].(token := true)) else s;
      Move(s', w, Waiting)
    case _ => s
  }

  // ----- waking up

  function WakeStep(s: State, w: nat, c: Choice): State
    requires Shaped(s) && w < |s.workers|
  {
    var x := s.workers[w];
    match x.pc
    case Waiting =>
      if c.Events? then
        SetWorker(s, w, x.(pc := Arriving(InSleep, c.count), token := x.token && !c.consumed))
      else s
    case Woken => Move(s, w, if x.HasTask() then RejoinLock else ContainsLock)
    case RejoinLock => if s.lock == None then Move(s, w, Rejoining).(lock := Some(w)) else s
    case Rejoining =>
      if w in s.sleepers then Move(s, w, RejoinCount).(sleepers := s.sleepers - {w})
      else SetWorker(s, w, x.(pc := Top, searching := true)).(lock := None)
    case RejoinCount => Move(s, w, Top).(word := WakeUpOne(s.word, 0), lock := None)
    case ContainsLock => if s.lock == None then Move(s, w, ContainsCheck).(lock := Some(w)) else s
    case ContainsCheck =>
      (if w in s.sleepers then Move(s, w, Waiting) else SetWorker(s, w, x.(pc := Top, searching := true)))
      .(lock := None)
    case _ => s
  }

  // ----- all steps

  datatype Part = Loop | Poll | Arrive | Take | Search | Perform | Leave | Awaken

  function PartOf(pc: Pc): Part {
    match pc
    case Top => Loop
    case NextTask => Loop
    case Polling(_) => Poll
    case Telling(_) => Poll
    case Arriving(_, _) => Arrive
    case Storing(_, _) => Arrive
    case Halving(_, _) => Arrive
    case Spilling(_, _, _) => Arrive
    case TakingLocal(_) => Take
    case TakingGlobal(_) => Take
    case Batching(_) => Take
    case ScanningGlobal => Take
    case Electing => Search
    case Joining => Search
    case Scanning => Search
    case Copying(_, _) => Search
    case Publishing(_) => Search
    case Starting => Perform
    case Running => Perform
    case Leaving => Leave
    case LeavingLock => Leave
    case LeavingCount => Leave
    case Entering(_) => Leave
    case Looking(_) => Leave
    case Nudging(_) => Leave
    case _ => Awaken
  }

  function WorkerStep(s: State, w: nat, c: Choice): State
    requires Shaped(s) && w < |s.workers|
  {
    match PartOf(s.workers[w].pc)
    case Loop =>
      if s.workers[w].pc == Top then Move(s, w, if c == Maintain then Polling(false) else NextTask)
      else Move(s, w, if c == Interval then TakingGlobal(true) else TakingLocal(false))
    case Poll => PollStep(s, w, c)
    case Arrive => ArriveStep(s, w, c)
    case Take => TakeStep(s, w, c)
    case Search => SearchStep(s, w, c)
    case Perform => RunStep(s, w, c)
    case Leave => LeaveStep(s, w, c)
    case Awaken => WakeStep(s, w, c)
  }

  /** One step of thread `a`: on with its wake-up if it is in one, else on with its loop;
      an outside thread submits tasks and then starts a wake-up. */
  function Step(s: State, a: nat, c: Choice): State
    requires Shaped(s) && a < |s.notes|
  {
    if s.notes[a] != Silent then NoteStep(s, a, c)
    else if a < |s.workers| then WorkerStep(s, a, c)
    else if c.SpawnRemote? then SetNote(s.(global := s.global + c.count), a, Asking)
    else s
  }

  /** All workers running, nothing searching, nothing asleep. */
  predicate Initial(s: State) {
    && Shaped(s)
    && s.word == Packed(|s.workers|, 0) && s.sleepers == {} && s.lock == None
    && (forall w :: 0 <= w < |s.workers| ==> s.workers[w] == Worker(Top, false, false, false, 0, 0, false))
    && (forall a :: 0 <= a < |s.notes| ==> s.notes[a] == Silent)
  }
}

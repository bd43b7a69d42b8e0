/** The asynchronous mutex: lockers push themselves on a lock-free stack, and the
    holder that unlocks turns the stack into a list in arrival order and hands
    the lock to its first member.

    Any number of tasks lock and unlock, in any interleaving of their atomic
    accesses; a weak compare-exchange may fail spuriously.  Links between waiting
    tasks are pointers in memory, and the reversal is done in place. */
module Locking {
  import opened Wheel

  /** A pointer: null, which as the mutex word means locked; the mutex itself, which
      means unlocked; or the awaiter of a task. */
  datatype Ptr = Null | Self | At(task: nat)

  /** Where a task is in `lock` or `unlock`, with its registers. */
  datatype Pc =
    | Outside
    | Trying(seen: Ptr)
    | Linking(seen: Ptr)
    | Parked
    | Holding
    // unlock
    | Loading
    | Freeing
    | Taking
    | Reversing(lifo: Ptr)
    | Handing

  /** `stack`, `line`, `detached`, `holder`, `arrivals` and `grants` record what happened; no step depends on them.
      `arrivals` are the tasks that ever parked and `grants` those that were handed the lock, in order. */
  datatype State = State(word: Ptr, fifo: Ptr, next: seq<Ptr>, tasks: seq<Pc>,
                         stack: seq<nat>, line: seq<nat>, detached: seq<nat>, holder: Option<nat>,
                         arrivals: seq<nat>, grants: seq<nat>)

  predicate Shaped(s: State) {
    |s.next| == |s.tasks|
  }

  function Go(s: State, t: nat, pc: Pc): State
    requires t < |s.tasks|
  {
    s.(tasks := s.tasks[t := pc])
  }

  function First(l: seq<nat>): nat {
    if l == [] then 0 else l[0]
  }

  function Rest(l: seq<nat>): seq<nat> {
    if l == [] then [] else l[1..]
  }

  /** A task asks for the lock. */
  function LockStep(s: State, t: nat, spurious: bool): State
    requires Shaped(s) && t < |s.tasks|
  {
    match s.tasks[t]
    case Outside => Go(s, t, Trying(s.word))
    case Trying(seen) =>
      if seen == Self then
        (if s.word == seen && !spurious then Go(s, t, Holding).(word := Null, holder := Some(t))
         else Go(s, t, Trying(s.word)))
      else Go(s, t, Linking(seen)).(next := s.next[t := seen])
    case Linking(seen) =>
      if s.word == seen && !spurious then
        Go(s, t, Parked).(word := At(t), stack := [t] + s.stack, arrivals := s.arrivals + [t])
      else Go(s, t, Trying(s.word))
    case _ => s
  }

  /** The holder gives the lock up.  A step that would follow a null pointer leaves the state as it is. */
  function UnlockStep(s: State, t: nat): State
    requires Shaped(s) && t < |s.tasks|
  {
    match s.tasks[t]
    case Holding => Go(s, t, if s.fifo == Null then Loading else Handing)
    case Loading => Go(s, t, if s.word == Null then Freeing else Taking)
    case Freeing =>
      if s.word == Null then Go(s, t, Outside).(word := Self, holder := None) else Go(s, t, Taking)
    case Taking => Go(s, t, Reversing(s.word)).(word := Null, stack := [], detached := s.stack)
    case Reversing(lifo) =>
      if lifo.At? && lifo.task < |s.next| then
        var rest := s.next[lifo.task];
        Go(s, t, if rest == Null then Handing else Reversing(rest))
        .(fifo := lifo, next := s.next[lifo.task := s.fifo],
          line := [lifo.task] + s.line, detached := Rest(s.detached))
      else s
    case Handing =>
      if s.fifo.At? && s.fifo.task < |s.tasks| then
        Go(Go(s, t, Outside), s.fifo.task, Holding)
        .(fifo := s.next[s.fifo.task], line := Rest(s.line), holder := Some(s.fifo.task),
          grants := s.grants + [s.fifo.task])
      else s
    case _ => s
  }

  /** The places between getting the lock and having given it up. */
  predicate Owns(pc: Pc) {
    match pc
    case Outside => false
    case Trying(_) => false
    case Linking(_) => false
    case Parked => false
    case _ => true
  }

  function Step(s: State, t: nat, spurious: bool): State
    requires Shaped(s) && t < |s.tasks|
  {
    if Owns(s.tasks[t]) then UnlockStep(s, t) else LockStep(s, t, spurious)
  }

  predicate Initial(s: State) {
    && Shaped(s) && s.word == Self && s.fifo == Null
    && (forall t :: 0 <= t < |s.tasks| ==> s.tasks[t] == Outside)
    && s.stack == s.line == s.detached == s.arrivals == s.grants == [] && s.holder == None
  }

  // ----- the simple lock it refines: a holder, and a queue in order of arrival

  datatype Lock = Lock(holder: Option<nat>, queue: seq<nat>)

  predicate Acquires(a: Lock, b: Lock, t: nat) {
    a.holder == None && a.queue == [] && b == Lock(Some(t), [])
  }

  predicate Enqueues(a: Lock, b: Lock, t: nat) {
    a.holder != None && b == Lock(a.holder, a.queue + [t])
  }

  predicate Releases(a: Lock, b: Lock, t: nat) {
    a.holder == Some(t) && a.queue == [] && b == Lock(None, [])
  }

  predicate HandsOver(a: Lock, b: Lock, t: nat) {
    a.holder == Some(t) && a.queue != [] && b == Lock(Some(a.queue[0]), a.queue[1..])
  }

  function Reverse(l: seq<nat>): (r: seq<nat>)
    ensures |r| == |l|
  {
    if l == [] then [] else Reverse(l[1..]) + [l[0]]
  }

  /** The waiting tasks in the order in which they will get the lock. */
  function Queue(s: State): seq<nat> {
    Reverse(s.detached) + s.line + Reverse(s.stack)
  }

  function Abstract(s: State): Lock {
    Lock(s.holder, Queue(s))
  }

  // ----- the invariant

  /** The pointer to the member of a list with index `k`, null past the end. */
  function Member(l: seq<nat>, k: nat): Ptr {
    if k < |l| then At(l[k]) else Null
  }

  /** Starting at `p`, the pointers lead through the list. */
  predicate Linked(next: seq<Ptr>, p: Ptr, l: seq<nat>) {
    && p == Member(l, 0)
    && forall k :: 0 <= k < |l| ==> l[k] < |next| && next[l[k]] == Member(l, k + 1)
  }

  predicate NoDuplicates(l: seq<nat>) {
    forall j, k :: 0 <= j < k < |l| ==> l[j] != l[k]
  }

  ghost predicate HolderInv(s: State) {
    && (s.word == Self <==> s.holder == None)
    && (forall t :: 0 <= t < |s.tasks| ==> (Owns(s.tasks[t]) <==> s.holder == Some(t)))
    && (s.holder != None ==> s.holder.value < |s.tasks|)
    && (s.holder == None ==> s.stack == s.line == s.detached == [])
  }

  /** Memory holds the lists. */
  ghost predicate ListsInv(s: State) {
    && (s.word != Self ==> Linked(s.next, s.word, s.stack))
    && Linked(s.next, s.fifo, s.line)
    && (forall t :: 0 <= t < |s.tasks| && s.tasks[t].Linking? ==> t < |s.next| && s.next[t] == s.tasks[t].seen != Self)
  }

  /** What the holder knows at each place. */
  ghost predicate PlaceInv(s: State) {
    s.holder != None && s.holder.value < |s.tasks| ==>
      var pc := s.tasks[s.holder.value];
      && (if pc.Reversing? then s.detached != [] && Linked(s.next, pc.lifo, s.detached) else s.detached == [])
      && (pc == Loading || pc == Freeing || pc == Taking ==> s.line == [])
      && (pc == Taking ==> s.stack != [])
      && (pc == Handing ==> s.line != [])
  }

  ghost predicate ParkedInv(s: State) {
    && NoDuplicates(Queue(s))
    && forall t: nat :: t in Queue(s) <==> t < |s.tasks| && s.tasks[t] == Parked
  }

  ghost predicate Inv(s: State) {
    && Shaped(s)
    && HolderInv(s)
    && ListsInv(s)
    && PlaceInv(s)
    && ParkedInv(s)
    && s.arrivals == s.grants + Queue(s)
  }

  // ----- lists

  lemma {:induction false} ReverseHas(l: seq<nat>, x: nat)
    ensures x in Reverse(l) <==> x in l
  {
    if l != [] {
      ReverseHas(l[1..], x);
    }
  }

  lemma QueueHas(s: State, x: nat)
    ensures x in Queue(s) <==> x in s.detached || x in s.line || x in s.stack
  {
    ReverseHas(s.detached, x);
    ReverseHas(s.stack, x);
  }

  lemma ReverseFirst(x: nat, l: seq<nat>)
    ensures Reverse([x] + l) == Reverse(l) + [x]
  {
    assert ([x] + l)[1..] == l;
  }

  /** Writing the link of a task that is not in the list changes nothing. */
  lemma LinkedElsewhere(next: seq<Ptr>, p: Ptr, l: seq<nat>, x: nat, q: Ptr)
    requires Linked(next, p, l) && x < |next| && x !in l
    ensures Linked(next[x := q], p, l)
  {
  }

  lemma LinkedFirst(next: seq<Ptr>, p: Ptr, l: seq<nat>, x: nat)
    requires Linked(next, p, l) && x < |next| && next[x] == p
    ensures Linked(next, At(x), [x] + l)
  {
    var m := [x] + l;
    forall k | 0 <= k < |m|
      ensures m[k] < |next| && next[m[k]] == Member(m, k + 1)
    {
      if k > 0 {
        assert m[k] == l[k - 1] && next[l[k - 1]] == Member(l, k);
      }
    }
  }

  lemma LinkedRest(next: seq<Ptr>, p: Ptr, l: seq<nat>)
    requires Linked(next, p, l) && l != []
    ensures p == At(l[0]) && l[0] < |next| && Linked(next, next[l[0]], l[1..])
  {
    var m := l[1..];
    assert next[l[0]] == Member(l, 1);
    forall k | 0 <= k < |m|
      ensures m[k] < |next| && next[m[k]] == Member(m, k + 1)
    {
      assert m[k] == l[k + 1] && next[l[k + 1]] == Member(l, k + 2);
    }
  }

  // ----- lock

  /** A task outside the queue moves on: nothing else changes. */
  lemma {:induction false} GoKeeps(s: State, t: nat, pc: Pc)
    requires Inv(s) && t < |s.tasks|
    requires Owns(pc) == Owns(s.tasks[t]) && pc != Parked && s.tasks[t] != Parked
    requires pc.Linking? ==> s.next[t] == pc.seen != Self
    requires s.holder == Some(t) ==> PlaceInv(Go(s, t, pc))
    ensures Inv(Go(s, t, pc))
  {
    hide Linked, Reverse;
  }

  /** The private write of the link before the compare-exchange. */
  lemma {:induction false} TryingKeeps(s: State, t: nat, seen: Ptr)
    requires Inv(s) && t < |s.tasks| && s.tasks[t] == Trying(seen) && seen != Self
    ensures Inv(Go(s, t, Linking(seen)).(next := s.next[t := seen]))
  {
    hide Reverse, Linked, NoDuplicates;
    QueueHas(s, t);
    var s' := Go(s, t, Linking(seen)).(next := s.next[t := seen]);
    if s.word != Self {
      LinkedElsewhere(s.next, s.word, s.stack, t, seen);
    }
    LinkedElsewhere(s.next, s.fifo, s.line, t, seen);
    if s.holder != None && s.tasks[s.holder.value].Reversing? {
      LinkedElsewhere(s.next, s.tasks[s.holder.value].lifo, s.detached, t, seen);
    }
  }

  /** Getting a free lock. */
  lemma {:induction false} AcquireKeeps(s: State, t: nat)
    requires Inv(s) && t < |s.tasks| && s.tasks[t] == Trying(Self) && s.word == Self
    ensures var s' := Step(s, t, false);
      Inv(s') && Acquires(Abstract(s), Abstract(s'), t) && s'.tasks == s.tasks[t := Holding]
  {
    assert Queue(s) == [];
  }

  lemma NoDuplicatesLast(l: seq<nat>, x: nat)
    requires NoDuplicates(l) && x !in l
    ensures NoDuplicates(l + [x])
  {
  }

  /** Parking behind the others. */
  lemma {:induction false} EnqueueKeeps(s: State, t: nat, seen: Ptr)
    requires Inv(s) && t < |s.tasks| && s.tasks[t] == Linking(seen) && s.word == seen
    ensures var s' := Step(s, t, false);
      && Inv(s') && Enqueues(Abstract(s), Abstract(s'), t)
      && s'.tasks == s.tasks[t := Parked] && s'.arrivals == s.arrivals + [t]
  {
    hide Reverse, Linked, NoDuplicates;
    var s' := Go(s, t, Parked).(word := At(t), stack := [t] + s.stack, arrivals := s.arrivals + [t]);
    ReverseFirst(t, s.stack);
    LinkedFirst(s.next, s.word, s.stack, t);
    assert Queue(s') == Queue(s) + [t];
    NoDuplicatesLast(Queue(s), t);
    assert s.grants + (Queue(s) + [t]) == s.grants + Queue(s) + [t];
  }

  // ----- unlock

  /** Nobody waits: the lock is free. */
  lemma {:induction false} FreeKeeps(s: State, t: nat)
    requires Inv(s) && t < |s.tasks| && s.tasks[t] == Freeing && s.word == Null
    ensures var s' := Step(s, t, false);
      Inv(s') && Releases(Abstract(s), Abstract(s'), t) && s'.tasks == s.tasks[t := Outside]
  {
    assert s.stack == [] && s.line == [] && s.detached == [];
  }

  /** The exchange takes a stack that is not empty. */
  lemma {:induction false} TakeKeeps(s: State, t: nat)
    requires Inv(s) && t < |s.tasks| && s.tasks[t] == Taking
    ensures s.word.At?
    ensures var s' := Step(s, t, false);
      Inv(s') && Abstract(s') == Abstract(s) && s'.tasks == s.tasks[t := Reversing(s.word)] && s'.word == Null
  {
    hide Linked, NoDuplicates;
    LinkedWord(s.next, s.word, s.stack);
    LinkedNothing(s.next);
    var s' := Go(s, t, Reversing(s.word)).(word := Null, stack := [], detached := s.stack);
    assert Queue(s') == Reverse(s.stack) == Queue(s);
  }

  lemma LinkedWord(next: seq<Ptr>, p: Ptr, l: seq<nat>)
    requires Linked(next, p, l)
    ensures p == Member(l, 0)
  {
  }

  lemma LinkedNothing(next: seq<Ptr>)
    ensures Linked(next, Null, [])
  {
  }

  /** One round of the reversal moves the newest detached task in front of the line. */
  lemma {:induction false} ReverseKeeps(s: State, t: nat, lifo: Ptr)
    requires Inv(s) && t < |s.tasks| && s.tasks[t] == Reversing(lifo)
    ensures lifo.At? && lifo.task < |s.next|
    ensures Inv(UnlockStep(s, t)) && Abstract(UnlockStep(s, t)) == Abstract(s)
  {
    hide Linked, NoDuplicates, Reverse;
    LinkedRest(s.next, lifo, s.detached);
    var x, rest, others := lifo.task, s.next[lifo.task], s.detached[1..];
    var s' := UnlockStep(s, t);
    assert s.detached == [x] + others;
    ReverseFirst(x, others);
    assert Queue(s') == Queue(s) by {
      assert Reverse(others) + ([x] + s.line) == (Reverse(others) + [x]) + s.line;
    }
    Separate(s, x, others);
    if s.word != Self {
      LinkedElsewhere(s.next, s.word, s.stack, x, s.fifo);
    }
    LinkedElsewhere(s.next, rest, others, x, s.fifo);
    LinkedElsewhere(s.next, s.fifo, s.line, x, s.fifo);
    LinkedFirst(s'.next, s.fifo, s.line, x);
    LinkedWord(s.next, rest, others);
  }

  lemma OneIndex(l: seq<nat>, j: nat, k: nat)
    requires NoDuplicates(l) && j < |l| && k < |l| && l[j] == l[k]
    ensures j == k
  {
  }

  /** The first detached task is in none of the other lists. */
  lemma {:induction false} Separate(s: State, x: nat, others: seq<nat>)
    requires NoDuplicates(Queue(s)) && s.detached == [x] + others
    ensures x !in others && x !in s.line && x !in s.stack
  {
    hide Reverse, NoDuplicates;
    ReverseFirst(x, others);
    var q, k := Queue(s), |others|;
    assert q == Reverse(others) + [x] + s.line + Reverse(s.stack);
    ReverseHas(others, x);
    ReverseHas(s.stack, x);
    if x in others {
      var j :| 0 <= j < |Reverse(others)| && Reverse(others)[j] == x;
      OneIndex(q, j, k);
    }
    if x in s.line {
      var j :| 0 <= j < |s.line| && s.line[j] == x;
      OneIndex(q, k, k + 1 + j);
    }
    if x in s.stack {
      var j :| 0 <= j < |Reverse(s.stack)| && Reverse(s.stack)[j] == x;
      OneIndex(q, k, k + 1 + |s.line| + j);
    }
  }

  /** The first of the line is parked, and the rest of the queue stays. */
  lemma {:induction false} HandFirst(s: State, t: nat)
    requires Inv(s) && t < |s.tasks| && s.tasks[t] == Handing
    ensures s.fifo.At? && s.fifo.task < |s.tasks| && s.tasks[s.fifo.task] == Parked
    ensures Queue(s) == [s.fifo.task] + Queue(UnlockStep(s, t))
    ensures Linked(s.next, s.next[s.fifo.task], Rest(s.line))
  {
    hide Linked, NoDuplicates, Reverse;
    LinkedRest(s.next, s.fifo, s.line);
    ReverseNothing();
    assert s.line == [s.fifo.task] + Rest(s.line);
    assert s.fifo.task in Queue(s);
  }

  /** The lock goes to the first of the line. */
  lemma {:induction false} HandKeeps(s: State, t: nat)
    requires Inv(s) && t < |s.tasks| && s.tasks[t] == Handing
    ensures Inv(UnlockStep(s, t)) && HandsOver(Abstract(s), Abstract(UnlockStep(s, t)), t)
  {
    hide Linked, NoDuplicates, Queue, Reverse;
    HandFirst(s, t);
    var x, s' := s.fifo.task, UnlockStep(s, t);
    NoDuplicatesRest(x, Queue(s'));
    assert s.grants + ([x] + Queue(s')) == (s.grants + [x]) + Queue(s');
    assert ParkedInv(s') by {
      forall u: nat
        ensures u in Queue(s') <==> u < |s'.tasks| && s'.tasks[u] == Parked
      {
        assert u in Queue(s) <==> u == x || u in Queue(s');
      }
    }
  }

  lemma ReverseNothing()
    ensures Reverse([]) == []
  {
  }

  lemma NoDuplicatesRest(x: nat, l: seq<nat>)
    requires NoDuplicates([x] + l)
    ensures NoDuplicates(l) && x !in l
  {
    var m := [x] + l;
    forall k | 0 <= k < |l|
      ensures l[k] != x && forall j :: 0 <= j < k ==> l[j] != l[k]
    {
      assert m[0] == x && m[k + 1] == l[k];
      forall j | 0 <= j < k
        ensures l[j] != l[k]
      {
        assert m[j + 1] == l[j];
      }
    }
  }
}

/** The I/O driver of a worker: requests in flight, their timeouts in the wheel,
    and the poll that turns completions and expired timeouts into runnable tasks.

    `live` is the set of requests submitted and not yet completed; the kernel
    completes each of them once. */
module Driver {
  import opened Words
  import opened Wheel
  import opened Grid
  import opened Order
  import opened Timer

  datatype Completion = Completion(cb: Callback?, res: int)

  /** Why a coroutine is made runnable: its request completed, or its sleep is over. */
  datatype Cause = Finished(cb: Callback) | Rested(entry: Entry, coroutine: Handle)

  function Coroutine(cause: Cause): Handle {
    match cause
    case Finished(cb) => cb.handle
    case Rested(_, handle) => handle
  }

  function Coroutines(causes: seq<Cause>): seq<Handle> {
    seq(|causes|, i requires 0 <= i < |causes| => Coroutine(causes[i]))
  }

  lemma CoroutinesAppend(causes: seq<Cause>, more: seq<Cause>)
    ensures Coroutines(causes + more) == Coroutines(causes) + Coroutines(more)
  {
  }

  /** The requests that complete, and what that makes runnable, in order. */
  ghost function Completed(cqes: seq<Completion>): set<Callback> {
    set i | 0 <= i < |cqes| && cqes[i].cb != null :: cqes[i].cb
  }

  function Finishes(cqes: seq<Completion>): seq<Cause> {
    if cqes == [] then []
    else
      var last := cqes[|cqes| - 1];
      Finishes(cqes[..|cqes| - 1]) + if last.cb == null then [] else [Finished(last.cb)]
  }

  /** The sleeps that end with the drained entries `fired`, in order. */
  ghost function Rests(fired: seq<Entry>, sleepers: map<Entry, Handle>): seq<Cause> {
    if fired == [] then []
    else
      var last := fired[|fired| - 1];
      Rests(fired[..|fired| - 1], sleepers) + if last in sleepers then [Rested(last, sleepers[last])] else []
  }

  lemma CompletedMore(cqes: seq<Completion>, i: nat)
    requires i < |cqes|
    ensures Completed(cqes[..i + 1]) == Completed(cqes[..i]) + Completed([cqes[i]])
    ensures Completed([cqes[i]]) == if cqes[i].cb == null then {} else {cqes[i].cb}
    ensures Finishes(cqes[..i + 1]) == Finishes(cqes[..i]) + Finishes([cqes[i]])
    ensures Finishes([cqes[i]]) == if cqes[i].cb == null then [] else [Finished(cqes[i].cb)]
  {
    var before, after, one := cqes[..i], cqes[..i + 1], [cqes[i]];
    assert after == before + one && after[..i] == before && one[..0] == [];
    assert forall j :: 0 <= j < i ==> after[j] == before[j];
    assert after[i] == one[0];
    assert forall c :: c in Completed(before) ==> c in Completed(after) by {
      forall c | c in Completed(before)
        ensures c in Completed(after)
      {
        var j :| 0 <= j < |before| && before[j].cb != null && before[j].cb == c;
        assert after[j].cb == c;
      }
    }
    assert one[0].cb != null ==> one[0].cb in Completed(after);
  }

  /** No request completes twice. */
  ghost predicate OncePerRequest(cqes: seq<Completion>) {
    forall i, j :: 0 <= i < j < |cqes| && cqes[i].cb != null ==> cqes[i].cb != cqes[j].cb
  }

  /** A live request's link is null or leads to a waiting timeout that leads back; every waiting
      timeout of a request leads to a live one that leads back; and of the other waiting entries
      exactly the sleepers' have a coroutine to wake. */
  ghost predicate Links(waiting: multiset<Entry>, live: set<Callback>, sleepers: map<Entry, Handle>)
    reads live, set e | e in waiting
  {
    && (forall e :: e in waiting ==> waiting[e] == 1)
    && (forall e :: e in waiting && e.data != null ==> e.data in live && e.data.entry == e)
    && (forall c :: c in live && c.entry != null ==> c.entry in waiting && c.entry.data == c)
    && SleepersHold(waiting, sleepers)
  }

  ghost predicate SleepersHold(waiting: multiset<Entry>, sleepers: map<Entry, Handle>)
    reads set e | e in waiting
  {
    && (forall e :: e in sleepers ==> e in waiting && e.data == null && e.handle == Some(sleepers[e]))
    && (forall e :: e in waiting && e !in sleepers ==> e.handle == None)
  }

  lemma LinksNone(live: set<Callback>)
    requires forall c :: c in live ==> c.entry == null
    ensures Links(multiset{}, live, map[])
  {
  }

  lemma LinksSubmitted(waiting: multiset<Entry>, live: set<Callback>, sleepers: map<Entry, Handle>, cb: Callback)
    requires Links(waiting, live, sleepers) && cb !in live && cb.entry == null
    ensures Links(waiting, live + {cb}, sleepers)
  {
  }

  lemma LinksInserted(waiting: multiset<Entry>, live: set<Callback>, sleepers: map<Entry, Handle>,
                      cb: Callback, e: Entry)
    requires Links(waiting, live, sleepers) && cb !in live && e !in waiting
    requires cb.entry == e && e.data == cb && e.handle == None
    ensures Links(waiting + multiset{e}, live + {cb}, sleepers)
  {
  }

  /** An entry without a request, of a sleeper or of none. */
  lemma LinksSlept(waiting: multiset<Entry>, live: set<Callback>, sleepers: map<Entry, Handle>, e: Entry)
    requires Links(waiting, live, sleepers) && e !in waiting && e.data == null
    ensures e.handle == None ==> Links(waiting + multiset{e}, live, sleepers)
    ensures e.handle.Some? ==> Links(waiting + multiset{e}, live, sleepers[e := e.handle.value])
  {
  }

  lemma LinksWithout(waiting: multiset<Entry>, live: set<Callback>, sleepers: map<Entry, Handle>, cb: Callback)
    requires Links(waiting, live, sleepers) && cb in live && cb.entry == null
    ensures Links(waiting, live - {cb}, sleepers)
  {
  }

  /** A request can be left out with its timeout. */
  lemma LinksWithoutTimeout(waiting: multiset<Entry>, live: set<Callback>, sleepers: map<Entry, Handle>, cb: Callback)
    returns (others: multiset<Entry>, rest: set<Callback>)
    requires Links(waiting, live, sleepers) && cb in live && cb.entry != null
    ensures cb.entry.handle == None && cb.entry !in others && waiting == others + multiset{cb.entry}
    ensures rest == live - {cb} && cb !in rest && Links(others, rest, sleepers)
  {
    others, rest := waiting - multiset{cb.entry}, live - {cb};
  }

  /** The same, with the links recorded beside the requests. */
  ghost predicate LinksAs(waiting: multiset<Entry>, live: set<Callback>, links: map<Callback, Entry?>)
    reads set e | e in waiting
  {
    && live <= links.Keys
    && (forall e :: e in waiting ==> waiting[e] == 1)
    && (forall e :: e in waiting && e.data != null ==> e.data in live && links[e.data] == e)
    && (forall c :: c in live && links[c] != null ==> links[c] in waiting && links[c].data == c)
  }

  lemma LinksRecorded(waiting: multiset<Entry>, live: set<Callback>, sleepers: map<Entry, Handle>)
    returns (links: map<Callback, Entry?>)
    requires Links(waiting, live, sleepers)
    ensures LinksAs(waiting, live, links) && forall c :: c in live ==> links[c] == c.entry
    ensures forall e :: e in waiting && e.data != null ==> e.data in live
    ensures SleepersHold(waiting, sleepers)
  {
    links := map c | c in live :: c.entry;
  }

  ghost function Without(sleepers: map<Entry, Handle>, fired: seq<Entry>): map<Entry, Handle> {
    map e | e in sleepers && e !in fired :: sleepers[e]
  }

  /** Draining the entries `fired` keeps the links, if the links of their requests are cleared. */
  lemma LinksDrained(before: multiset<Entry>, waiting: multiset<Entry>, live: set<Callback>,
                     sleepers: map<Entry, Handle>, links: map<Callback, Entry?>, fired: seq<Entry>)
    requires LinksAs(before, live, links) && SleepersHold(before, sleepers) && multiset(fired) + waiting == before
    requires forall c :: c in live ==> c.entry == if c in Requests(fired) then null else links[c]
    ensures Links(waiting, live, Without(sleepers, fired))
  {
    forall e: Entry
      ensures before[e] == multiset(fired)[e] + waiting[e]
    {
    }
    forall e | e in waiting && e.data != null
      ensures e.data !in Requests(fired)
    {
      Untouched(before, live, links, fired, e);
    }
    forall c | c in live && c.entry != null
      ensures c.entry in waiting
    {
      RequestOf(fired, c.entry);
    }
    DrainedOnce(before, waiting, fired);
  }

  /** Each waiting entry is drained or stays, and is drained at most once. */
  lemma DrainedOnce(before: multiset<Entry>, waiting: multiset<Entry>, fired: seq<Entry>)
    requires (forall e :: e in before ==> before[e] == 1) && multiset(fired) + waiting == before
    ensures forall e :: e in fired <==> e in before && e !in waiting
    ensures Distinct(fired)
  {
    forall e: Entry
      ensures before[e] == multiset(fired)[e] + waiting[e]
      ensures e in fired <==> multiset(fired)[e] > 0
    {
    }
    forall i, j | 0 <= i < j < |fired| && fired[i] == fired[j]
      ensures multiset(fired)[fired[i]] >= 2
    {
      Twice(fired, i, j);
    }
  }

  lemma Twice(fired: seq<Entry>, i: nat, j: nat)
    requires i < j < |fired| && fired[i] == fired[j]
    ensures multiset(fired)[fired[i]] >= 2
  {
    assert fired == fired[..j] + [fired[j]] + fired[j + 1..];
    assert fired[i] == fired[..j][i];
  }

  ghost predicate Distinct(fired: seq<Entry>) {
    forall i, j :: 0 <= i < j < |fired| ==> fired[i] != fired[j]
  }

  /** What the drained entries wake are the sleepers among them: a timeout wakes nobody, whether
      it comes first or its request has completed before. */
  lemma {:induction false} OnlySleepersWake(waiting: multiset<Entry>, sleepers: map<Entry, Handle>, fired: seq<Entry>)
    requires SleepersHold(waiting, sleepers) && forall e :: e in fired ==> e in waiting
    ensures AllWakes(fired) == Coroutines(Rests(fired, sleepers))
  {
    if fired != [] {
      var n := |fired| - 1;
      OnlySleepersWake(waiting, sleepers, fired[..n]);
      CoroutinesAppend(Rests(fired[..n], sleepers), Rests(fired, sleepers)[|Rests(fired[..n], sleepers)|..]);
      assert fired[n] in waiting;
    }
  }

  lemma OneTimeout(waiting: multiset<Entry>, live: set<Callback>, links: map<Callback, Entry?>, e: Entry, f: Entry)
    requires LinksAs(waiting, live, links) && e in waiting && f in waiting && e.data == f.data != null
    ensures e == f
  {
  }

  lemma Untouched(waiting: multiset<Entry>, live: set<Callback>, links: map<Callback, Entry?>, fired: seq<Entry>,
                  e: Entry)
    requires LinksAs(waiting, live, links) && multiset(fired) <= waiting
    requires e in waiting && e !in multiset(fired) && e.data != null
    ensures e.data !in Requests(fired)
  {
    hide LinksAs;
    if e.data in Requests(fired) {
      var i :| 0 <= i < |fired| && fired[i].data == e.data;
      assert fired[i] in multiset(fired);
      OneTimeout(waiting, live, links, e, fired[i]);
    }
  }

  lemma RequestOf(fired: seq<Entry>, e: Entry)
    ensures e in multiset(fired) && e.data != null ==> e.data in Requests(fired)
  {
    if e in multiset(fired) {
      var i :| 0 <= i < |fired| && fired[i] == e;
    }
  }

  // ----- what happens to the driver, and what that does

  /** The requests in flight, the sleeping coroutines by their entries, and the run queue. */
  datatype View = View(live: set<Callback>, sleepers: map<Entry, Handle>, tasks: seq<Handle>)

  /** A poll at the time `time` hands out the completions `cqes` and then drains the entries `fired`. */
  datatype Event =
    | Submitted(cb: Callback)
    | Slept(entry: Entry, coroutine: Handle)
    | Polled(cqes: seq<Completion>, fired: seq<Entry>, time: nat)

  ghost function Causes(v: View, e: Event): seq<Cause> {
    match e
    case Submitted(_) => []
    case Slept(_, _) => []
    case Polled(cqes, fired, _) => Finishes(cqes) + Rests(fired, v.sleepers)
  }

  /** The kernel completes live requests only, each once; the wheel drains the sleepers that are due, each once. */
  ghost predicate Happens(v: View, e: Event, v': View) {
    match e
    case Submitted(cb) => cb !in v.live && v' == v.(live := v.live + {cb})
    case Slept(entry, handle) => entry !in v.sleepers && v' == v.(sleepers := v.sleepers[entry := handle])
    case Polled(cqes, fired, time) =>
      && OncePerRequest(cqes) && Completed(cqes) <= v.live && Distinct(fired)
      && (forall entry :: entry in v.sleepers ==> (entry in fired <==> entry.expirationTime <= time))
      && v' == View(v.live - Completed(cqes), Without(v.sleepers, fired), v.tasks + Coroutines(Causes(v, e)))
  }

  lemma SubmissionHappens(v: View, cb: Callback)
    requires cb !in v.live
    ensures Happens(v, Submitted(cb), v.(live := v.live + {cb}))
  {
  }

  lemma SleepHappens(v: View, entry: Entry, handle: Handle)
    requires entry !in v.sleepers
    ensures Happens(v, Slept(entry, handle), v.(sleepers := v.sleepers[entry := handle]))
  {
  }

  lemma PollHappens(v: View, cqes: seq<Completion>, fired: seq<Entry>, time: nat)
    requires OncePerRequest(cqes) && Completed(cqes) <= v.live && Distinct(fired)
    requires forall entry :: entry in v.sleepers ==> (entry in fired <==> entry.expirationTime <= time)
    ensures Happens(v, Polled(cqes, fired, time),
                    View(v.live - Completed(cqes), Without(v.sleepers, fired),
                         v.tasks + Coroutines(Finishes(cqes)) + Coroutines(Rests(fired, v.sleepers))))
  {
    hide Finishes, Rests, Coroutines, Completed, Without, Distinct, OncePerRequest;
    CoroutinesAppend(Finishes(cqes), Rests(fired, v.sleepers));
  }

  class Driver {
    const timer: Timer
    ghost var live: set<Callback>
    ghost var sleepers: map<Entry, Handle>
    /** The bag of entries in the wheel. */
    ghost var waiting: multiset<Entry>

    /** The wheel holds the timeouts and the sleepers, in order or not. */
    ghost predicate Linked()
      reads this, timer, timer.levels, live, set e | e in waiting
    {
      timer.Formed() && timer.pending == [] && timer.Waiting() == waiting && Links(waiting, live, sleepers)
    }

    /** And it is in order. */
    ghost predicate Valid()
      reads this, timer, timer.levels, live, set e | e in waiting
    {
      timer.Valid() && Linked()
    }

    ghost function Seen(queue: RunQueue): View
      reads this, queue
    {
      View(live, sleepers, queue.tasks)
    }

    constructor (now: nat)
      ensures Valid() && fresh(timer) && fresh(timer.levels) && timer.startTime == now
      ensures live == {} && sleepers == map[] && waiting == multiset{}
    {
      hide Stored, AllFiled, Timer.Formed, Timer.Filing;
      timer := new Timer(now);
      live, sleepers, waiting := {}, map[], multiset{};
      new;
      LinksNone(live);
    }

    /** A request without a timeout. */
    method Submit(cb: Callback, ghost queue: RunQueue)
      requires Valid() && cb !in live && cb.entry == null
      modifies `live
      ensures Valid() && waiting == old(waiting)
      ensures Happens(old(Seen(queue)), Submitted(cb), Seen(queue))
    {
      hide Stored, AllFiled, Timer.Formed, Timer.Filing, Timer.Waiting, Timer.Valid, Links;
      LinksSubmitted(waiting, live, sleepers, cb);
      live := live + {cb};
    }

    /** The timeout of a request is filed, unless its time has passed. */
    method FileTimeout(cb: Callback, deadline: nat) returns (ok: bool)
      requires Valid() && cb !in live && cb.entry == null && deadline < W64
      modifies cb`entry, timer.levels
      ensures ok <==> deadline > timer.startTime + timer.elapsed
      ensures timer.Formed() && timer.pending == []
      ensures ok ==> (timer.Valid() <==> InHorizon(timer.elapsed, deadline - timer.startTime))
      ensures ok ==> cb.entry != null && cb.entry.expirationTime == deadline
      ensures ok ==> timer.Waiting() == waiting + multiset{cb.entry}
      ensures ok ==> Links(waiting + multiset{cb.entry}, live + {cb}, sleepers)
      ensures ok && timer.Valid() ==> Added(timer.Filing(), old(timer.Filing()), timer.startTime, [cb.entry])
      ensures !ok ==> Valid() && cb.entry == null
    {
      hide Stored, AllFiled, Timer.Formed, Timer.Filing, Timer.Valid, Timer.Waiting, InHorizon, Links, Added;
      var r := timer.Insert(cb, deadline);
      if r.Ok? {
        assert r.value !in waiting;
        cb.entry := r.value;
        assert timer.Formed() && timer.Waiting() == waiting + multiset{r.value};
        assert timer.Valid() <==> InHorizon(timer.elapsed, deadline - timer.startTime);
        assert Links(waiting, live, sleepers);
        LinksInserted(waiting, live, sleepers, cb, r.value);
      }
      ok := r.Ok?;
    }

    /** A request with a timeout; it is not submitted if its time has passed. */
    method SubmitWithTimeout(cb: Callback, deadline: nat, ghost queue: RunQueue) returns (ok: bool)
      requires Valid() && cb !in live && cb.entry == null && deadline < W64
      modifies `live, `waiting, cb`entry, timer.levels
      ensures ok <==> deadline > timer.startTime + timer.elapsed
      ensures ok ==> (Valid() <==> InHorizon(timer.elapsed, deadline - timer.startTime))
      ensures Linked() && (!ok ==> Valid())
      ensures !ok ==> Seen(queue) == old(Seen(queue)) && waiting == old(waiting) && cb.entry == null
      ensures ok ==> Happens(old(Seen(queue)), Submitted(cb), Seen(queue))
      ensures ok ==> cb.entry != null && cb.entry.expirationTime == deadline
      ensures ok ==> waiting == old(waiting) + multiset{cb.entry}
      ensures ok && Valid() ==> Added(timer.Filing(), old(timer.Filing()), timer.startTime, [cb.entry])
    {
      hide Stored, AllFiled, Timer.Formed, Timer.Filing, Timer.Valid, Timer.Waiting, InHorizon, Links, Happens, Added;
      ok := FileTimeout(cb, deadline);
      if ok {
        SubmissionHappens(Seen(queue), cb);
        live, waiting := live + {cb}, waiting + multiset{cb.entry};
      }
    }

    /** The sleeper is filed, unless its time has passed. */
    method FileSleeper(handle: Handle, deadline: nat) returns (ok: bool, ghost entry: Entry?)
      requires Valid() && deadline < W64
      modifies timer.levels
      ensures ok <==> deadline > timer.startTime + timer.elapsed
      ensures timer.Formed() && timer.pending == []
      ensures ok ==> (timer.Valid() <==> InHorizon(timer.elapsed, deadline - timer.startTime))
      ensures ok ==> entry != null && fresh(entry) && entry.expirationTime == deadline
      ensures ok ==> timer.Waiting() == waiting + multiset{entry}
      ensures ok ==> Links(waiting + multiset{entry}, live, sleepers[entry := handle])
      ensures ok && timer.Valid() ==> Added(timer.Filing(), old(timer.Filing()), timer.startTime, [entry])
      ensures !ok ==> Valid()
    {
      hide Stored, AllFiled, Timer.Formed, Timer.Filing, Timer.Valid, Timer.Waiting, InHorizon, Links, Added;
      var r := timer.InsertHandle(handle, deadline);
      ok := r.Ok?;
      if r.Ok? {
        entry := r.value;
        assert Links(waiting, live, sleepers);
        LinksSlept(waiting, live, sleepers, r.value);
      } else {
        entry := null;
      }
    }

    /** A coroutine goes to sleep.  If its time has passed, `ok` is false and the program ends: the
        value of the failed insertion is asked for in a function that must not throw. */
    method Sleep(handle: Handle, deadline: nat, ghost queue: RunQueue) returns (ok: bool, ghost entry: Entry?)
      requires Valid() && deadline < W64
      modifies `sleepers, `waiting, timer.levels
      ensures ok <==> deadline > timer.startTime + timer.elapsed
      ensures ok ==> (Valid() <==> InHorizon(timer.elapsed, deadline - timer.startTime))
      ensures Linked() && (!ok ==> Valid())
      ensures !ok ==> Seen(queue) == old(Seen(queue)) && waiting == old(waiting)
      ensures ok ==> entry != null && fresh(entry) && entry.expirationTime == deadline
      ensures ok ==> waiting == old(waiting) + multiset{entry}
      ensures ok && Valid() ==> Added(timer.Filing(), old(timer.Filing()), timer.startTime, [entry])
      ensures ok ==> Happens(old(Seen(queue)), Slept(entry, handle), Seen(queue))
    {
      hide Stored, AllFiled, Timer.Formed, Timer.Filing, Timer.Valid, Timer.Waiting, InHorizon, Links, Happens, Added;
      ok, entry := FileSleeper(handle, deadline);
      if ok {
        SleepHappens(Seen(queue), entry, handle);
        waiting, sleepers := waiting + multiset{entry}, sleepers[entry := handle];
      }
    }

    lemma LinksInside()
      requires Valid()
      ensures forall c :: c in live && c.entry != null ==> c.entry in waiting
    {
    }

    /** A request is done: its timeout, if it has one, is forgotten and wakes nobody later. */
    method Forget(cb: Callback)
      requires Valid() && timer.startTime + timer.elapsed < W64 && cb in live
      modifies `live, timer.levels, if cb.entry == null then {} else {cb.entry}
      ensures Valid() && waiting == old(waiting) && sleepers == old(sleepers) && live == old(live) - {cb}
      ensures timer.Formed() && timer.Filing() == old(timer.Filing())
      ensures cb.entry == old(cb.entry)
      ensures cb.entry != null ==> cb.entry.data == null && cb.entry.handle == None
    {
      hide Stored, AllFiled, Timer.Formed, Timer.Filing, Timer.Valid, Timer.Waiting, Links;
      if cb.entry == null {
        LinksWithout(waiting, live, sleepers, cb);
        live := live - {cb};
      } else {
        ghost var others, rest := LinksWithoutTimeout(waiting, live, sleepers, cb);
        timer.Remove(cb.entry);
        assert Links(others, rest, sleepers);
        LinksSlept(others, rest, sleepers, cb.entry);
        live := rest;
      }
    }

    /** One completion: its timeout is forgotten, its result stored, its coroutine made runnable. */
    method Complete(cqe: Completion, queue: RunQueue)
      requires Valid() && timer.startTime + timer.elapsed < W64 && (cqe.cb != null ==> cqe.cb in live)
      modifies `live, queue, if cqe.cb == null then {} else {cqe.cb}, timer.levels,
        if cqe.cb == null || cqe.cb.entry == null then {} else {cqe.cb.entry}
      ensures Valid() && waiting == old(waiting) && sleepers == old(sleepers) && live == old(live) - Completed([cqe])
      ensures timer.Formed() && timer.Filing() == old(timer.Filing())
      ensures queue.tasks == old(queue.tasks) + Coroutines(Finishes([cqe]))
      ensures cqe.cb != null ==> cqe.cb.result == cqe.res && cqe.cb.entry == old(cqe.cb.entry)
    {
      hide Stored, AllFiled, Timer.Formed, Timer.Filing, Timer.Valid, Timer.Waiting, Finishes, Completed, Links;
      CompletedMore([cqe], 0);
      if cqe.cb != null {
        Forget(cqe.cb);
        cqe.cb.result := cqe.res;
        queue.Push(cqe.cb.handle);
        assert Coroutines([Finished(cqe.cb)]) == [cqe.cb.handle];
      }
    }

    method CompleteAll(cqes: seq<Completion>, queue: RunQueue)
      requires Valid() && timer.startTime + timer.elapsed < W64 && OncePerRequest(cqes) && Completed(cqes) <= live
      modifies `live, queue, live, timer.levels, set e | e in waiting
      ensures Valid() && waiting == old(waiting) && sleepers == old(sleepers) && live == old(live) - Completed(cqes)
      ensures timer.Formed() && timer.Filing() == old(timer.Filing())
      ensures queue.tasks == old(queue.tasks) + Coroutines(Finishes(cqes))
      ensures forall i :: 0 <= i < |cqes| && cqes[i].cb != null ==> cqes[i].cb.result == cqes[i].res
      ensures forall c :: c in old(live) ==> c.entry == old(c.entry)
    {
      hide Stored, AllFiled, Timer.Formed, Timer.Filing, Timer.Valid, Timer.Waiting, Finishes, Completed, Links,
        Coroutines;
      NoneCompleted();
      assert cqes[..0] == [];
      for i := 0 to |cqes|
        invariant Valid() && waiting == old(waiting) && sleepers == old(sleepers)
        invariant live == old(live) - Completed(cqes[..i])
        invariant timer.elapsed == old(timer.elapsed) && timer.Formed() && timer.Filing() == old(timer.Filing())
        invariant queue.tasks == old(queue.tasks) + Coroutines(Finishes(cqes[..i]))
        invariant forall j :: 0 <= j < i && cqes[j].cb != null ==> cqes[j].cb.result == cqes[j].res
        invariant forall c :: c in old(live) ==> c.entry == old(c.entry)
      {
        StillLive(cqes, i);
        LinksInside();
        CompletedMore(cqes, i);
        CoroutinesAppend(Finishes(cqes[..i]), Finishes([cqes[i]]));
        Complete(cqes[i], queue);
      }
      assert cqes[..|cqes|] == cqes;
    }

    /** One poll: completions first, then what is due by `now`.

        Every completed request makes its coroutine runnable, once; a timeout that comes first
        only clears the link of its request, whose coroutine still waits for its completion. */
    method Poll(cqes: seq<Completion>, now: nat, queue: RunQueue) returns (active: bool, ghost fired: seq<Entry>)
      requires Valid() && timer.startTime + timer.elapsed < W64 && timer.elapsed <= now < W64
      requires OncePerRequest(cqes) && Completed(cqes) <= live
      modifies this, timer, timer.levels, queue, live, set e | e in waiting
      ensures forall i :: 0 <= i < |cqes| && cqes[i].cb != null ==> cqes[i].cb.result == cqes[i].res
      ensures forall c :: c in old(live) && c in live ==> c.entry == if c in Requests(fired) then null else old(c.entry)
      ensures Valid() && timer.elapsed == now
      ensures Happens(old(Seen(queue)), Polled(cqes, fired, timer.startTime + now), Seen(queue))
      ensures multiset(fired) + waiting == old(waiting) && InOrder(fired, timer.startTime)
      ensures timer.Formed() && Leaves(timer.Filing(), old(timer.Filing()), timer.startTime, fired)
      ensures forall e :: e in fired ==> When(e, timer.startTime) <= now
      ensures forall e :: e in waiting ==> When(e, timer.startTime) > now
      ensures active <==> |cqes| + |fired| > 0
    {
      hide Stored, AllFiled, Timer.Formed, Timer.Filing, Timer.Waiting, Timer.Valid, Finishes, Completed, Links,
        When, InOrder, Requests, OncePerRequest, Coroutines, Rests, Without, Distinct, Happens, Leaves;
      CompleteAll(cqes, queue);
      var count;
      count, fired := Expire(now, queue);
      PollHappens(old(Seen(queue)), cqes, fired, timer.startTime + now);
      active := |cqes| + count > 0;
    }

    /** The wheel drains what is due by `now`. */
    method Drain(now: nat, queue: RunQueue)
      returns (count: nat, ghost fired: seq<Entry>, ghost after: multiset<Entry>)
      requires Valid() && timer.elapsed <= now < W64
      modifies timer, timer.levels, queue, live`entry
      ensures forall c :: c in live ==> c.entry == if c in Requests(fired) then null else old(c.entry)
      ensures queue.tasks == old(queue.tasks) + Coroutines(Rests(fired, sleepers))
      ensures timer.Formed() && timer.Waiting() == after
      ensures timer.elapsed == now && count == |fired| && Distinct(fired)
      ensures multiset(fired) + after == waiting && InOrder(fired, timer.startTime)
      ensures Leaves(timer.Filing(), old(timer.Filing()), timer.startTime, fired)
      ensures forall e :: e in fired ==> When(e, timer.startTime) <= now
      ensures forall e :: e in after ==> When(e, timer.startTime) > now
      ensures forall e :: e in sleepers ==> (e in fired <==> e.expirationTime <= timer.startTime + now)
      ensures Links(after, live, Without(sleepers, fired))
      ensures timer.Valid()
    {
      hide Stored, AllFiled, Timer.Formed, Timer.Filing, Timer.Waiting, Timer.Valid, Links, LinksAs, SleepersHold,
        When, InOrder, AllWakes, Requests, Coroutines, Rests, Without, Distinct, Leaves;
      ghost var moves;
      ghost var links := LinksRecorded(waiting, live, sleepers);
      count, fired, moves := timer.HandleExpiredEntries(now, queue, live);
      timer.NothingPending();
      after := timer.Waiting();
      assert LinksAs(waiting, live, links) && SleepersHold(waiting, sleepers);
      LinksDrained(waiting, after, live, sleepers, links, fired);
      SleepersDrained(waiting, after, live, sleepers, links, fired, timer.startTime, now);
    }

    /** What is due by `now` is drained; the links of requests that time out are cleared. */
    method Expire(now: nat, queue: RunQueue) returns (count: nat, ghost fired: seq<Entry>)
      requires Valid() && timer.elapsed <= now < W64
      modifies `waiting, `sleepers, timer, timer.levels, queue, live`entry
      ensures Valid() && timer.elapsed == now && count == |fired| && Distinct(fired)
      ensures multiset(fired) + waiting == old(waiting) && InOrder(fired, timer.startTime)
      ensures timer.Formed() && Leaves(timer.Filing(), old(timer.Filing()), timer.startTime, fired)
      ensures forall e :: e in fired ==> When(e, timer.startTime) <= now
      ensures forall e :: e in waiting ==> When(e, timer.startTime) > now
      ensures forall e :: e in old(sleepers) ==> (e in fired <==> e.expirationTime <= timer.startTime + now)
      ensures sleepers == Without(old(sleepers), fired)
      ensures queue.tasks == old(queue.tasks) + Coroutines(Rests(fired, old(sleepers)))
      ensures forall c :: c in old(live) ==> c.entry == if c in Requests(fired) then null else old(c.entry)
    {
      hide Stored, AllFiled, Timer.Formed, Timer.Filing, Timer.Waiting, Timer.Valid, Links, LinksAs, SleepersHold,
        When, InOrder, AllWakes, Requests, Coroutines, Rests, Without, Distinct, Leaves;
      ghost var after;
      count, fired, after := Drain(now, queue);
      ghost var timedOut := Requests(fired);
      waiting, sleepers := after, Without(sleepers, fired);
      assert Requests(fired) == timedOut;
      assert timer.Formed() && timer.Waiting() == waiting && timer.Valid() && Links(waiting, live, sleepers);
      timer.NothingPending();
    }
  }

  lemma SleepersDrained(before: multiset<Entry>, waiting: multiset<Entry>, live: set<Callback>,
                        sleepers: map<Entry, Handle>, links: map<Callback, Entry?>, fired: seq<Entry>,
                        start: nat, now: nat)
    requires LinksAs(before, live, links) && SleepersHold(before, sleepers) && multiset(fired) + waiting == before
    requires forall e :: e in fired ==> When(e, start) <= now
    requires forall e :: e in waiting ==> When(e, start) > now
    ensures Distinct(fired) && AllWakes(fired) == Coroutines(Rests(fired, sleepers))
    ensures forall e :: e in sleepers ==> (e in fired <==> e.expirationTime <= start + now)
  {
    hide AllWakes, Rests, Coroutines, Distinct;
    DrainedOnce(before, waiting, fired);
    OnlySleepersWake(before, sleepers, fired);
  }

  lemma NoneCompleted()
    ensures Completed([]) == {} && Finishes([]) == [] && Coroutines([]) == []
  {
  }

  lemma StillLive(cqes: seq<Completion>, i: nat)
    requires OncePerRequest(cqes) && i < |cqes|
    ensures cqes[i].cb != null ==> cqes[i].cb in Completed(cqes) && cqes[i].cb !in Completed(cqes[..i])
  {
  }

  // ----- any sequence of submissions, sleeps and polls

  ghost predicate Run(views: seq<View>, events: seq<Event>) {
    && |views| == |events| + 1 && views[0] == View({}, map[], [])
    && forall i :: 0 <= i < |events| ==> Happens(views[i], events[i], views[i + 1])
  }

  /** Why the coroutines of a run were made runnable, in order. */
  ghost function Log(views: seq<View>, events: seq<Event>): seq<Cause>
    requires |views| > |events|
  {
    if events == [] then []
    else
      var n := |events| - 1;
      Log(views[..n + 1], events[..n]) + Causes(views[n], events[n])
  }

  /** What is still to be made runnable for this cause, and how often that was asked for. */
  ghost predicate Outstanding(v: View, cause: Cause) {
    match cause
    case Finished(cb) => cb in v.live
    case Rested(entry, handle) => entry in v.sleepers && v.sleepers[entry] == handle
  }

  ghost function Asked(events: seq<Event>, cause: Cause): nat {
    if events == [] then 0
    else
      var n := |events| - 1;
      Asked(events[..n], cause) + if events[n] == Asking(cause) then 1 else 0
  }

  function Asking(cause: Cause): Event {
    match cause
    case Finished(cb) => Submitted(cb)
    case Rested(entry, handle) => Slept(entry, handle)
  }

  lemma {:induction false} FinishedOnce(cqes: seq<Completion>, cause: Cause)
    requires OncePerRequest(cqes)
    ensures multiset(Finishes(cqes))[cause] == if cause.Finished? && cause.cb in Completed(cqes) then 1 else 0
  {
    hide Completed;
    if cqes == [] {
      NoneCompleted();
    } else {
      var n := |cqes| - 1;
      FinishedOnce(cqes[..n], cause);
      CompletedMore(cqes, n);
      StillLive(cqes, n);
      assert cqes[..n + 1] == cqes;
    }
  }

  lemma {:induction false} RestedOnce(fired: seq<Entry>, sleepers: map<Entry, Handle>, cause: Cause)
    requires Distinct(fired)
    ensures multiset(Rests(fired, sleepers))[cause] ==
            if cause.Rested? && cause.entry in fired && cause.entry in sleepers
                && sleepers[cause.entry] == cause.coroutine
            then 1 else 0
  {
    if fired != [] {
      var n := |fired| - 1;
      RestedOnce(fired[..n], sleepers, cause);
      assert fired == fired[..n] + [fired[n]];
    }
  }

  /** One event keeps the balance between what is asked for, what is done and what is outstanding. */
  lemma {:induction false} EventBalances(v: View, e: Event, v': View, cause: Cause)
    requires Happens(v, e, v')
    ensures (if Outstanding(v, cause) then 1 else 0) + (if e == Asking(cause) then 1 else 0)
         == multiset(Causes(v, e))[cause] + if Outstanding(v', cause) then 1 else 0
  {
    hide Completed, Finishes, Rests, OncePerRequest, Distinct, Coroutines;
    if e.Polled? {
      FinishedOnce(e.cqes, cause);
      RestedOnce(e.fired, v.sleepers, cause);
    }
  }

  /** In every run the run queue gets exactly this: the coroutine of every submitted request once, on its
      completion, whether or not its timeout came first, and every sleeping coroutine once, when it is due. */
  lemma {:induction false} PushedOnce(views: seq<View>, events: seq<Event>, cause: Cause)
    requires Run(views, events)
    ensures var last := views[|events|];
      && last.tasks == Coroutines(Log(views, events))
      && multiset(Log(views, events))[cause] + (if Outstanding(last, cause) then 1 else 0) == Asked(events, cause)
  {
    hide Happens, Outstanding, Causes, Coroutines;
    var n := |events|;
    if n == 0 {
      NothingOutstanding(views[0], cause);
    } else {
      PushedOnce(views[..n], events[..n - 1], cause);
      var before, more := Log(views[..n], events[..n - 1]), Causes(views[n - 1], events[n - 1]);
      assert Happens(views[n - 1], events[n - 1], views[n]);
      EventBalances(views[n - 1], events[n - 1], views[n], cause);
      EventPushes(views[n - 1], events[n - 1], views[n]);
      CoroutinesAppend(before, more);
      assert multiset(before + more) == multiset(before) + multiset(more);
    }
  }

  lemma EventPushes(v: View, e: Event, v': View)
    requires Happens(v, e, v')
    ensures v'.tasks == v.tasks + Coroutines(Causes(v, e))
  {
  }

  lemma NothingOutstanding(v: View, cause: Cause)
    requires v == View({}, map[], [])
    ensures !Outstanding(v, cause) && v.tasks == Coroutines([])
  {
  }

  /** No sleeper is left over by a poll that came when it was due. */
  lemma NoSleeperOverdue(views: seq<View>, events: seq<Event>, i: nat, entry: Entry)
    requires Run(views, events) && i < |events| && events[i].Polled? && entry in views[i + 1].sleepers
    ensures entry.expirationTime > events[i].time
  {
    hide Completed, Causes, Coroutines, Distinct, OncePerRequest;
    assert Happens(views[i], events[i], views[i + 1]);
  }
}

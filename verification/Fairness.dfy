/** How long a task waits in the global queue: a worker looks there first at every
    tick that is a multiple of an interval, and its tick counter has 32 bits. */
module Fairness {
  import opened Words

  /** The tick counter of one worker, and how many tasks were ever taken from and put into
      the global queue.  Tasks are taken in the order in which they were put in, so that
      task number `j` has been taken once `taken` is beyond `j`. */
  datatype State = State(tick: nat, taken: nat, put: nat)

  /** A round of the worker's loop, or something that other threads do. */
  datatype Event = Round | Elsewhere

  predicate Sane(s: State) {
    s.tick < W32 && s.taken <= s.put
  }

  /** In its round the worker takes the first task if its tick says so; otherwise it may take
      any number of tasks.  Others may take and put tasks at any time. */
  predicate Step(s: State, e: Event, s': State, interval: nat)
    requires interval > 0
  {
    && Sane(s')
    && s'.taken >= s.taken && s'.put >= s.put
    && match e
       case Round =>
         && s'.tick == (s.tick + 1) % W32
         && s'.put == s.put
         && (s'.tick % interval == 0 ==> s'.taken == if s.taken < s.put then s.taken + 1 else s.taken)
       case Elsewhere => s'.tick == s.tick
  }

  ghost predicate Run(states: seq<State>, events: seq<Event>, interval: nat)
    requires interval > 0
  {
    && |states| == |events| + 1
    && Sane(states[0])
    && forall i :: 0 <= i < |events| ==> Step(states[i], events[i], states[i + 1], interval)
  }

  function Rounds(events: seq<Event>): nat {
    if events == [] then 0
    else Rounds(events[..|events| - 1]) + if events[|events| - 1] == Round then 1 else 0
  }

  // ----- ticks

  lemma {:induction false} NextRemainder(t: nat, interval: nat)
    requires interval > 0
    ensures (t + 1) % interval == if t % interval == interval - 1 then 0 else t % interval + 1
  {
    var q, r := t / interval, t % interval;
    assert t == q * interval + r;
    if r == interval - 1 {
      assert t + 1 == (q + 1) * interval;
      Multiple(q + 1, interval, 0);
    } else {
      Multiple(q, interval, r + 1);
    }
  }

  lemma {:induction false} Multiple(q: nat, n: nat, r: nat)
    requires r < n
    ensures (q * n + r) % n == r
  {
    var x := q * n + r;
    var a, b := x / n, x % n;
    assert x == a * n + b;
    assert (a - q) * n == r - b;
    if a > q {
      AtLeast(a - q, n);
    } else if a < q {
      AtLeast(q - a, n);
    }
  }

  lemma AtLeast(a: nat, n: nat)
    requires a >= 1
    ensures a * n >= n
  {
    assert a * n == (a - 1) * n + n;
  }

  /** How many rounds until the tick is a multiple of the interval; the counter wraps to such a tick, 0. */
  function Distance(tick: nat, interval: nat): (d: nat)
    requires interval > 0 && tick < W32
    ensures 1 <= d <= interval
  {
    var a, b := interval - tick % interval, W32 - tick;
    if a < b then a else b
  }

  /** Every round brings the worker one tick closer, also across the wrap of the counter. */
  lemma {:induction false} TickAdvances(tick: nat, interval: nat)
    requires interval > 0 && tick < W32
    ensures var next := (tick + 1) % W32;
      if Distance(tick, interval) == 1 then next % interval == 0
      else next % interval != 0 && Distance(next, interval) == Distance(tick, interval) - 1
  {
    NextRemainder(tick, interval);
    if tick + 1 == W32 {
      Multiple(0, interval, 0);
    } else {
      assert (tick + 1) % W32 == tick + 1;
    }
  }

  // ----- the wait

  /** How many rounds task `j` may still have to wait. */
  function Wait(s: State, j: nat, interval: nat): nat
    requires interval > 0 && Sane(s) && s.taken <= j
  {
    (j - s.taken) * interval + Distance(s.tick, interval)
  }

  lemma {:induction false} StepShortensWait(s: State, e: Event, s': State, j: nat, interval: nat)
    requires interval > 0 && Sane(s) && Step(s, e, s', interval) && j < s.put && s'.taken <= j
    ensures Wait(s', j, interval) + (if e == Round then 1 else 0) <= Wait(s, j, interval)
  {
    hide Distance;
    var more := s'.taken - s.taken;
    assert (j - s.taken) * interval == (j - s'.taken) * interval + more * interval;
    if e == Round {
      TickAdvances(s.tick, interval);
      if Distance(s.tick, interval) == 1 {
        assert more == 1;
      } else {
        assert more * interval >= 0;
      }
    } else {
      assert more * interval >= 0;
    }
  }

  lemma {:induction false} RunShortensWait(states: seq<State>, events: seq<Event>, j: nat, interval: nat)
    requires interval > 0 && Run(states, events, interval)
    requires states[0].taken <= j < states[0].put && states[|events|].taken <= j
    ensures Sane(states[|events|]) && states[|events|].put > j
    ensures Rounds(events) + Wait(states[|events|], j, interval) <= Wait(states[0], j, interval)
  {
    hide Wait;
    var n := |events|;
    if n > 0 {
      assert Step(states[n - 1], events[n - 1], states[n], interval);
      RunShortensWait(states[..n], events[..n - 1], j, interval);
      StepShortensWait(states[n - 1], events[n - 1], states[n], j, interval);
    }
  }

  lemma WaitRange(s: State, k: nat, interval: nat)
    requires interval > 0 && Sane(s)
    ensures 1 <= Wait(s, s.taken + k, interval) <= (k + 1) * interval
  {
    assert (k + 1) * interval == k * interval + interval;
    assert k * interval >= 0;
  }

  /** A task at position `k` of the global queue is taken within (k + 1) * interval rounds
      of any one worker that keeps looping, whatever the others do. */
  lemma {:induction false} WaitIsBounded(states: seq<State>, events: seq<Event>, k: nat, interval: nat)
    requires interval > 0 && Run(states, events, interval)
    requires states[0].taken + k < states[0].put
    requires Rounds(events) >= (k + 1) * interval
    ensures states[|events|].taken > states[0].taken + k
  {
    hide Rounds, Distance, Wait, Step;
    if states[|events|].taken <= states[0].taken + k {
      RunShortensWait(states, events, states[0].taken + k, interval);
      WaitRange(states[0], k, interval);
      WaitRange(states[|events|], states[0].taken + k - states[|events|].taken, interval);
    }
  }
}

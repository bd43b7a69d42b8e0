/** What a thread achieves by itself: from wherever the others are, a worker at the top of its loop comes to run a
    task if there is one, a push, a search and a wake-up end as they should, and a worker with nothing falls asleep. */
module SleepingAlone {
  import opened IdleWord
  import opened Wheel
  import opened Sleeping
  import opened SleepingInv
  import opened SleepingSafety
  import opened SleepingLoss
  import Ring

  /** The steps of one thread, with these choices and no step of another between them. */
  function Alone(s: State, a: nat, cs: seq<Choice>): State
    decreases |cs|
  {
    if cs == [] || !Shaped(s) || a >= |s.notes| then s else Alone(Step(s, a, cs[0]), a, cs[1..])
  }

  function Gos(n: nat): seq<Choice> {
    seq(n, _ => Go)
  }

  ghost predicate Gets(s: State, a: nat, cs: seq<Choice>, r: State) {
    Alone(s, a, cs) == r
  }

  lemma {:induction false} GetsMore(s: State, a: nat, cs: seq<Choice>, r: State, ds: seq<Choice>, u: State)
    requires Gets(s, a, cs, r) && Gets(r, a, ds, u)
    ensures Gets(s, a, cs + ds, u)
    decreases |cs|
  {
    hide Step, Shaped;
    if cs == [] {
      assert cs + ds == ds;
    } else if Shaped(s) && a < |s.notes| {
      assert (cs + ds)[1..] == cs[1..] + ds;
      GetsMore(Step(s, a, cs[0]), a, cs[1..], r, ds, u);
    } else if ds != [] {
      assert Alone(r, a, ds) == r;
    }
  }

  lemma GetsNothing(s: State, a: nat)
    ensures Gets(s, a, Gos(0), s)
  {
  }

  lemma GetsOne(s: State, a: nat, cs: seq<Choice>, r: State, c: Choice, u: State)
    requires Gets(s, a, cs, r) && Shaped(r) && a < |r.notes| && u == Step(r, a, c)
    ensures Gets(s, a, cs + [c], u)
  {
    hide Step;
    assert [c][1..] == [] && Alone(u, a, []) == u;
    GetsMore(s, a, cs, r, [c], u);
  }

  lemma GetsGo(s: State, a: nat, k: nat, r: State, u: State)
    requires Gets(s, a, Gos(k), r) && Shaped(r) && a < |r.notes| && u == Step(r, a, Go)
    ensures Gets(s, a, Gos(k + 1), u)
  {
    hide Step;
    GetsOne(s, a, Gos(k), r, Go, u);
    assert Gos(k) + [Go] == Gos(k + 1);
  }

  // ----- a task is found

  /** The worker runs a task, has the record `x` otherwise and does not search any more; `global` tasks are left in
      the global queue, and if it was the last to search it asks whether another should be woken. */
  ghost predicate Runs(s: State, r: State, w: nat, x: Worker, global: nat)
    requires w < |s.workers| <= |s.notes|
  {
    r == s.(workers := s.workers[w := x.(pc := Running, searching := false)],
            global := global,
            word := if x.searching then DecSearching(s.word) else s.word,
            notes := if x.searching && NumSearching(s.word) == 1 then s.notes[w := Asking] else s.notes)
  }

  /** The worker has found a task: one step later it runs. */
  function Found(s: State, w: nat, x: Worker, global: nat): State
    requires w < |s.workers|
  {
    SetWorker(s, w, x.(pc := Starting)).(global := global)
  }

  lemma StartRuns(s: State, w: nat, x: Worker, global: nat)
    requires AtLoop(s, w)
    ensures Shaped(Found(s, w, x, global)) && Runs(s, Step(Found(s, w, x, global), w, Go), w, x, global)
  {
    hide Step, NumSearching, DecSearching;
    var s', y := Found(s, w, x, global), x.(pc := Running, searching := false);
    StepRun(s', w);
    assert s'.workers[w := y] == s.workers[w := y];
  }

  lemma FoundRuns(s: State, s0: State, w: nat, cs: seq<Choice>, x: Worker, global: nat)
    requires AtLoop(s, w) && Gets(s0, w, cs, Found(s, w, x, global))
    ensures Runs(s, Alone(s0, w, cs + [Go]), w, x, global)
  {
    hide Step, Runs, Alone;
    StartRuns(s, w, x, global);
    GetsOne(s0, w, cs, Found(s, w, x, global), Go, Step(Found(s, w, x, global), w, Go));
  }

  lemma {:induction false} ComesToTake(s: State, w: nat)
    requires AtLoop(s, w) && s.workers[w].pc == Top
    ensures Gets(s, w, Gos(2), Move(s, w, TakingLocal(false)))
    ensures Gets(s, w, [Go, Interval], Move(s, w, TakingGlobal(true)))
  {
    hide Step, Gets;
    GetsNothing(s, w);
    StepLoop(s, w);
    var s1 := Move(s, w, NextTask);
    GetsGo(s, w, 0, s, s1);
    StepLoop(s1, w);
    GetsGo(s, w, 1, s1, Move(s, w, TakingLocal(false)));
    StepInterval(s1, w);
    GetsOne(s, w, Gos(1), s1, Interval, Move(s, w, TakingGlobal(true)));
    assert Gos(1) + [Interval] == [Go, Interval];
  }

  lemma StepInterval(s: State, w: nat)
    requires AtLoop(s, w) && s.workers[w].pc == NextTask
    ensures Step(s, w, Interval) == Move(s, w, TakingGlobal(true))
  {
    hide PollStep, ArriveStep, TakeStep, SearchStep, RunStep, LeaveStep, WakeStep, NoteStep;
  }

  /** The record after the worker has taken a task of its own: the one kept aside first.  A slot that a task was taken
      out of stays in use as long as a thief is copying. */
  function Took(x: Worker): Worker {
    if x.lifo then x.(lifo := false)
    else x.(ring := if x.ring > 0 then x.ring - 1 else 0, kept := if x.kept > 0 then x.kept + 1 else 0)
  }

  /** A worker with a task of its own runs it four steps later. */
  lemma {:induction false} OwnTaskRuns(s: State, w: nat)
    requires AtLoop(s, w) && s.workers[w].pc == Top && s.workers[w].HasTask()
    ensures Runs(s, Alone(s, w, Gos(4)), w, Took(s.workers[w]), s.global)
  {
    hide Step, Gets, Runs, Alone;
    ComesToTake(s, w);
    var s2, x := Move(s, w, TakingLocal(false)), s.workers[w];
    StepTake(s2, w);
    var s3 := Found(s, w, Took(x), s.global);
    assert TakeStep(s2, w, Go) == s3;
    GetsGo(s, w, 2, s2, s3);
    FoundRuns(s, s, w, Gos(3), Took(x), s.global);
    assert Gos(3) + [Go] == Gos(4);
  }

  lemma StepAmount(s: State, w: nat, c: Choice)
    requires AtLoop(s, w) && PartOf(s.workers[w].pc) == Take
    ensures Step(s, w, c) == TakeStep(s, w, c)
  {
    hide PollStep, ArriveStep, TakeStep, SearchStep, RunStep, LeaveStep, WakeStep, NoteStep;
  }

  lemma BatchIs(s: State, w: nat, n: nat)
    requires AtLoop(s, w) && 0 < n <= s.global
    ensures var s1, s2 := Move(s, w, TakingGlobal(true)), Move(s, w, Batching(n - 1)).(global := s.global - n);
      && (n == 1 ==> TakeStep(s1, w, Go) == s2)
      && TakeStep(s2, w, Go) ==
         SetWorker(s, w, s.workers[w].(pc := Starting, ring := s.workers[w].ring + n - 1)).(global := s.global - n)
  {
  }

  /** At the interval the worker runs a task of the global queue first, whatever it has itself. */
  lemma {:induction false} GlobalFirstAtInterval(s: State, w: nat)
    requires AtLoop(s, w) && s.workers[w].pc == Top && s.global > 0
    ensures Runs(s, Alone(s, w, [Go, Interval] + Gos(3)), w, s.workers[w], s.global - 1)
  {
    hide Step, TakeStep, Gets, Runs, Alone;
    BatchIs(s, w, 1);
    ComesToTake(s, w);
    var s2, x := Move(s, w, TakingGlobal(true)), s.workers[w];
    GetsNothing(s2, w);
    StepTake(s2, w);
    var s3 := Move(s, w, Batching(0)).(global := s.global - 1);
    GetsGo(s2, w, 0, s2, s3);
    StepTake(s3, w);
    var s4 := Found(s, w, x, s.global - 1);
    assert x.(ring := x.ring + 0) == x;
    GetsGo(s2, w, 1, s3, s4);
    GetsMore(s, w, [Go, Interval], s2, Gos(2), s4);
    FoundRuns(s, s, w, [Go, Interval] + Gos(2), x, s.global - 1);
    assert [Go, Interval] + Gos(2) + [Go] == [Go, Interval] + Gos(3);
  }

  /** With an empty global queue the interval makes no difference. */
  lemma {:induction false} OwnTaskAtInterval(s: State, w: nat)
    requires AtLoop(s, w) && s.workers[w].pc == Top && s.global == 0 && s.workers[w].HasTask()
    ensures Runs(s, Alone(s, w, [Go, Interval] + Gos(3)), w, Took(s.workers[w]), 0)
  {
    hide Step, Gets, Runs, Alone;
    ComesToTake(s, w);
    var s2, x := Move(s, w, TakingGlobal(true)), s.workers[w];
    GetsNothing(s2, w);
    StepTake(s2, w);
    var s3 := Move(s, w, TakingLocal(true));
    assert TakeStep(s2, w, Go) == s3;
    GetsGo(s2, w, 0, s2, s3);
    StepTake(s3, w);
    var s4 := Found(s, w, Took(x), 0);
    assert TakeStep(s3, w, Go) == s4;
    GetsGo(s2, w, 1, s3, s4);
    GetsMore(s, w, [Go, Interval], s2, Gos(2), s4);
    FoundRuns(s, s, w, [Go, Interval] + Gos(2), Took(x), 0);
    assert [Go, Interval] + Gos(2) + [Go] == [Go, Interval] + Gos(3);
  }

  /** At the interval, too, a worker that finds nothing goes on to search. */
  lemma {:induction false} NothingAtInterval(s: State, w: nat)
    requires AtLoop(s, w) && s.workers[w].pc == Top && s.global == 0 && !s.workers[w].HasTask()
    ensures Gets(s, w, [Go, Interval] + Gos(2), Move(s, w, Electing))
  {
    hide Step, Gets;
    ComesToTake(s, w);
    var s2 := Move(s, w, TakingGlobal(true));
    GetsNothing(s2, w);
    StepTake(s2, w);
    var s3 := Move(s, w, TakingLocal(true));
    assert TakeStep(s2, w, Go) == s3;
    GetsGo(s2, w, 0, s2, s3);
    StepTake(s3, w);
    assert TakeStep(s3, w, Go) == Move(s, w, Electing);
    GetsGo(s2, w, 1, s3, Move(s, w, Electing));
    GetsMore(s, w, [Go, Interval], s2, Gos(2), Move(s, w, Electing));
  }

  /** How many tasks are pulled out of the global queue if `n` are asked for: no more than there are, than half a
      ring and than there is room for; else one. */
  function Pulled(x: Worker, global: nat, n: nat): nat {
    if 0 < n <= global && n <= Ring.CAPACITY / 2 && x.Used() + n <= Ring.CAPACITY then n else 1
  }

  /** A worker without a task of its own takes a batch from the global queue, keeps all but one in its ring and runs
      that one. */
  lemma {:induction false} GlobalTaskRuns(s: State, w: nat, n: nat)
    requires AtLoop(s, w) && s.workers[w].pc == Top && !s.workers[w].HasTask() && s.global > 0
    ensures var x, m := s.workers[w], Pulled(s.workers[w], s.global, n);
      m <= s.global
      && Runs(s, Alone(s, w, Gos(3) + [Amount(n)] + Gos(2)), w, x.(ring := x.ring + m - 1), s.global - m)
  {
    hide Step, Gets, Runs, Alone;
    ComesToTake(s, w);
    var s2, x, m := Move(s, w, TakingLocal(false)), s.workers[w], Pulled(s.workers[w], s.global, n);
    StepTake(s2, w);
    var s3 := Move(s, w, TakingGlobal(false));
    assert TakeStep(s2, w, Go) == s3;
    GetsGo(s, w, 2, s2, s3);
    PullsBatch(s, w, n);
    var s5 := Found(s, w, x.(ring := x.ring + m - 1), s.global - m);
    GetsMore(s, w, Gos(3), s3, [Amount(n), Go], s5);
    FoundRuns(s, s, w, Gos(3) + [Amount(n), Go], x.(ring := x.ring + m - 1), s.global - m);
    assert Gos(3) + [Amount(n), Go] + [Go] == Gos(3) + [Amount(n)] + Gos(2);
  }

  lemma {:induction false} PullsBatch(s: State, w: nat, n: nat)
    requires AtLoop(s, w) && s.global > 0
    ensures var x, m := s.workers[w], Pulled(s.workers[w], s.global, n);
      m <= s.global
      && Gets(Move(s, w, TakingGlobal(false)), w, [Amount(n), Go],
              SetWorker(s, w, x.(pc := Starting, ring := x.ring + m - 1)).(global := s.global - m))
  {
    hide Step;
    var s3, x, m := Move(s, w, TakingGlobal(false)), s.workers[w], Pulled(s.workers[w], s.global, n);
    var s4 := Move(s, w, Batching(m - 1)).(global := s.global - m);
    GetsNothing(s3, w);
    StepAmount(s3, w, Amount(n));
    assert TakeStep(s3, w, Amount(n)) == s4;
    GetsOne(s3, w, Gos(0), s3, Amount(n), s4);
    StepTake(s4, w);
    var s5 := SetWorker(s, w, x.(pc := Starting, ring := x.ring + m - 1)).(global := s.global - m);
    assert TakeStep(s4, w, Go) == s5;
    GetsOne(s3, w, Gos(0) + [Amount(n)], s4, Go, s5);
    assert Gos(0) + [Amount(n)] + [Go] == [Amount(n), Go];
  }

  // ----- searching

  /** A worker with nothing to run becomes a searcher, unless half of the workers search already. */
  lemma {:induction false} ComesToElection(s: State, w: nat)
    requires AtLoop(s, w) && s.workers[w].pc == Top && !s.workers[w].HasTask() && s.global == 0
    ensures Gets(s, w, Gos(4), Move(s, w, Electing))
  {
    hide Step;
    ComesToTake(s, w);
    var s2 := Move(s, w, TakingLocal(false));
    StepTake(s2, w);
    var s3 := Move(s, w, TakingGlobal(false));
    assert TakeStep(s2, w, Go) == s3;
    GetsGo(s, w, 2, s2, s3);
    StepTake(s3, w);
    assert TakeStep(s3, w, Go) == Move(s, w, Electing);
    GetsGo(s, w, 3, s3, Move(s, w, Electing));
  }

  predicate Refused(s: State, w: nat)
    requires w < |s.workers|
  {
    !s.workers[w].searching && 2 * NumSearching(s.word) >= |s.workers|
  }

  function StepsToSearch(x: Worker): nat {
    if x.searching then 5 else 6
  }

  /** The state in which the worker is a searcher. */
  function Elected(s: State, w: nat): State
    requires w < |s.workers|
  {
    SetWorker(s, w, s.workers[w].(pc := Scanning, searching := true))
    .(word := if s.workers[w].searching then s.word else IncSearching(s.word))
  }

  lemma {:induction false} ElectionAlone(s: State, w: nat)
    requires AtLoop(s, w) && s.workers[w].pc == Top && !s.workers[w].HasTask() && s.global == 0
    ensures if Refused(s, w) then
              Gets(s, w, Gos(5), SetWorker(s, w, s.workers[w].(pc := Polling(true), blind := true)))
            else Gets(s, w, Gos(StepsToSearch(s.workers[w])), Elected(s, w))
  {
    hide Step, NumSearching, IncSearching, Gets;
    ComesToElection(s, w);
    var s4 := Move(s, w, Electing);
    StepSearch(s4, w, Go);
    var s5 := SearchStep(s4, w, Go);
    GetsGo(s, w, 4, s4, s5);
    if Refused(s, w) {
      assert s5 == SetWorker(s, w, s.workers[w].(pc := Polling(true), blind := true));
    } else if s.workers[w].searching {
      assert s.workers[w].(pc := Scanning, searching := true) == s.workers[w].(pc := Scanning);
      assert s5 == Elected(s, w);
    } else {
      assert s5 == Move(s, w, Joining);
      StepSearch(s5, w, Go);
      assert SearchStep(s5, w, Go) == Elected(s, w);
      GetsGo(s, w, 5, s5, Elected(s, w));
    }
  }

  /** What a thief takes leaves the ring of its victim; the claim is over. */
  function Robbed(s: State, victim: nat, n: nat): State
    requires victim < |s.workers| && n <= s.workers[victim].ring
  {
    SetWorker(s, victim, s.workers[victim].(ring := s.workers[victim].ring - n, kept := 0))
  }

  lemma {:induction false} HaulAlone(s: State, w: nat, victim: nat, n: nat)
    requires AtLoop(s, w) && s.workers[w].pc == Scanning
    requires victim < |s.workers| && victim != w && MayClaim(s.workers[w], s.workers[victim], n)
    ensures var x := s.workers[w];
      Gets(s, w, [Steal(victim, n)] + Gos(2),
           SetWorker(Robbed(s, victim, n), w, x.(pc := Starting, ring := x.ring + n - 1)))
  {
    hide Step, NumSearching, IncSearching, Gets, SearchStep;
    var x, v := s.workers[w], s.workers[victim];
    GetsNothing(s, w);
    StepSearch(s, w, Steal(victim, n));
    var s1 := SetWorker(SetWorker(s, victim, v.(ring := v.ring - n, kept := n)), w, x.(pc := Copying(victim, n)));
    ClaimIs(s, w, victim, n);
    GetsOne(s, w, Gos(0), s, Steal(victim, n), s1);
    StepSearch(s1, w, Go);
    var s2 := SetWorker(Robbed(s, victim, n), w, x.(pc := Publishing(n - 1)));
    CopyIs(s, w, victim, n);
    GetsOne(s, w, Gos(0) + [Steal(victim, n)], s1, Go, s2);
    StepSearch(s2, w, Go);
    var s3 := SetWorker(Robbed(s, victim, n), w, x.(pc := Starting, ring := x.ring + n - 1));
    PublishIs(s2, w, n - 1);
    assert s2.workers[w := s3.workers[w]] == s3.workers;
    GetsOne(s, w, Gos(0) + [Steal(victim, n)] + [Go], s2, Go, s3);
    assert Gos(0) + [Steal(victim, n)] + [Go] + [Go] == [Steal(victim, n)] + Gos(2);
  }

  lemma ClaimIs(s: State, w: nat, victim: nat, n: nat)
    requires AtLoop(s, w) && s.workers[w].pc == Scanning
    requires victim < |s.workers| && victim != w && MayClaim(s.workers[w], s.workers[victim], n)
    ensures var x, v := s.workers[w], s.workers[victim];
      SearchStep(s, w, Steal(victim, n)) ==
      SetWorker(SetWorker(s, victim, v.(ring := v.ring - n, kept := n)), w, x.(pc := Copying(victim, n)))
  {
  }

  lemma PublishIs(s: State, w: nat, rest: nat)
    requires AtLoop(s, w) && s.workers[w].pc == Publishing(rest)
    ensures SearchStep(s, w, Go) == SetWorker(s, w, s.workers[w].(pc := Starting, ring := s.workers[w].ring + rest))
  {
  }

  lemma CopyIs(s: State, w: nat, victim: nat, n: nat)
    requires AtLoop(s, w)
    requires victim < |s.workers| && victim != w && MayClaim(s.workers[w], s.workers[victim], n)
    ensures var x, v := s.workers[w], s.workers[victim];
      var s1 := SetWorker(SetWorker(s, victim, v.(ring := v.ring - n, kept := n)), w, x.(pc := Copying(victim, n)));
      Shaped(s1) && SearchStep(s1, w, Go) == SetWorker(Robbed(s, victim, n), w, x.(pc := Publishing(n - 1)))
  {
    hide NumSearching, IncSearching;
    var x, v := s.workers[w], s.workers[victim];
    var s1 := SetWorker(SetWorker(s, victim, v.(ring := v.ring - n, kept := n)), w, x.(pc := Copying(victim, n)));
    assert SearchStep(s1, w, Go).workers == Robbed(s, victim, n).workers[w := x.(pc := Publishing(n - 1))];
  }

  /** A worker that is not refused and finds somebody to steal from takes `n` tasks, keeps all but one in its ring and
      runs that one. */
  lemma {:induction false} StolenTaskRuns(s: State, w: nat, victim: nat, n: nat)
    requires AtLoop(s, w) && s.workers[w].pc == Top && !s.workers[w].HasTask() && s.global == 0 && !Refused(s, w)
    requires victim < |s.workers| && victim != w
    requires s.workers[w].Used() <= Ring.CAPACITY / 2
    requires var v := s.workers[victim]; v.kept == 0 && 0 < n <= v.ring - v.ring / 2
    ensures var x := s.workers[w];
      Runs(Robbed(Elected(s, w), victim, n), Alone(s, w, Gos(StepsToSearch(x)) + [Steal(victim, n)] + Gos(3)), w,
           x.(ring := x.ring + n - 1, searching := true), 0)
  {
    hide Step, NumSearching, IncSearching, DecSearching, Gets, Runs, Alone;
    var x, k := s.workers[w], StepsToSearch(s.workers[w]);
    ElectionAlone(s, w);
    var s1 := Elected(s, w);
    HaulAlone(s1, w, victim, n);
    var y := x.(ring := x.ring + n - 1, searching := true);
    var s2 := Found(Robbed(s1, victim, n), w, y, 0);
    GetsMore(s, w, Gos(k), s1, [Steal(victim, n)] + Gos(2), s2);
    FoundRuns(Robbed(s1, victim, n), s, w, Gos(k) + ([Steal(victim, n)] + Gos(2)), y, 0);
    assert Gos(k) + ([Steal(victim, n)] + Gos(2)) + [Go] == Gos(k) + [Steal(victim, n)] + Gos(3);
  }

  /** A searcher that can steal nothing runs a task of the global queue if one has come in meanwhile. */
  lemma {:induction false} SearchFindsGlobal(s: State, w: nat)
    requires AtLoop(s, w) && s.workers[w].pc == Scanning && s.global > 0
    ensures Runs(s, Alone(s, w, Gos(3)), w, s.workers[w], s.global - 1)
  {
    hide Step, Gets, Runs, Alone, NumSearching, IncSearching;
    GetsNothing(s, w);
    StepSearch(s, w, Go);
    var s1, s2 := Move(s, w, ScanningGlobal), Found(s, w, s.workers[w], s.global - 1);
    assert SearchStep(s, w, Go) == s1;
    GetsGo(s, w, 0, s, s1);
    StepTake(s1, w);
    assert TakeStep(s1, w, Go) == s2;
    GetsGo(s, w, 1, s1, s2);
    FoundRuns(s, s, w, Gos(2), s.workers[w], s.global - 1);
    assert Gos(2) + [Go] == Gos(3);
  }

  /** A searcher that finds nothing to steal and nothing in the global queue comes to the last poll. */
  lemma {:induction false} SearchInVain(s: State, w: nat)
    requires AtLoop(s, w) && s.workers[w].pc == Top && !s.workers[w].HasTask() && s.global == 0 && !Refused(s, w)
    ensures var x := s.workers[w];
      Gets(s, w, Gos(StepsToSearch(x) + 2), Move(Elected(s, w), w, Polling(true)))
  {
    hide Step, NumSearching, IncSearching, Gets;
    var k, s1 := StepsToSearch(s.workers[w]), Elected(s, w);
    ElectionAlone(s, w);
    StepSearch(s1, w, Go);
    var s2 := Move(s1, w, ScanningGlobal);
    assert SearchStep(s1, w, Go) == s2;
    GetsGo(s, w, k, s1, s2);
    StepTake(s2, w);
    var s3 := Move(s1, w, Polling(true));
    assert TakeStep(s2, w, Go) == s3;
    GetsGo(s, w, k + 1, s2, s3);
  }

  // ----- falling asleep

  predicate WasLast(s: State, w: nat)
    requires w < |s.workers|
  {
    s.workers[w].searching && NumSearching(s.word) == 1
  }

  /** The worker is counted out and listed among the sleepers; the last searcher is going to look around again. */
  function Listed(s: State, w: nat): State
    requires w < |s.workers|
  {
    var x := s.workers[w];
    SetWorker(s, w, x.(pc := if WasLast(s, w) then Looking(0) else Waiting, searching := false, blind := false))
    .(word := DecWorking(s.word, x.searching), sleepers := s.sleepers + {w}, lock := None)
  }

  /** After a last poll without events a worker with nothing to run is asleep five steps later, or looks around. */
  lemma {:induction false} FallsAsleepAlone(s: State, w: nat)
    requires AtLoop(s, w) && s.workers[w].pc == Polling(true) && !s.workers[w].HasTask() && s.lock == None
    ensures Gets(s, w, Gos(5), Listed(s, w))
  {
    hide Step, NumSearching, DecWorking, Gets;
    var x := s.workers[w];
    GetsNothing(s, w);
    StepPoll(s, w, Go);
    var s1 := Move(s, w, Leaving);
    assert PollStep(s, w, Go) == s1;
    GetsGo(s, w, 0, s, s1);
    StepLeave(s1, w);
    var s2 := Move(s, w, LeavingLock);
    assert LeaveStep(s1, w, Go) == s2;
    GetsGo(s, w, 1, s1, s2);
    LeavesAlone(s, w);
    GetsMore(s, w, Gos(2), s2, Gos(3), Listed(s, w));
    assert Gos(2) + Gos(3) == Gos(5);
  }

  lemma {:induction false} LeavesAlone(s: State, w: nat)
    requires AtLoop(s, w) && s.lock == None
    ensures Gets(Move(s, w, LeavingLock), w, Gos(3), Listed(s, w))
  {
    hide Step, NumSearching, DecWorking, Gets;
    var x, s2 := s.workers[w], Move(s, w, LeavingLock);
    GetsNothing(s2, w);
    StepLeave(s2, w);
    var s3 := Move(s, w, LeavingCount).(lock := Some(w));
    assert LeaveStep(s2, w, Go) == s3;
    GetsGo(s2, w, 0, s2, s3);
    StepLeave(s3, w);
    var s4 := SetWorker(s, w, x.(pc := Entering(WasLast(s, w)), searching := false, blind := false))
              .(word := DecWorking(s.word, x.searching), lock := Some(w));
    assert LeaveStep(s3, w, Go) == s4;
    GetsGo(s2, w, 1, s3, s4);
    StepLeave(s4, w);
    assert LeaveStep(s4, w, Go) == Listed(s, w);
    GetsGo(s2, w, 2, s4, Listed(s, w));
  }

  /** With a task that the last poll brought the worker goes on instead. */
  lemma {:induction false} LastPollFinds(s: State, w: nat)
    requires AtLoop(s, w) && s.workers[w].pc == Leaving && s.workers[w].HasTask()
    ensures Step(s, w, Go) == SetWorker(s, w, s.workers[w].(pc := Top, blind := false))
  {
    hide Step;
    StepLeave(s, w);
  }

  /** The first worker from `next` on with a task in its ring. */
  function FirstBusy(workers: seq<Worker>, next: nat): (f: nat)
    requires next <= |workers|
    ensures next <= f <= |workers| && (f < |workers| ==> workers[f].ring > 0)
    ensures forall v :: next <= v < f ==> workers[v].ring == 0
    decreases |workers| - next
  {
    if next == |workers| || workers[next].ring > 0 then next else FirstBusy(workers, next + 1)
  }

  /** The last searcher has looked at every queue: it wakes the first worker that has tasks, or starts a wake-up if
      there are tasks in the global queue, and sleeps. */
  function LookedAround(s: State, w: nat, f: nat): State
    requires w < |s.workers| <= |s.notes|
  {
    if f < |s.workers| then Move(SetWorker(s, f, s.workers[f].(token := true)), w, Waiting)
    else if s.global > 0 then SetNote(Move(s, w, Waiting), w, Asking)
    else Move(s, w, Waiting)
  }

  lemma {:induction false} LooksAround(s: State, w: nat, next: nat)
    requires AtLoop(s, w) && s.workers[w].pc == Looking(next) && next <= |s.workers|
    ensures var f := FirstBusy(s.workers, next);
      Gets(s, w, Gos(f - next + if f < |s.workers| then 2 else 1), LookedAround(s, w, f))
    decreases |s.workers| - next
  {
    hide Step, Gets;
    GetsNothing(s, w);
    StepLeave(s, w);
    var s1 := LeaveStep(s, w, Go);
    GetsGo(s, w, 0, s, s1);
    if next < |s.workers| && s.workers[next].ring > 0 {
      NudgeIs(s, w, next);
      StepLeave(s1, w);
      GetsGo(s, w, 1, s1, LookedAround(s, w, next));
    } else if next < |s.workers| {
      LooksAround(s1, w, next + 1);
      LooksFurther(s, w, next);
    }
  }

  lemma {:induction false} LooksFurther(s: State, w: nat, next: nat)
    requires AtLoop(s, w) && next < |s.workers| && s.workers[next].ring == 0
    requires Gets(s, w, Gos(1), Move(s, w, Looking(next + 1)))
    requires var s1 := Move(s, w, Looking(next + 1));
      var f := FirstBusy(s1.workers, next + 1);
      Gets(s1, w, Gos(f - next - 1 + if f < |s.workers| then 2 else 1), LookedAround(s1, w, f))
    ensures var f := FirstBusy(s.workers, next);
      Gets(s, w, Gos(f - next + if f < |s.workers| then 2 else 1), LookedAround(s, w, f))
  {
    hide Step, Gets;
    var s1, f := Move(s, w, Looking(next + 1)), FirstBusy(s.workers, next);
    BusySame(s.workers, w, Looking(next + 1), next + 1);
    LookedSame(s, w, next + 1, f);
    var k := f - next - 1 + if f < |s.workers| then 2 else 1;
    GetsMore(s, w, Gos(1), s1, Gos(k), LookedAround(s, w, f));
    assert Gos(1) + Gos(k) == Gos(k + 1);
  }

  lemma NudgeIs(s: State, w: nat, f: nat)
    requires AtLoop(s, w) && f < |s.workers|
    ensures LeaveStep(Move(s, w, Nudging(f)), w, Go) == LookedAround(s, w, f)
  {
    assert LeaveStep(Move(s, w, Nudging(f)), w, Go).workers == LookedAround(s, w, f).workers;
  }

  lemma LookedSame(s: State, w: nat, next: nat, f: nat)
    requires AtLoop(s, w) && f <= |s.workers|
    ensures LookedAround(Move(s, w, Looking(next)), w, f) == LookedAround(s, w, f)
  {
    assert LookedAround(Move(s, w, Looking(next)), w, f).workers == LookedAround(s, w, f).workers;
  }

  lemma {:induction false} BusySame(workers: seq<Worker>, w: nat, pc: Pc, next: nat)
    requires w < |workers| && next <= |workers|
    ensures FirstBusy(workers[w := workers[w].(pc := pc)], next) == FirstBusy(workers, next)
    decreases |workers| - next
  {
    if next < |workers| {
      BusySame(workers, w, pc, next + 1);
    }
  }

  // ----- waking another

  /** A sleeper is picked, counted as working and searching, taken from the list and given its token. */
  function Roused(s: State, a: nat, target: nat): State
    requires a < |s.notes| && target < |s.workers|
  {
    SetNote(SetWorker(s, target, s.workers[target].(token := true)), a, Silent)
    .(word := WakeUpOne(s.word, 1), sleepers := s.sleepers - {target})
  }

  /** A wake-up with the lock free: one sleeper is woken if nobody searches and not all work, otherwise nothing
      happens. */
  lemma {:induction false} NotifyAlone(s: State, a: nat, target: nat)
    requires Shaped(s) && a < |s.notes| && s.notes[a] == Asking && s.lock == None
    requires target < |s.workers| && target in s.sleepers
    ensures if NumSearching(s.word) == 0 && NumWorking(s.word) < |s.workers| then
              Gets(s, a, Gos(4) + [Pick(target), Go], Roused(s, a, target))
            else Gets(s, a, Gos(1), SetNote(s, a, Silent))
  {
    hide Step, ShouldWake, WakeUpOne, Gets;
    WakesWhen(s);
    GetsNothing(s, a);
    StepNote(s, a, Go);
    var s1 := NoteStep(s, a, Go);
    GetsGo(s, a, 0, s, s1);
    if ShouldWake(s) {
      StepNote(s1, a, Go);
      var s2 := SetNote(s, a, Confirming).(lock := Some(a));
      assert NoteStep(s1, a, Go) == s2;
      GetsGo(s, a, 1, s1, s2);
      AsksAgain(s, a);
      StepNote(s2, a, Go);
      var s3 := SetNote(s, a, Counting).(lock := Some(a));
      assert NoteStep(s2, a, Go) == s3;
      GetsGo(s, a, 2, s2, s3);
      StepNote(s3, a, Go);
      var s4 := SetNote(s, a, Picking).(lock := Some(a), word := WakeUpOne(s.word, 1));
      assert NoteStep(s3, a, Go) == s4;
      GetsGo(s, a, 3, s3, s4);
      PickAlone(s, a, target);
      GetsMore(s, a, Gos(4), s4, [Pick(target), Go], Roused(s, a, target));
    }
  }

  /** In every run: exactly if nobody searches or is picked to. */
  lemma {:induction false} NotifyInRun(states: seq<State>, moves: seq<Event>, i: nat, a: nat, target: nat)
    requires Run(states, moves) && i < |states| && a < |states[i].notes| && states[i].notes[a] == Asking
    requires states[i].lock == None && target < |states[i].workers| && target in states[i].sleepers
    ensures if Searchers(states[i]) == {} then
              Alone(states[i], a, Gos(4) + [Pick(target), Go]) == Roused(states[i], a, target)
            else Alone(states[i], a, Gos(1)) == SetNote(states[i], a, Silent)
  {
    hide Run, Alone, Faithful, Searchers, NumSearching, NumWorking, WakeUpOne, Inv;
    RunInv(states, moves, i, false);
    ShapedInside(states[i]);
    WordIsFaithful(states, moves, i);
    NotifyAlone(states[i], a, target);
    assert states[i].sleepers != {};
  }

  lemma ShapedInside(s: State)
    requires Inv(s, false)
    ensures Shaped(s)
  {
  }

  lemma WakesWhen(s: State)
    ensures ShouldWake(s) <==> NumSearching(s.word) == 0 && NumWorking(s.word) < |s.workers|
  {
    hide NumSearching, NumWorking;
  }

  lemma AsksAgain(s: State, a: nat)
    requires a < |s.notes|
    ensures ShouldWake(SetNote(s, a, Confirming).(lock := Some(a))) == ShouldWake(s)
  {
    hide NumSearching, NumWorking;
  }

  lemma {:induction false} PickAlone(s: State, a: nat, target: nat)
    requires Shaped(s) && a < |s.notes| && s.lock == None
    requires target < |s.workers| && target in s.sleepers
    ensures Gets(SetNote(s, a, Picking).(lock := Some(a), word := WakeUpOne(s.word, 1)), a, [Pick(target), Go],
                 Roused(s, a, target))
  {
    hide Step, WakeUpOne, Gets;
    var s4 := SetNote(s, a, Picking).(lock := Some(a), word := WakeUpOne(s.word, 1));
    GetsNothing(s4, a);
    StepNote(s4, a, Pick(target));
    var s5 := SetNote(s, a, Waking(target)).(word := WakeUpOne(s.word, 1), sleepers := s.sleepers - {target});
    assert NoteStep(s4, a, Pick(target)) == s5;
    GetsOne(s4, a, Gos(0), s4, Pick(target), s5);
    StepNote(s5, a, Go);
    assert NoteStep(s5, a, Go) == Roused(s, a, target);
    GetsOne(s4, a, Gos(0) + [Pick(target)], s5, Go, Roused(s, a, target));
    assert Gos(0) + [Pick(target)] + [Go] == [Pick(target), Go];
  }

  // ----- arrivals

  /** One more task is in the worker's ring; or, with the ring full, half of it is in the global queue with that task,
      or only that task while a thief is copying. */
  function Pushed(s: State, w: nat, pc: Pc): State
    requires w < |s.workers|
  {
    var x := s.workers[w];
    if x.Used() < Ring.CAPACITY then SetWorker(s, w, x.(pc := pc, ring := x.ring + 1))
    else if x.kept > 0 then Move(s, w, pc).(global := s.global + 1)
    else SetWorker(s, w, x.(pc := pc, ring := Ring.CAPACITY / 2)).(global := s.global + Ring.CAPACITY / 2 + 1)
  }

  lemma {:induction false} PushAlone(s: State, w: nat, src: Source, todo: nat)
    requires AtLoop(s, w) && s.workers[w].pc == Arriving(src, todo) && todo > 0
    requires s.workers[w].Used() <= Ring.CAPACITY
    ensures var x := s.workers[w];
      Gets(s, w, Gos(if x.Used() == Ring.CAPACITY && x.kept == 0 then 3 else 2), Pushed(s, w, Arriving(src, todo - 1)))
  {
    hide Step, Gets;
    var x := s.workers[w];
    GetsNothing(s, w);
    StepArrive(s, w);
    if x.Used() < Ring.CAPACITY {
      var s1 := Move(s, w, Storing(src, todo));
      assert ArriveStep(s, w, Go) == s1;
      GetsGo(s, w, 0, s, s1);
      StepArrive(s1, w);
      GetsGo(s, w, 1, s1, Pushed(s, w, Arriving(src, todo - 1)));
    } else if x.kept > 0 {
      var s1 := Move(s, w, Spilling(src, todo, 1));
      assert ArriveStep(s, w, Go) == s1;
      GetsGo(s, w, 0, s, s1);
      StepArrive(s1, w);
      GetsGo(s, w, 1, s1, Pushed(s, w, Arriving(src, todo - 1)));
    } else {
      HalvesAlone(s, w, src, todo);
    }
  }

  lemma {:induction false} HalvesAlone(s: State, w: nat, src: Source, todo: nat)
    requires AtLoop(s, w) && s.workers[w].pc == Arriving(src, todo) && todo > 0
    requires s.workers[w].ring == Ring.CAPACITY && s.workers[w].kept == 0
    ensures Gets(s, w, Gos(3), Pushed(s, w, Arriving(src, todo - 1)))
  {
    hide Step, Gets;
    var x := s.workers[w];
    GetsNothing(s, w);
    StepArrive(s, w);
    var s1 := Move(s, w, Halving(src, todo));
    assert ArriveStep(s, w, Go) == s1;
    GetsGo(s, w, 0, s, s1);
    StepArrive(s1, w);
    var s2 := SetWorker(s, w, x.(pc := Spilling(src, todo, Ring.CAPACITY / 2 + 1), ring := Ring.CAPACITY / 2));
    assert ArriveStep(s1, w, Go) == s2;
    GetsGo(s, w, 1, s1, s2);
    StepArrive(s2, w);
    assert ArriveStep(s2, w, Go) == Pushed(s, w, Arriving(src, todo - 1));
    GetsGo(s, w, 2, s2, Pushed(s, w, Arriving(src, todo - 1)));
  }

  /** Everything that arrives is pushed, as long as there is room. */
  lemma {:induction false} AllPushed(s: State, w: nat, src: Source, todo: nat)
    requires AtLoop(s, w) && s.workers[w].pc == Arriving(src, todo)
    requires s.workers[w].Used() + todo <= Ring.CAPACITY
    ensures var x := s.workers[w];
      Gets(s, w, Gos(2 * todo), SetWorker(s, w, x.(pc := Arriving(src, 0), ring := x.ring + todo)))
    decreases todo
  {
    hide Step, Gets;
    var x := s.workers[w];
    if todo == 0 {
      GetsNothing(s, w);
      assert s.workers[w := x] == s.workers;
    } else {
      PushAlone(s, w, src, todo);
      var s1 := SetWorker(s, w, x.(pc := Arriving(src, todo - 1), ring := x.ring + 1));
      AllPushed(s1, w, src, todo - 1);
      var t := SetWorker(s, w, x.(pc := Arriving(src, 0), ring := x.ring + todo));
      assert SetWorker(s1, w, t.workers[w]) == t;
      GetsMore(s, w, Gos(2), s1, Gos(2 * (todo - 1)), t);
      assert Gos(2) + Gos(2 * (todo - 1)) == Gos(2 * todo);
    }
  }

  /** The poll, and everything it brought is pushed. */
  lemma {:induction false} Arrives(s: State, w: nat, c: Choice, y: Worker, src: Source, todo: nat)
    requires AtLoop(s, w) && y.Used() + todo <= Ring.CAPACITY
    requires Step(s, w, c) == SetWorker(s, w, y.(pc := Arriving(src, todo)))
    ensures Gets(s, w, [c] + Gos(2 * todo), SetWorker(s, w, y.(pc := Arriving(src, 0), ring := y.ring + todo)))
  {
    hide Step, Gets;
    var s1 := SetWorker(s, w, y.(pc := Arriving(src, todo)));
    var s2 := SetWorker(s, w, y.(pc := Arriving(src, 0), ring := y.ring + todo));
    GetsNothing(s, w);
    GetsOne(s, w, Gos(0), s, c, s1);
    assert Gos(0) + [c] == [c];
    AllPushed(s1, w, src, todo);
    assert SetWorker(s1, w, s2.workers[w]) == s2;
    GetsMore(s, w, [c], s1, Gos(2 * todo), s2);
  }

  lemma StepAfterPoll(s: State, w: nat, src: Source)
    requires AtLoop(s, w) && s.workers[w].pc == Arriving(src, 0) && src != Spawn
    ensures Gets(s, w, Gos(1), Move(s, w, Onward(src)))
  {
    hide Step, Gets;
    GetsNothing(s, w);
    StepArrive(s, w);
    GetsGo(s, w, 0, s, Move(s, w, Onward(src)));
  }

  /** A poll that finds `count` completions: when they are in the ring, a worker that does not search and has more than
      one task asks whether another should be woken, and goes on. */
  lemma {:induction false} PollAlone(s: State, w: nat, last: bool, count: nat, consumed: bool)
    requires AtLoop(s, w) && s.workers[w].pc == Polling(last) && s.workers[w].Used() + count <= Ring.CAPACITY
    ensures var x := s.workers[w];
      var t := SetWorker(s, w, x.(pc := if last then Top else NextTask, blind := false, ring := x.ring + count,
                                  token := x.token && !consumed));
      Gets(s, w, [Events(count, consumed)] + Gos(2 * count + 2),
           if !x.searching && x.ring + count > 1 then SetNote(t, w, Asking) else t)
  {
    hide Step, Gets;
    var x, src := s.workers[w], if last then LastPoll else Upkeep;
    var y := x.(blind := false, token := x.token && !consumed);
    StepPoll(s, w, Events(count, consumed));
    Arrives(s, w, Events(count, consumed), y, src, count);
    var s2 := SetWorker(s, w, y.(pc := Arriving(src, 0), ring := x.ring + count));
    TellsAlone(s2, w, last);
    var t := PollStep(Move(s2, w, Telling(last)), w, Go);
    var t2 := SetWorker(s, w, s2.workers[w].(pc := if last then Top else NextTask));
    assert Move(s2, w, if last then Top else NextTask) == t2;
    GetsMore(s, w, [Events(count, consumed)] + Gos(2 * count), s2, Gos(2), t);
    assert [Events(count, consumed)] + Gos(2 * count) + Gos(2) == [Events(count, consumed)] + Gos(2 * count + 2);
  }

  /** A poll that finds nothing: the worker goes on to its tasks, or after the last poll to sleep. */
  lemma EmptyPoll(s: State, w: nat, last: bool)
    requires AtLoop(s, w) && s.workers[w].pc == Polling(last)
    ensures Step(s, w, Go) == Move(s, w, if last then Leaving else NextTask)
  {
    hide Step;
    StepPoll(s, w, Go);
  }

  lemma {:induction false} TellsAlone(s: State, w: nat, last: bool)
    requires AtLoop(s, w) && s.workers[w].pc == Arriving(if last then LastPoll else Upkeep, 0)
    ensures var t := Move(s, w, if last then Top else NextTask);
      var u := PollStep(Move(s, w, Telling(last)), w, Go);
      && u == (if !s.workers[w].searching && s.workers[w].ring > 1 then SetNote(t, w, Asking) else t)
      && Gets(s, w, Gos(2), u)
  {
    hide Step, Gets;
    var s1 := Move(s, w, Telling(last));
    StepAfterPoll(s, w, s.workers[w].pc.src);
    StepPoll(s1, w, Go);
    GetsGo(s, w, 1, s1, PollStep(s1, w, Go));
  }

  /** A task that the running task spawns is kept aside if nothing is, otherwise pushed, and then the worker asks
      whether another should be woken. */
  lemma {:induction false} SpawnAlone(s: State, w: nat)
    requires AtLoop(s, w) && s.workers[w].pc == Running && s.workers[w].Used() <= Ring.CAPACITY
    ensures var x := s.workers[w];
      if !x.lifo then Gets(s, w, [SpawnLocal], SetWorker(s, w, x.(lifo := true)))
      else Gets(s, w, [SpawnLocal] + Gos(if x.Used() == Ring.CAPACITY && x.kept == 0 then 4 else 3),
                SetNote(Pushed(s, w, Running), w, Asking))
  {
    hide Step, Gets;
    var x := s.workers[w];
    GetsNothing(s, w);
    StepSpawn(s, w);
    var s1 := RunStep(s, w, SpawnLocal);
    GetsOne(s, w, Gos(0), s, SpawnLocal, s1);
    assert Gos(0) + [SpawnLocal] == [SpawnLocal];
    if x.lifo {
      assert s1 == Move(s, w, Arriving(Spawn, 1));
      var k := if x.Used() == Ring.CAPACITY && x.kept == 0 then 3 else 2;
      PushAlone(s1, w, Spawn, 1);
      var s2 := Pushed(s, w, Arriving(Spawn, 0));
      assert Pushed(s1, w, Arriving(Spawn, 0)) == s2;
      GetsMore(s, w, [SpawnLocal], s1, Gos(k), s2);
      StepArrive(s2, w);
      var s3 := SetNote(Pushed(s, w, Running), w, Asking);
      assert ArriveStep(s2, w, Go) == s3;
      GetsOne(s, w, [SpawnLocal] + Gos(k), s2, Go, s3);
      assert [SpawnLocal] + Gos(k) + [Go] == [SpawnLocal] + Gos(k + 1);
    }
  }

  lemma StepSpawn(s: State, w: nat)
    requires AtLoop(s, w) && s.workers[w].pc == Running
    ensures Step(s, w, SpawnLocal) == RunStep(s, w, SpawnLocal)
  {
    hide PollStep, ArriveStep, TakeStep, SearchStep, RunStep, LeaveStep, WakeStep, NoteStep;
  }

  // ----- getting up

  /** A sleeper with tasks, or picked, gets up; listed and without tasks it waits on.  A picked one is a searcher;
      one that was not takes itself off the list and counts itself as working. */
  function Risen(s: State, w: nat): State
    requires w < |s.workers|
  {
    if w !in s.sleepers then SetWorker(s, w, s.workers[w].(pc := Top, searching := true))
    else if s.workers[w].HasTask() then
      Move(s, w, Top).(sleepers := s.sleepers - {w}, word := WakeUpOne(s.word, 0))
    else Move(s, w, Waiting)
  }

  lemma {:induction false} RisesAlone(s: State, w: nat)
    requires AtLoop(s, w) && s.workers[w].pc == Woken && s.lock == None
    ensures Gets(s, w, Gos(if s.workers[w].HasTask() && w in s.sleepers then 4 else 3), Risen(s, w))
  {
    hide Step, WakeUpOne, Gets;
    var x := s.workers[w];
    GetsNothing(s, w);
    StepWake(s, w, Go);
    var s1 := Move(s, w, if x.HasTask() then RejoinLock else ContainsLock);
    assert WakeStep(s, w, Go) == s1;
    GetsGo(s, w, 0, s, s1);
    if x.HasTask() {
      RejoinsAlone(s, w);
    } else {
      WaitsOn(s, w);
    }
    var k := if x.HasTask() && w in s.sleepers then 3 else 2;
    GetsMore(s, w, Gos(1), s1, Gos(k), Risen(s, w));
    assert Gos(1) + Gos(k) == Gos(k + 1);
  }

  lemma {:induction false} RejoinsAlone(s: State, w: nat)
    requires AtLoop(s, w) && s.workers[w].HasTask() && s.lock == None
    ensures Gets(Move(s, w, RejoinLock), w, Gos(if w in s.sleepers then 3 else 2), Risen(s, w))
  {
    hide Step, WakeUpOne, Gets;
    var s1 := Move(s, w, RejoinLock);
    GetsNothing(s1, w);
    StepWake(s1, w, Go);
    var s2 := Move(s, w, Rejoining).(lock := Some(w));
    assert WakeStep(s1, w, Go) == s2;
    GetsGo(s1, w, 0, s1, s2);
    StepWake(s2, w, Go);
    if w in s.sleepers {
      var s3 := Move(s, w, RejoinCount).(lock := Some(w), sleepers := s.sleepers - {w});
      assert WakeStep(s2, w, Go) == s3;
      GetsGo(s1, w, 1, s2, s3);
      StepWake(s3, w, Go);
      assert WakeStep(s3, w, Go) == Risen(s, w);
      GetsGo(s1, w, 2, s3, Risen(s, w));
    } else {
      assert WakeStep(s2, w, Go) == Risen(s, w);
      GetsGo(s1, w, 1, s2, Risen(s, w));
    }
  }

  lemma {:induction false} WaitsOn(s: State, w: nat)
    requires AtLoop(s, w) && !s.workers[w].HasTask() && s.lock == None
    ensures Gets(Move(s, w, ContainsLock), w, Gos(2), Risen(s, w))
  {
    hide Step, WakeUpOne, Gets;
    var s1 := Move(s, w, ContainsLock);
    GetsNothing(s1, w);
    StepWake(s1, w, Go);
    var s2 := Move(s, w, ContainsCheck).(lock := Some(w));
    assert WakeStep(s1, w, Go) == s2;
    GetsGo(s1, w, 0, s1, s2);
    StepWake(s2, w, Go);
    assert WakeStep(s2, w, Go) == Risen(s, w);
    GetsGo(s1, w, 1, s2, Risen(s, w));
  }

  /** Events end the sleep: with everything that arrived in its ring the worker gets up as above. */
  lemma {:induction false} EventsRouse(s: State, w: nat, count: nat, consumed: bool)
    requires AtLoop(s, w) && s.workers[w].pc == Waiting && s.workers[w].Used() + count <= Ring.CAPACITY
    ensures var x := s.workers[w];
      Gets(s, w, [Events(count, consumed)] + Gos(2 * count + 1),
           SetWorker(s, w, x.(pc := Woken, ring := x.ring + count, token := x.token && !consumed)))
  {
    hide Step, Gets;
    var x := s.workers[w];
    var y := x.(token := x.token && !consumed);
    StepWake(s, w, Events(count, consumed));
    Arrives(s, w, Events(count, consumed), y, InSleep, count);
    var s2 := SetWorker(s, w, y.(pc := Arriving(InSleep, 0), ring := x.ring + count));
    StepAfterPoll(s2, w, InSleep);
    GetsMore(s, w, [Events(count, consumed)] + Gos(2 * count), s2, Gos(1), Move(s2, w, Woken));
    assert Move(s2, w, Woken) == SetWorker(s, w, s2.workers[w].(pc := Woken));
    assert [Events(count, consumed)] + Gos(2 * count) + Gos(1) == [Events(count, consumed)] + Gos(2 * count + 1);
  }
}

/** When everything that came in is run, exactly: if no sleeper ever gets more completions at
    once than its ring has room for, or if there are at most two workers. */
module SleepingExact {
  import opened IdleWord
  import opened Wheel
  import opened Sleeping
  import opened SleepingInv
  import opened SleepingSafety
  import opened SleepingRoom
  import opened SleepingPair
  import opened SleepingBalance
  import SleepingLoss

  /** In every run of `n` workers and `m - n` outside threads, when everybody waits for good, all tasks that came in
      were run; with `roomy`, only the runs count in which the completions for a sleeper fit its ring. */
  ghost predicate LosesNothing(n: nat, m: nat, roomy: bool) {
    forall states, moves :: Run(states, moves) && Sized(states[0], n, m) && (roomy ==> RoomyRun(states, moves)) ==>
      forall i :: 0 <= i < |states| && Resting(states[i]) ==>
        WereRun(states, moves, i) == CameIn(states, moves, i)
  }

  predicate Sized(s: State, n: nat, m: nat) {
    |s.workers| == n && |s.notes| == m
  }

  function Beginning(n: nat, m: nat): State {
    State(Packed(n, 0), {}, None, 0, seq(n, _ => Worker(Top, false, false, false, 0, 0, false)), seq(m, _ => Silent))
  }

  lemma {:induction false} LosesNothingExactly(n: nat, m: nat, roomy: bool)
    requires 1 <= n <= m && n < UNIT
    ensures LosesNothing(n, m, roomy) <==> roomy || n <= 2
  {
    hide Resting, RoomyRun, Step, Packed, CameIn, WereRun;
    if roomy || n <= 2 {
      forall states, moves | Run(states, moves) && Sized(states[0], n, m) && (roomy ==> RoomyRun(states, moves))
        ensures forall i :: 0 <= i < |states| && Resting(states[i]) ==>
                  WereRun(states, moves, i) == CameIn(states, moves, i)
      {
        if roomy {
          RoomyNeverSpills(states, moves);
        } else {
          PairNeverLate(states, moves);
        }
        forall i | 0 <= i < |states| && Resting(states[i])
          ensures WereRun(states, moves, i) == CameIn(states, moves, i)
        {
          NeverRestsWithWork(states, moves, i);
        }
      }
    } else {
      var states, moves := SleepingLoss.WakeUpLost(Beginning(n, m));
      NeverRestsWithWork(states, moves, |moves|);
    }
  }
}

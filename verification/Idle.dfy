/** The counters and the set of sleepers as the scheduler keeps them.  The steps
    of module Sleeping take these methods apart into their atomic accesses; here
    they run without interference. */
module Idle {
  import opened IdleWord
  import opened Wheel

  class IdleState {
    var state: nat
    ghost var working: nat
    ghost var searching: nat

    ghost predicate Valid()
      reads this
    {
      Fits(working, searching) && state == Packed(working, searching)
    }

    constructor (numWorkers: nat)
      requires numWorkers < UNIT
      ensures Valid() && working == numWorkers && searching == 0
    {
      state := numWorkers * UNIT;
      working := numWorkers;
      searching := 0;
    }

    method NumWorkingAndSearching() returns (w: nat, s: nat)
      requires Valid()
      ensures w == working && s == searching
    {
      hide NumWorking, NumSearching, Packed;
      FieldsOf(working, searching);
      w, s := NumWorking(state), NumSearching(state);
    }

    method IncNumSearching()
      requires Valid() && searching + 1 < UNIT
      modifies this
      ensures Valid() && working == old(working) && searching == old(searching) + 1
    {
      hide NumWorking, NumSearching, IncSearching;
      IncSearchingFaithful(working, searching);
      state := IncSearching(state);
      searching := searching + 1;
    }

    /** True for the last searcher. */
    method DecNumSearching() returns (last: bool)
      requires Valid() && searching > 0 && working > 0
      modifies this
      ensures Valid() && working == old(working) && searching == old(searching) - 1
      ensures last <==> searching == 0
    {
      hide NumWorking, NumSearching, DecSearching;
      FieldsOf(working, searching);
      DecSearchingFaithful(working, searching);
      var prev := state;
      state := DecSearching(prev);
      searching := searching - 1;
      last := NumSearching(prev) == 1;
    }

    method WakeUpOne(numSearching: nat)
      requires Valid() && numSearching <= 1 && Fits(working + 1, searching + numSearching)
      modifies this
      ensures Valid() && working == old(working) + 1 && searching == old(searching) + numSearching
    {
      hide IdleWord.WakeUpOne;
      WakeUpOneFaithful(working, searching, numSearching);
      state := IdleWord.WakeUpOne(state, numSearching);
      working, searching := working + 1, searching + numSearching;
    }

    /** True if the worker was the last searcher. */
    method DecNumWorking(isSearching: bool) returns (last: bool)
      requires Valid() && working > 0 && (isSearching ==> searching > 0)
      modifies this
      ensures Valid() && working == old(working) - 1
      ensures searching == old(searching) - if isSearching then 1 else 0
      ensures last <==> isSearching && searching == 0
    {
      hide NumWorking, NumSearching, DecWorking;
      FieldsOf(working, searching);
      DecWorkingFaithful(working, searching, isSearching);
      var prev := state;
      state := DecWorking(prev, isSearching);
      working, searching := working - 1, searching - if isSearching then 1 else 0;
      last := isSearching && NumSearching(prev) == 1;
    }
  }

  class Idle {
    const state: IdleState
    const numWorkers: nat
    var sleeping: set<nat>

    ghost predicate Valid()
      reads this, state
    {
      && 1 <= numWorkers < UNIT
      && state.Valid()
      && (forall w :: w in sleeping ==> w < numWorkers)
      && state.working == numWorkers - |sleeping|
      && state.searching + |sleeping| <= numWorkers
    }

    constructor (numWorkers: nat)
      requires 1 <= numWorkers < UNIT
      ensures Valid() && fresh(state) && this.numWorkers == numWorkers
      ensures sleeping == {} && state.searching == 0
    {
      state := new IdleState(numWorkers);
      this.numWorkers := numWorkers;
      sleeping := {};
    }

    method NotifyShouldWakeup() returns (should: bool)
      requires Valid()
      ensures should <==> state.searching == 0 && sleeping != {}
    {
      var working, searching := state.NumWorkingAndSearching();
      should := searching == 0 && working < numWorkers;
    }

    /** Picks a sleeper exactly if there is one and nobody is searching. */
    method WorkerToNotify() returns (r: Option<nat>)
      requires Valid()
      modifies this, state
      ensures Valid()
      ensures r.Some? <==> old(state.searching) == 0 && old(sleeping) != {}
      ensures r == None ==> sleeping == old(sleeping) && state.searching == old(state.searching)
      ensures r.Some? ==> r.value in old(sleeping) && sleeping == old(sleeping) - {r.value} && state.searching == 1
    {
      var should := NotifyShouldWakeup();
      if !should {
        return None;
      }
      should := NotifyShouldWakeup();
      if !should {
        return None;
      }
      state.WakeUpOne(1);
      var worker :| worker in sleeping;
      sleeping := sleeping - {worker};
      return Some(worker);
    }

    /** Called by a worker that is awake, and counted among the searchers exactly if it is one.
        The result is whether it was the last searcher. */
    method TransitionWorkerToSleeping(worker: nat, isSearching: bool) returns (last: bool)
      requires Valid() && worker < numWorkers && worker !in sleeping && |sleeping| < numWorkers
      requires if isSearching then state.searching > 0 else state.searching + |sleeping| < numWorkers
      modifies this, state
      ensures Valid() && sleeping == old(sleeping) + {worker}
      ensures state.searching == old(state.searching) - if isSearching then 1 else 0
      ensures last <==> isSearching && state.searching == 0
    {
      last := state.DecNumWorking(isSearching);
      sleeping := sleeping + {worker};
    }

    /** Called by a worker that is awake and does not search, so that not all workers search or
        sleep.  It may search as long as fewer than half of the workers do. */
    method TransitionWorkerToSearching() returns (ok: bool)
      requires Valid() && state.searching + |sleeping| < numWorkers
      modifies state
      ensures Valid()
      ensures ok <==> 2 * old(state.searching) < numWorkers
      ensures state.searching == old(state.searching) + if ok then 1 else 0
    {
      var _, searching := state.NumWorkingAndSearching();
      if 2 * searching >= numWorkers {
        return false;
      }
      state.IncNumSearching();
      return true;
    }

    method TransitionWorkerFromSearching() returns (last: bool)
      requires Valid() && state.searching > 0
      modifies state
      ensures Valid() && state.searching == old(state.searching) - 1
      ensures last <==> state.searching == 0
    {
      last := state.DecNumSearching();
    }

    /** True if the worker was still asleep. */
    method Remove(worker: nat) returns (was: bool)
      requires Valid()
      modifies this, state
      ensures Valid() && state.searching == old(state.searching)
      ensures was <==> worker in old(sleeping)
      ensures sleeping == old(sleeping) - {worker}
    {
      if worker in sleeping {
        state.WakeUpOne(0);
        sleeping := sleeping - {worker};
        return true;
      }
      return false;
    }

    method Contains(worker: nat) returns (found: bool)
      ensures found <==> worker in sleeping
    {
      found := worker in sleeping;
    }
  }
}

/** The global queue: a list under a mutex, with its length in a separate counter
    that is also read without the mutex. */
module GlobalQueue {
  import opened Wheel
  import opened Ring

  class GlobalQueue {
    var tasks: seq<Task>
    var num: nat
    var isClosed: bool

    /** The counter is the length of the list. */
    ghost predicate Valid()
      reads this
    {
      num == |tasks|
    }

    constructor ()
      ensures Valid() && tasks == [] && !isClosed
    {
      tasks := [];
      num := 0;
      isClosed := false;
    }

    function Empty(): (e: bool)
      requires Valid()
      reads this
      ensures e <==> tasks == []
    {
      num == 0
    }

    method Push(task: Task)
      requires Valid()
      modifies this
      ensures Valid() && isClosed == old(isClosed)
      ensures tasks == if isClosed then old(tasks) else old(tasks) + [task]
    {
      if isClosed {
        return;
      }
      tasks := tasks + [task];
      num := num + 1;
    }

    /** The counter stays right exactly because callers pass the length of the batch. */
    method PushBatch(batch: seq<Task>, n: nat)
      requires Valid()
      modifies this
      ensures isClosed == old(isClosed)
      ensures tasks == if isClosed then old(tasks) else old(tasks) + batch
      ensures Valid() <==> isClosed || n == |batch|
    {
      if isClosed {
        return;
      }
      tasks := tasks + batch;
      num := num + n;
    }

    method Pop() returns (r: Option<Task>)
      requires Valid()
      modifies this
      ensures Valid() && isClosed == old(isClosed)
      ensures old(tasks) == [] ==> r == None && tasks == []
      ensures old(tasks) != [] ==> r == Some(old(tasks)[0]) && tasks == old(tasks)[1..]
    {
      if tasks == [] {
        return None;
      }
      r := Some(tasks[0]);
      tasks := tasks[1..];
      num := num - 1;
    }

    /** Takes as many tasks as there are, up to `n`; the second result is how many. */
    method PopN(n: nat) returns (batch: seq<Task>, taken: nat)
      requires Valid()
      modifies this
      ensures Valid() && isClosed == old(isClosed)
      ensures taken == |batch| <= n && batch + tasks == old(tasks)
      ensures taken < n ==> tasks == []
    {
      taken := if num < n then num else n;
      num := num - taken;
      batch := tasks[..taken];
      tasks := tasks[taken..];
    }

    /** Closes the queue; true for the first caller only. */
    method Close() returns (first: bool)
      requires Valid()
      modifies this
      ensures Valid() && isClosed && tasks == old(tasks)
      ensures first <==> !old(isClosed)
    {
      if isClosed {
        return false;
      }
      isClosed := true;
      return true;
    }
  }
}

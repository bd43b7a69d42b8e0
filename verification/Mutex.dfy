/** The asynchronous mutex as objects and pointers.  The steps of module Locking
    take `Lock` and `Unlock` apart; here each runs without interference, and the
    reversal of the stack is done in place. */
module Mutex {
  import opened Wheel

  class Awaiter {
    var next: Awaiter?
    const handle: nat

    constructor (handle: nat)
      ensures this.handle == handle && next == null
    {
      this.handle := handle;
      next := null;
    }
  }

  /** The word: unlocked, or locked with a stack of awaiters, which may be empty. */
  datatype Word = Unlocked | Chain(top: Awaiter?)

  function Member(l: seq<Awaiter>, k: nat): Awaiter? {
    if k < |l| then l[k] else null
  }

  ghost predicate Chained(p: Awaiter?, l: seq<Awaiter>)
    reads l
  {
    p == Member(l, 0) && forall k :: 0 <= k < |l| ==> l[k].next == Member(l, k + 1)
  }

  ghost predicate Distinct(l: seq<Awaiter>) {
    forall j, k :: 0 <= j < k < |l| ==> l[j] != l[k]
  }

  ghost function Reversed(l: seq<Awaiter>): (r: seq<Awaiter>)
    ensures |r| == |l|
  {
    seq(|l|, i requires 0 <= i < |l| => l[|l| - 1 - i])
  }

  lemma ReversedFirst(l: seq<Awaiter>)
    requires l != []
    ensures Reversed(l) == Reversed(l[1..]) + [l[0]]
  {
  }

  lemma ReversedHas(l: seq<Awaiter>, x: Awaiter)
    ensures x in Reversed(l) <==> x in l
  {
    if x in l {
      var k :| 0 <= k < |l| && l[k] == x;
      assert Reversed(l)[|l| - 1 - k] == x;
    }
  }

  class Mutex {
    var state: Word
    var fifo: Awaiter?
    ghost var stack: seq<Awaiter>
    ghost var line: seq<Awaiter>

    ghost predicate Valid()
      reads this, stack, line
    {
      && Chained(fifo, line)
      && (state.Unlocked? ==> stack == line == [])
      && (state.Chain? ==> Chained(state.top, stack))
      && Distinct(Waiting())
    }

    /** The waiting tasks, in order of arrival. */
    ghost function Waiting(): seq<Awaiter>
      reads this
    {
      line + Reversed(stack)
    }

    constructor ()
      ensures Valid() && state.Unlocked? && Waiting() == []
    {
      state := Unlocked;
      fifo := null;
      stack, line := [], [];
    }

    /** Takes a free lock; otherwise `a` waits behind the others. */
    method Lock(a: Awaiter) returns (suspended: bool)
      requires Valid() && a !in stack && a !in line
      modifies this, a
      ensures Valid() && state.Chain?
      ensures suspended <==> old(state.Chain?)
      ensures Waiting() == if suspended then old(Waiting()) + [a] else []
      ensures line == old(line)
    {
      if state.Unlocked? {
        state := Chain(null);
        return false;
      }
      a.next := state.top;
      state := Chain(a);
      ChainedFirst(a, a.next, stack);
      stack := [a] + stack;
      ReversedFirst(stack);
      assert stack[1..] == old(stack);
      ReversedHas(old(stack), a);
      assert Waiting() == old(Waiting()) + [a];
      return true;
    }

    /** Hands the lock to the task that has waited longest, or frees it. */
    method Unlock() returns (resumed: Option<nat>)
      requires Valid() && state.Chain?
      modifies this, stack
      ensures Valid()
      ensures state.Unlocked? <==> old(Waiting()) == []
      ensures old(Waiting()) == [] ==> resumed == None && Waiting() == []
      ensures old(Waiting()) != [] ==> resumed == Some(old(Waiting())[0].handle) && Waiting() == old(Waiting())[1..]
    {
      if fifo == null {
        if state == Chain(null) {
          state := Unlocked;
          return None;
        }
        Reverse();
      }
      resumed := Some(fifo.handle);
      ChainedRest(fifo, line);
      fifo := fifo.next;
      line := line[1..];
      assert Waiting() == old(Waiting())[1..];
    }

    /** Turns the stack into a list in order of arrival, in place. */
    method Reverse()
      requires Valid() && state.Chain? && fifo == null && state.top != null
      modifies this, stack
      ensures Valid() && state == Chain(null) && stack == []
      ensures line != [] && Waiting() == old(Waiting())
    {
      hide Distinct, Reversed, Chained;
      ChainedEnds(state.top, stack);
      ChainedEnds(fifo, line);
      var lifo := state.top;
      state := Chain(null);
      ghost var rest := stack;
      stack := [];
      assert Reversed(rest) + line == old(Waiting());
      while lifo != null
        invariant Chained(lifo, rest) && Chained(fifo, line)
        invariant state == Chain(null) && stack == []
        invariant lifo == null ==> rest == [] && line != []
        invariant Reversed(rest) + line == old(Waiting())
        invariant forall a :: a in rest ==> a in old(stack)
        decreases |rest|
      {
        ChainedEnds(lifo, rest);
        SplitFirst(rest, line);
        HeadApart(rest, line);
        ChainedRest(lifo, rest);
        assert rest[0] in rest;
        fifo, lifo, lifo.next := lifo, lifo.next, fifo;
        ChainedFirst(rest[0], rest[0].next, line);
        rest, line := rest[1..], [rest[0]] + line;
        ChainedEnds(lifo, rest);
      }
      ReversedNothing();
      assert line == old(Waiting());
      assert Waiting() == line;
    }
  }

  lemma ChainedEnds(p: Awaiter?, l: seq<Awaiter>)
    requires Chained(p, l)
    ensures p == Member(l, 0)
  {
  }

  lemma ChainedRest(p: Awaiter?, l: seq<Awaiter>)
    requires Chained(p, l) && l != []
    ensures p == l[0] && Chained(l[0].next, l[1..])
  {
    var m := l[1..];
    assert l[0].next == Member(l, 1);
    forall k | 0 <= k < |m|
      ensures m[k].next == Member(m, k + 1)
    {
      assert l[k + 1].next == Member(l, k + 2);
    }
  }

  lemma ChainedFirst(x: Awaiter, p: Awaiter?, l: seq<Awaiter>)
    requires Chained(p, l) && x.next == p
    ensures Chained(x, [x] + l)
  {
    var m := [x] + l;
    forall k | 0 <= k < |m|
      ensures m[k].next == Member(m, k + 1)
    {
      if k > 0 {
        assert l[k - 1].next == Member(l, k);
      }
    }
  }

  lemma ReversedNothing()
    ensures Reversed([]) == []
  {
  }

  /** The first of the stack is nowhere else. */
  lemma HeadApart(rest: seq<Awaiter>, line: seq<Awaiter>)
    requires rest != [] && Distinct(Reversed(rest) + line)
    ensures rest[0] !in rest[1..] && rest[0] !in line
  {
    var l, k := Reversed(rest) + line, |rest| - 1;
    assert l[k] == rest[0];
    assert forall j :: 0 < j < |rest| ==> l[|rest| - 1 - j] == rest[j];
    assert forall j :: 0 <= j < |line| ==> l[k + 1 + j] == line[j];
  }

  lemma SplitFirst(rest: seq<Awaiter>, line: seq<Awaiter>)
    requires rest != []
    ensures Reversed(rest[1..]) + ([rest[0]] + line) == Reversed(rest) + line
  {
    ReversedFirst(rest);
  }
}

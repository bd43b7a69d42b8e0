/** The file or socket behind a reader: a read may deliver less than it is asked
    for, or fail, as the script of its outcomes says. */
module Sources {
  import opened Streams

  /** How a read turns out: it delivers at most `most` bytes, and at least one if it can, or it fails. */
  datatype Outcome = Gives(most: nat) | Fails(code: int)

  /** What is still to come, and how the next reads turn out; after the script reads deliver what fits. */
  datatype Supply = Supply(rest: seq<byte>, script: seq<Outcome>)

  predicate NextFails(s: Supply) {
    s.script != [] && s.script[0].Fails?
  }

  /** What a read that does not fail delivers. */
  function Given(s: Supply, room: nat): (n: nat)
    ensures n <= room && n <= |s.rest|
    ensures n == 0 <==> room == 0 || s.rest == []
  {
    var most := Min(room, |s.rest|);
    if s.script == [] || s.script[0].Fails? then most
    else Min(most, if s.script[0].most == 0 then 1 else s.script[0].most)
  }

  function After(s: Supply, room: nat): Supply {
    Supply(if NextFails(s) then s.rest else s.rest[Given(s, room)..], if s.script == [] then [] else s.script[1..])
  }

  /** Reads until `want` bytes have come: the result, and what is left. */
  function Exact(s: Supply, want: nat): (x: (Result, Supply))
    ensures x.0.Ok? ==> x.0.value == 0
    decreases want
  {
    if want == 0 then (Ok(0), s)
    else if NextFails(s) then (Err(Os(s.script[0].code)), After(s, want))
    else
      var n := Given(s, want);
      if n == 0 then (Err(EarlyEof), After(s, want)) else Exact(After(s, want), want - n)
  }

  lemma ExactNothing(s: Supply)
    ensures Exact(s, 0) == (Ok(0), s)
  {
  }

  lemma ExactStep(s: Supply, want: nat)
    requires want > 0
    ensures NextFails(s) ==> Exact(s, want) == (Err(Os(s.script[0].code)), After(s, want))
    ensures !NextFails(s) && Given(s, want) == 0 ==> Exact(s, want) == (Err(EarlyEof), After(s, want))
    ensures !NextFails(s) && Given(s, want) > 0 ==> Exact(s, want) == Exact(After(s, want), want - Given(s, want))
  {
    hide After;
  }

  /** Reads until one fails or delivers nothing: the error that is reported, and what is left. */
  function Refill(s: Supply, room: nat): (Error, Supply)
    decreases room
  {
    if NextFails(s) then (Os(s.script[0].code), After(s, room))
    else
      var n := Given(s, room);
      if n == 0 then (EarlyEof, After(s, room)) else Refill(After(s, room), room - n)
  }

  lemma RefillStep(s: Supply, room: nat)
    ensures NextFails(s) ==> Refill(s, room) == (Os(s.script[0].code), After(s, room))
    ensures !NextFails(s) && Given(s, room) == 0 ==> Refill(s, room) == (EarlyEof, After(s, room))
    ensures !NextFails(s) && Given(s, room) > 0 ==> Refill(s, room) == Refill(After(s, room), room - Given(s, room))
  {
  }

  /** What the first `k` reads deliver in all, as long as none of them fails. */
  function Brought(s: Supply, room: nat, k: nat): (n: nat)
    ensures n <= room
    decreases k
  {
    if k == 0 then 0
    else
      var n := Given(s, room);
      n + Brought(After(s, room), room - n, k - 1)
  }

  /** The read number `k` is the first to fail, and it takes place: none before it delivers nothing. */
  ghost predicate FailsAt(s: Supply, room: nat, k: nat) {
    && k < |s.script| && s.script[k].Fails?
    && (forall i :: 0 <= i < k ==> s.script[i].Gives?)
    && (forall i :: 0 <= i < k ==> Brought(s, room, i) < Min(room, |s.rest|))
  }

  /** The next read brings its share, and the others go on from there. */
  lemma {:induction false} BroughtRest(s: Supply, room: nat, k: nat)
    requires !NextFails(s) && Given(s, room) > 0
    ensures FailsAt(s, room, k + 1) <==> FailsAt(After(s, room), room - Given(s, room), k)
  {
    var n, s', room' := Given(s, room), After(s, room), room - Given(s, room);
    assert Min(room', |s'.rest|) == Min(room, |s.rest|) - n;
    assert forall i :: 0 <= i < |s'.script| ==> s'.script[i] == s.script[i + 1];
    assert forall i: nat :: Brought(s, room, i + 1) == n + Brought(s', room', i);
    if FailsAt(s', room', k) {
      forall i | 0 <= i < k + 1
        ensures s.script[i].Gives? && Brought(s, room, i) < Min(room, |s.rest|)
      {
        if i > 0 {
          assert s'.script[i - 1] == s.script[i];
          assert Brought(s, room, i) == n + Brought(s', room', i - 1);
        }
      }
    }
    if FailsAt(s, room, k + 1) {
      forall i | 0 <= i < k
        ensures s'.script[i].Gives? && Brought(s', room', i) < Min(room', |s'.rest|)
      {
        assert s'.script[i] == s.script[i + 1];
        assert Brought(s, room, i + 1) == n + Brought(s', room', i);
      }
    }
  }

  /** The refill reports an early end exactly if no read fails before the room is full or the stream at its
      end, whether or not the stream goes on. */
  lemma {:induction false} EarlyEndExactly(s: Supply, room: nat)
    ensures Refill(s, room).0 == EarlyEof <==> forall k :: 0 <= k < |s.script| ==> !FailsAt(s, room, k)
    decreases room
  {
    if NextFails(s) {
      assert FailsAt(s, room, 0);
    } else if Given(s, room) > 0 {
      var s', room' := After(s, room), room - Given(s, room);
      EarlyEndExactly(s', room');
      forall k: nat
        ensures FailsAt(s, room, k + 1) <==> FailsAt(s', room', k)
      {
        BroughtRest(s, room, k);
      }
      if k :| 0 <= k < |s.script| && FailsAt(s, room, k) {
        assert k > 0 && FailsAt(s', room', k - 1);
      }
      if k :| 0 <= k < |s'.script| && FailsAt(s', room', k) {
        assert FailsAt(s, room, k + 1);
      }
    } else {
      forall k | 0 <= k < |s.script|
        ensures !FailsAt(s, room, k)
      {
        assert k > 0 ==> Brought(s, room, 0) == Min(room, |s.rest|);
      }
    }
  }

  /** It fails before `want` bytes have come. */
  ghost predicate FailsEarly(s: Supply, want: nat, k: nat) {
    FailsAt(s, want, k) && Brought(s, want, k) < want
  }

  lemma NoneEarly(s: Supply)
    ensures forall k: nat :: !FailsEarly(s, 0, k)
  {
  }

  lemma FirstEarly(s: Supply, want: nat)
    requires want > 0
    ensures FailsEarly(s, want, 0) <==> NextFails(s)
  {
  }

  lemma EarlyRest(s: Supply, want: nat, k: nat)
    requires !NextFails(s) && 0 < want <= |s.rest|
    ensures 0 < Given(s, want) <= want && want - Given(s, want) <= |After(s, want).rest|
    ensures FailsEarly(s, want, k + 1) <==> FailsEarly(After(s, want), want - Given(s, want), k)
  {
    hide FailsAt;
    BroughtRest(s, want, k);
  }

  /** Of a stream that is long enough, an exact read fails exactly if a read fails before everything has come. */
  lemma {:induction false} ExactFailsExactly(s: Supply, want: nat)
    requires want <= |s.rest|
    ensures Exact(s, want).0.Err? ==> Exact(s, want).0.error.Os?
    ensures Exact(s, want).0.Err? <==> exists k: nat :: FailsEarly(s, want, k)
    decreases want
  {
    hide FailsEarly, Given, After;
    if want == 0 {
      NoneEarly(s);
    } else if NextFails(s) {
      FirstEarly(s, want);
    } else {
      EarlyRest(s, want, 0);
      var s', want' := After(s, want), want - Given(s, want);
      ExactFailsExactly(s', want');
      forall k: nat
        ensures FailsEarly(s, want, k + 1) <==> FailsEarly(s', want', k)
      {
        EarlyRest(s, want, k);
      }
      if k: nat :| FailsEarly(s, want, k) {
        FirstEarly(s, want);
        assert FailsEarly(s', want', k - 1);
      }
      if k: nat :| FailsEarly(s', want', k) {
        assert FailsEarly(s, want, k + 1);
      }
    }
  }

  /** What `read_exact` does for a request larger than the buffer: it reads straight from the source, and
      if that fails it refills the buffer until that fails, too. */
  function LargeExact(s: Supply, want: nat, capacity: nat): (Result, Supply) {
    var first := Exact(s, want);
    if first.0.Ok? then first
    else
      var second := Refill(first.1, capacity);
      (Err(second.0), second.1)
  }

  /** Such a request of a stream that is long enough is answered with an early end, exactly if a read fails before
      everything has come, and none fails afterwards before the buffer is full or the stream at its end. */
  lemma {:induction false} WrongReasonExactly(s: Supply, want: nat, capacity: nat)
    requires want <= |s.rest|
    ensures LargeExact(s, want, capacity).0 == Err(EarlyEof) <==>
            && (exists k: nat :: FailsEarly(s, want, k))
            && var s' := Exact(s, want).1; forall k :: 0 <= k < |s'.script| ==> !FailsAt(s', capacity, k)
  {
    hide FailsAt, FailsEarly, Refill, Exact;
    ExactFailsExactly(s, want);
    EarlyEndExactly(Exact(s, want).1, capacity);
  }

  // ----- the loops of the buffered reader

  function Left(capacity: nat, have: nat): nat {
    if have <= capacity then capacity - have else 0
  }

  /** The room for the next refill: behind what is buffered, which is moved to the front first if that is less
      than the size of the request. */
  function RefillRoom(have: nat, size: nat, space: nat, capacity: nat): nat {
    if space < size then Left(capacity, have) else space
  }

  /** The refill loop, with `have` bytes buffered and `space` behind them, until a request of `size` bytes can be
      answered: how it ends, what is left, and how much is buffered then. */
  function Fetch(s: Supply, have: nat, exact: bool, exactBytes: nat, size: nat, space: nat, capacity: nat)
    : (Result, Supply, nat)
    decreases |s.rest|
  {
    var room := RefillRoom(have, size, space, capacity);
    if NextFails(s) then (Err(Os(s.script[0].code)), After(s, room), have)
    else
      var n := Given(s, room);
      if exact && n == 0 then (Err(EarlyEof), After(s, room), have)
      else if n == 0 || have + n >= (if exact then exactBytes else 1) then (Ok(0), After(s, room), have + n)
      else Fetch(After(s, room), have + n, exact, exactBytes, size, room - n, capacity)
  }

  /** The loop of `read_until` once the flag is not in the buffer: a buffer full at a time, until the flag comes
      or nothing does. */
  function Until(s: Supply, flag: byte, capacity: nat): (Result, Supply)
    decreases |s.rest|
  {
    if NextFails(s) then (Err(Os(s.script[0].code)), After(s, capacity))
    else
      var n := Given(s, capacity);
      if n == 0 || flag in s.rest[..n] then (Ok(0), After(s, capacity)) else Until(After(s, capacity), flag, capacity)
  }

  /** `read_until`, with `buffered` before it. */
  function Pending(buffered: seq<byte>, s: Supply, flag: byte, capacity: nat): (Result, Supply) {
    if flag in buffered then (Ok(0), s) else Until(s, flag, capacity)
  }

  /** `n` outcomes of the script were used, none but the last failed, and the end is a failure of the source
      exactly if the last did, with its code. */
  ghost predicate EndsWith(script: seq<Outcome>, n: nat, script': seq<Outcome>, r: Result) {
    && n <= |script| && script' == script[n..]
    && (forall i :: 0 <= i < n - 1 ==> script[i].Gives?)
    && (r.Err? && r.error.Os? <==> n > 0 && script[n - 1].Fails?)
    && (r.Err? && r.error.Os? ==> r.error.code == script[n - 1].code)
  }

  lemma EndsNow(s: Supply, room: nat, r: Result)
    requires if NextFails(s) then r == Err(Os(s.script[0].code)) else !(r.Err? && r.error.Os?)
    ensures EndsWith(s.script, if s.script == [] then 0 else 1, After(s, room).script, r)
  {
  }

  lemma EndsLater(s: Supply, room: nat, n: nat, script': seq<Outcome>, r: Result)
    requires EndsWith(After(s, room).script, n, script', r) && !NextFails(s)
    ensures EndsWith(s.script, if s.script == [] then 0 else n + 1, script', r)
  {
    if s.script != [] {
      var rest := After(s, room).script;
      assert forall i :: 0 <= i < |rest| ==> rest[i] == s.script[i + 1];
      forall i | 0 <= i < n
        ensures s.script[i].Gives?
      {
        if i > 0 {
          assert rest[i - 1] == s.script[i];
        }
      }
      assert s.script[n + 1..] == rest[n..];
    }
  }

  lemma {:induction false} FetchExactly(s: Supply, have: nat, exact: bool, exactBytes: nat, size: nat, space: nat,
                                        capacity: nat) returns (n: nat)
    ensures var x := Fetch(s, have, exact, exactBytes, size, space, capacity);
      EndsWith(s.script, n, x.1.script, x.0)
    decreases |s.rest|
  {
    hide EndsWith, Given, RefillRoom;
    var room := RefillRoom(have, size, space, capacity);
    var x := Fetch(s, have, exact, exactBytes, size, space, capacity);
    var k := Given(s, room);
    if NextFails(s) || k == 0 || have + k >= (if exact then exactBytes else 1) {
      EndsNow(s, room, x.0);
      n := if s.script == [] then 0 else 1;
    } else {
      n := FetchExactly(After(s, room), have + k, exact, exactBytes, size, room - k, capacity);
      EndsLater(s, room, n, x.1.script, x.0);
      n := if s.script == [] then 0 else n + 1;
    }
  }

  lemma {:induction false} UntilExactly(s: Supply, flag: byte, capacity: nat) returns (n: nat)
    ensures var x := Until(s, flag, capacity);
      EndsWith(s.script, n, x.1.script, x.0) && (x.0.Err? ==> x.0.error.Os?)
    decreases |s.rest|
  {
    hide EndsWith, Given;
    var x := Until(s, flag, capacity);
    var k := Given(s, capacity);
    if NextFails(s) || k == 0 || flag in s.rest[..k] {
      EndsNow(s, capacity, x.0);
      n := if s.script == [] then 0 else 1;
    } else {
      n := UntilExactly(After(s, capacity), flag, capacity);
      EndsLater(s, capacity, n, x.1.script, x.0);
      n := if s.script == [] then 0 else n + 1;
    }
  }

  /** A request larger than the buffer never has enough: the loop is the refill that ends in an error. */
  lemma {:induction false} FetchIsRefill(s: Supply, have: nat, exactBytes: nat, size: nat, capacity: nat)
    requires have <= capacity < exactBytes
    ensures var x, y := Fetch(s, have, true, exactBytes, size, capacity - have, capacity), Refill(s, capacity - have);
      x.0 == Err(y.0) && x.1 == y.1
    decreases |s.rest|
  {
    hide After, NextFails;
    var room := capacity - have;
    var n := Given(s, room);
    RefillStep(s, room);
    FetchStep(s, have, true, exactBytes, size, room, capacity);
    if !NextFails(s) && n > 0 {
      AfterLess(s, room);
      FetchIsRefill(After(s, room), have + n, exactBytes, size, capacity);
    }
  }

  lemma AfterLess(s: Supply, room: nat)
    requires !NextFails(s)
    ensures |After(s, room).rest| == |s.rest| - Given(s, room)
  {
  }

  lemma FetchStep(s: Supply, have: nat, exact: bool, exactBytes: nat, size: nat, space: nat, capacity: nat)
    ensures var room := RefillRoom(have, size, space, capacity);
      var n := Given(s, room);
      Fetch(s, have, exact, exactBytes, size, space, capacity) ==
      if NextFails(s) then (Err(Os(s.script[0].code)), After(s, room), have)
      else if exact && n == 0 then (Err(EarlyEof), After(s, room), have)
      else if n == 0 || have + n >= (if exact then exactBytes else 1) then (Ok(0), After(s, room), have + n)
      else Fetch(After(s, room), have + n, exact, exactBytes, size, room - n, capacity)
  {
  }

  lemma PendingStep(buffered: seq<byte>, s: Supply, flag: byte, capacity: nat)
    requires flag !in buffered
    ensures var n := Given(s, capacity);
      Pending(buffered, s, flag, capacity) ==
      if NextFails(s) then (Err(Os(s.script[0].code)), After(s, capacity))
      else if n == 0 then (Ok(0), After(s, capacity))
      else Pending(s.rest[..n], After(s, capacity), flag, capacity)
  {
  }

  lemma PendingFound(buffered: seq<byte>, s: Supply, flag: byte, capacity: nat)
    requires flag in buffered
    ensures Pending(buffered, s, flag, capacity) == (Ok(0), s)
  {
  }

  /** `n` bytes went from the front of a stream into memory, from index `lo` on; nothing else changed. */
  ghost predicate Delivers(stream: seq<byte>, stream': seq<byte>, mem: seq<byte>, mem': seq<byte>, lo: nat, n: nat) {
    && n <= |stream| && lo + n <= |mem| == |mem'|
    && stream' == stream[n..]
    && mem' == mem[..lo] + stream[..n] + mem[lo + n..]
  }

  lemma DeliversMore(s0: seq<byte>, s1: seq<byte>, s2: seq<byte>, m0: seq<byte>, m1: seq<byte>, m2: seq<byte>,
                     lo: nat, n: nat, k: nat)
    requires Delivers(s0, s1, m0, m1, lo, n) && Delivers(s1, s2, m1, m2, lo + n, k)
    ensures Delivers(s0, s2, m0, m2, lo, n + k)
  {
    assert s0[..n + k] == s0[..n] + s1[..k];
    assert s2 == s0[n + k..];
    MemoryMore(m0, m1, m2, lo, s0[..n], s1[..k]);
  }

  lemma MemoryMore(m0: seq<byte>, m1: seq<byte>, m2: seq<byte>, lo: nat, x: seq<byte>, y: seq<byte>)
    requires lo + |x| + |y| <= |m0| == |m1|
    requires m1 == m0[..lo] + x + m0[lo + |x|..]
    requires m2 == m1[..lo + |x|] + y + m1[lo + |x| + |y|..]
    ensures m2 == m0[..lo] + (x + y) + m0[lo + (|x| + |y|)..]
  {
    assert m1[..lo + |x|] == m0[..lo] + x;
    assert m1[lo + |x| + |y|..] == m0[lo + |x| + |y|..];
  }

  lemma DeliversNothing(s: seq<byte>, m: seq<byte>, lo: nat)
    requires lo <= |m|
    ensures Delivers(s, s, m, m, lo, 0)
  {
  }

  lemma DeliveredNothing(s: seq<byte>, s': seq<byte>, m: seq<byte>, m': seq<byte>, lo: nat)
    requires Delivers(s, s', m, m', lo, 0)
    ensures s' == s && m' == m
  {
    assert m == m[..lo] + m[lo..];
  }

  class Source {
    var rest: seq<byte>
    var script: seq<Outcome>

    constructor (rest: seq<byte>, script: seq<Outcome>)
      ensures Supplied() == Supply(rest, script)
    {
      this.rest, this.script := rest, script;
    }

    function Supplied(): Supply
      reads this
    {
      Supply(rest, script)
    }

    /** Delivers some bytes to `dst[lo..hi]`: none only at the end, or if none are asked for. */
    method Read(dst: array<byte>, lo: nat, hi: nat) returns (r: Result)
      requires lo <= hi <= dst.Length
      modifies this, dst
      ensures Supplied() == After(old(Supplied()), hi - lo)
      ensures r == if NextFails(old(Supplied())) then Err(Os(old(script)[0].code))
                   else Ok(Given(old(Supplied()), hi - lo))
      ensures r.Err? ==> rest == old(rest) && dst[..] == old(dst[..])
      ensures r.Ok? ==> Delivers(old(rest), rest, old(dst[..]), dst[..], lo, r.value)
    {
      var s := Supplied();
      script := if script == [] then [] else script[1..];
      if NextFails(s) {
        return Err(Os(s.script[0].code));
      }
      var n := Given(s, hi - lo);
      for i := 0 to n
        modifies dst
        invariant dst[lo..lo + i] == rest[..i]
        invariant dst[..lo] == old(dst[..lo]) && dst[lo + i..] == old(dst[..])[lo + i..]
      {
        dst[lo + i] := rest[i];
        assert dst[lo..lo + i] == rest[..i];
        assert dst[lo + i + 1..] == old(dst[..])[lo + i..][1..];
      }
      rest := rest[n..];
      assert dst[..lo] == dst[..][..lo] && dst[lo..lo + n] == dst[..][lo..lo + n];
      return Ok(n);
    }

    /** Reads until `dst[lo..hi]` is full; fails otherwise. */
    method ReadExact(dst: array<byte>, lo: nat, hi: nat) returns (r: Result, ghost moved: nat)
      requires lo <= hi <= dst.Length
      modifies this, dst
      ensures (r, Supplied()) == Exact(old(Supplied()), hi - lo)
      ensures moved <= hi - lo && Delivers(old(rest), rest, old(dst[..]), dst[..], lo, moved)
      ensures r.Ok? ==> moved == hi - lo
    {
      hide Delivers, Given, After, NextFails, Exact;
      ghost var rest0, mem0, all := rest, dst[..], Exact(Supplied(), hi - lo);
      DeliversNothing(rest, dst[..], lo);
      var at := lo;
      while at < hi
        invariant lo <= at <= hi
        invariant Exact(Supplied(), hi - at) == all
        invariant Delivers(rest0, rest, mem0, dst[..], lo, at - lo)
        decreases hi - at
      {
        ghost var rest1, mem1, before, n := rest, dst[..], Supplied(), at - lo;
        ExactStep(before, hi - at);
        r := Read(dst, at, hi);
        ghost var rest2, mem2 := rest, dst[..];
        if r.Err? {
          assert rest2 == rest1 && mem2 == mem1;
          return r, n;
        }
        DeliversMore(rest0, rest1, rest2, mem0, mem1, mem2, lo, n, r.value);
        if r.value == 0 {
          return Err(EarlyEof), n;
        }
        at := at + r.value;
      }
      ExactNothing(Supplied());
      return Ok(0), hi - lo;
    }
  }
}

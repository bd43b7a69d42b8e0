/** The buffered reader, on top of a source that may deliver less than it is
    asked for, or fail. */
module BufferedRead {
  import opened Sources
  import opened Streams

  // ----- what a caller sees of the reader

  /** What waits in the buffer, what the source has not delivered, the room behind what waits, the size of the
      buffer, and how the next reads of the source turn out. */
  datatype View = View(buffered: seq<byte>, rest: seq<byte>, space: nat, capacity: nat, script: seq<Outcome>) {
    function Ahead(): seq<byte> {
      buffered + rest
    }

    function Supplied(): Supply {
      Supply(rest, script)
    }
  }

  datatype Operation =
    | Read(room: nat)
    | ReadExact(want: nat)
    | ReadUntil(flag: byte, had: nat)   // into a container that has `had` bytes already
    | Consume(n: nat)
    | FillBuf

  /** How an operation ends, and what it asks of the source: nothing if the buffer can answer. */
  predicate Ends(v: View, op: Operation, v': View, r: Result) {
    var n := |v.buffered|;
    match op
    case Read(room) =>
      if room > v.capacity then
        var left := if n <= room then room - n else 0;
        && v'.Supplied() == After(v.Supplied(), left)
        && r == if NextFails(v.Supplied()) then Err(Os(v.script[0].code)) else Ok(n + Given(v.Supplied(), left))
      else if n > 0 then r == Ok(Min(room, n)) && v'.Supplied() == v.Supplied()
      else
        var x := Fetch(v.Supplied(), 0, false, room, room, v.space, v.capacity);
        v'.Supplied() == x.1 && r == if x.0.Err? then x.0 else Ok(Min(room, x.2))
    case ReadExact(want) =>
      if want > v.capacity then
        var left := if n <= want then want - n else 0;
        (if r.Ok? then Ok(0) else r, v'.Supplied()) == LargeExact(v.Supplied(), left, v.capacity)
      else if n >= want then r == Ok(want) && v'.Supplied() == v.Supplied()
      else
        var x := Fetch(v.Supplied(), n, true, want, want, v.space, v.capacity);
        v'.Supplied() == x.1 && r == if x.0.Err? then x.0 else Ok(want)
    case ReadUntil(flag, _) =>
      var x := Pending(v.buffered, v.Supplied(), flag, v.capacity);
      v'.Supplied() == x.1 && (r.Err? <==> x.0.Err?) && (r.Err? ==> r == x.0 && v'.buffered == [])
    case Consume(_) => v'.Supplied() == v.Supplied()
    case FillBuf =>
      && v'.Supplied() == After(v.Supplied(), v.space)
      && r == if NextFails(v.Supplied()) then Err(Os(v.script[0].code)) else Ok(Given(v.Supplied(), v.space))
  }

  /** An operation takes the bytes `got` from the front of what is ahead, and nothing else; the caller gets
      them, also if it fails, except that `consume` drops them. */
  predicate Performs(v: View, op: Operation, v': View, r: Result, got: seq<byte>) {
    && v.Ahead() == got + v'.Ahead() && v'.capacity == v.capacity
    && Ends(v, op, v', r)
    && match op
       case Read(room) =>
         && |got| <= room
         && (r.Ok? ==> r.value == |got| && (room > 0 ==> (got == [] <==> v.Ahead() == [])))
         && (r.Err? ==> r.error.Os? && got == if room <= v.capacity then [] else v.buffered)
       case ReadExact(want) =>
         && |got| <= want
         && (r.Ok? ==> r.value == |got| == want)
         && (r.Err? && want <= v.capacity ==> got == [] && (r.error.Os? || |v.Ahead()| < want))
         && (r.Err? && want > v.capacity ==> v.buffered <= got)
       case ReadUntil(flag, had) =>
         && (r.Ok? ==> r.value == had + |got|)
         && (r.Ok? && v.capacity > 0 ==> got == if flag in v.Ahead() then UpToFlag(v.Ahead(), flag) else v.Ahead())
         && (r.Err? ==> r.error.Os? && flag !in got)
         && (v.capacity == 0 ==> got == [])
       case Consume(n) => |got| == Min(n, |v.buffered|)
       case FillBuf =>
         && got == [] && v.buffered <= v'.buffered
         && (r.Ok? ==> |v'.buffered| == |v.buffered| + r.value)
         && (r.Err? ==> v'.buffered == v.buffered)
  }

  /** Of everything but a `read_exact` larger than the buffer: it reports a failure of the source exactly if the last
      read of the source that it made failed; and what the buffer can answer is answered without a read. */
  lemma {:induction false} EndsExactly(v: View, op: Operation, v': View, r: Result, got: seq<byte>) returns (n: nat)
    requires Performs(v, op, v', r, got) && (op.ReadExact? ==> op.want <= v.capacity)
    requires op.Consume? ==> r.Ok?
    ensures EndsWith(v.script, n, v'.script, r)
    ensures op.Read? && op.room <= v.capacity && v.buffered != [] ==> n == 0 && r == Ok(Min(op.room, |v.buffered|))
    ensures op.ReadExact? && op.want <= |v.buffered| ==> n == 0 && r.Ok?
    ensures op.ReadUntil? && op.flag in v.buffered ==> n == 0 && r.Ok?
    ensures r.Err? && r.error == EarlyEof ==> op.ReadExact? && |v.Ahead()| < op.want
  {
    hide Given, EndsWith, Fetch, Until;
    var s := v.Supplied();
    match op
    case Read(room) =>
      if room > v.capacity {
        EndsNow(s, if |v.buffered| <= room then room - |v.buffered| else 0, r);
        n := if s.script == [] then 0 else 1;
      } else if v.buffered != [] {
        n := EndsAtOnce(v.script, r);
      } else {
        n := FetchExactly(s, 0, false, room, room, v.space, v.capacity);
        SameEnd(v.script, n, v'.script, Fetch(s, 0, false, room, room, v.space, v.capacity).0, r);
      }
    case ReadExact(want) =>
      if |v.buffered| >= want {
        n := EndsAtOnce(v.script, r);
      } else {
        n := FetchExactly(s, |v.buffered|, true, want, want, v.space, v.capacity);
        SameEnd(v.script, n, v'.script, Fetch(s, |v.buffered|, true, want, want, v.space, v.capacity).0, r);
      }
    case ReadUntil(flag, _) =>
      if flag in v.buffered {
        n := EndsAtOnce(v.script, r);
      } else {
        n := UntilExactly(s, flag, v.capacity);
        assert Pending(v.buffered, s, flag, v.capacity) == Until(s, flag, v.capacity);
        SameEnd(v.script, n, v'.script, Until(s, flag, v.capacity).0, r);
      }
    case Consume(_) => n := EndsAtOnce(v.script, r);
    case FillBuf =>
      EndsNow(s, v.space, r);
      n := if s.script == [] then 0 else 1;
  }

  lemma EndsAtOnce(script: seq<Outcome>, r: Result) returns (n: nat)
    requires r.Ok?
    ensures n == 0 && EndsWith(script, n, script, r)
  {
    n := 0;
  }

  lemma SameEnd(script: seq<Outcome>, n: nat, script': seq<Outcome>, r: Result, r': Result)
    requires EndsWith(script, n, script', r) && (r.Err? <==> r'.Err?) && (r.Err? ==> r == r')
    ensures EndsWith(script, n, script', r')
  {
  }

  /** Bytes delivered to memory come from the front of what is ahead. */
  lemma DeliversTakes(ahead: seq<byte>, ahead': seq<byte>, mem: seq<byte>, mem': seq<byte>, lo: nat, n: nat)
    requires Delivers(ahead, ahead', mem, mem', lo, n)
    ensures ahead == mem'[lo..lo + n] + ahead' && mem'[lo..lo + n] == ahead[..n]
  {
    assert mem'[lo..lo + n] == ahead[..n];
  }

  /** What the cases of `read` and `read_exact` come to. */
  lemma ReadPerforms(v: View, v': View, exact: bool, size: nat, r: Result, mem: seq<byte>, mem': seq<byte>, lo: nat,
                     n: nat)
    requires Delivers(v.Ahead(), v'.Ahead(), mem, mem', lo, n) && n <= size && v'.capacity == v.capacity
    requires Ends(v, if exact then ReadExact(size) else Read(size), v', r)
    requires r.Ok? ==> r.value == n && (exact ==> n == size)
    requires r.Ok? && !exact && size > 0 ==> (n == 0 <==> v.Ahead() == [])
    requires r.Err? && !exact ==> r.error.Os? && n == if size <= v.capacity then 0 else |v.buffered|
    requires r.Err? && exact && size <= v.capacity ==> n == 0 && (r.error.Os? || |v.Ahead()| < size)
    requires r.Err? && exact && size > v.capacity ==> |v.buffered| <= n
    ensures Performs(v, if exact then ReadExact(size) else Read(size), v', r, mem'[lo..lo + n])
  {
    hide Ends;
    DeliversTakes(v.Ahead(), v'.Ahead(), mem, mem', lo, n);
    if |v.buffered| <= n {
      assert v.Ahead()[..n][..|v.buffered|] == v.buffered;
    }
  }

  /** Bytes delivered behind the write position leave what waits before it alone. */
  lemma DeliversBehind(s: seq<byte>, s': seq<byte>, mem: seq<byte>, mem': seq<byte>, start: nat, lo: nat, n: nat)
    requires Delivers(s, s', mem, mem', lo, n) && start <= lo
    ensures mem'[start..lo] == mem[start..lo] && mem'[lo..lo + n] == s[..n] && s' == s[n..]
  {
  }

  lemma FillPerforms(v: View, v': View, n: nat)
    requires n <= |v.rest| && v'.capacity == v.capacity && Ends(v, Operation.FillBuf, v', Ok(n))
    requires v'.buffered == v.buffered + v.rest[..n] && v'.rest == v.rest[n..]
    ensures Performs(v, Operation.FillBuf, v', Ok(n), []) && v'.Ahead() == v.Ahead()
  {
    hide Ends;
    assert v.Ahead() == v'.Ahead();
  }

  lemma FillFails(v: View, v': View, r: Result)
    requires r.Err? && r.error.Os? && v'.buffered == v.buffered && v'.rest == v.rest && v'.capacity == v.capacity
    requires Ends(v, Operation.FillBuf, v', r)
    ensures Performs(v, Operation.FillBuf, v', r, [])
  {
    hide Ends;
    assert [] + v.Ahead() == v.Ahead();
  }

  class BufReader {
    const io: Source
    const stream: StreamBuffer

    ghost predicate Valid()
      reads stream
    {
      stream.Valid()
    }

    /** What is still to come: what waits in the buffer, and what the source has not delivered. */
    ghost function Ahead(): seq<byte>
      requires Valid()
      reads io, stream, stream.buf
    {
      stream.Contents() + io.rest
    }

    ghost function Seen(): (v: View)
      requires Valid()
      reads io, stream, stream.buf
      ensures v.Ahead() == Ahead()
    {
      View(stream.Contents(), io.rest, stream.WRemaining(), stream.buf.Length, io.script)
    }

    constructor (io: Source, size: nat)
      ensures Valid() && this.io == io && fresh(stream) && fresh(stream.buf)
      ensures Seen() == View([], io.rest, size, size, io.script) && stream.rPos == 0
    {
      this.io := io;
      stream := new StreamBuffer(size);
    }

    method Consume(n: nat) returns (ghost got: seq<byte>)
      requires Valid()
      modifies stream
      ensures Valid() && Performs(old(Seen()), Operation.Consume(n), Seen(), Ok(0), got)
    {
      var len := Min(n, stream.RRemaining());
      ghost var waiting := stream.Contents();
      got := waiting[..len];
      stream.RIncrease(len);
      assert waiting + io.rest == got + (waiting[len..] + io.rest);
    }

    /** Reads into the room behind the write position.  Nothing comes only at the end, or if there is no room. */
    method FillBuf() returns (r: Result)
      requires Valid()
      modifies io, stream, stream.buf
      ensures Valid() && Performs(old(Seen()), Operation.FillBuf, Seen(), r, [])
      ensures Ahead() == old(Ahead()) && stream.rPos == old(stream.rPos)
      ensures r.Ok? ==> |stream.Contents()| == |old(stream.Contents())| + r.value
      ensures r.Ok? ==> |io.rest| == |old(io.rest)| - r.value
      ensures r.Ok? ==> stream.Contents() == old(stream.Contents()) + old(io.rest)[..r.value]
      ensures r.Err? ==> r.error.Os? && stream.Contents() == old(stream.Contents())
      ensures io.Supplied() == After(old(io.Supplied()), old(stream.WRemaining()))
      ensures r == if NextFails(old(io.Supplied())) then Err(Os(old(io.script)[0].code))
                   else Ok(Given(old(io.Supplied()), old(stream.WRemaining())))
    {
      hide Given, After, NextFails, Delivers, Ahead, Performs;
      ghost var v, mem, lo, start := Seen(), stream.buf[..], stream.wPos, stream.rPos;
      assert v.buffered == mem[start..lo];
      r := io.Read(stream.buf, stream.wPos, stream.buf.Length);
      if r.Err? {
        assert stream.buf[start..lo] == stream.buf[..][start..lo];
        FillFails(v, Seen(), r);
        return;
      }
      DeliversBehind(v.rest, io.rest, mem, stream.buf[..], start, lo, r.value);
      assert stream.buf[start..lo] == stream.buf[..][start..lo];
      assert stream.buf[lo..lo + r.value] == stream.buf[..][lo..lo + r.value];
      stream.WIncrease(r.value);
      FillPerforms(v, Seen(), r.value);
    }

    /** `write_to`, seen from the caller's memory. */
    method TakeBuffered(dst: array<byte>, lo: nat, hi: nat) returns (len: nat)
      requires Valid() && lo <= hi <= dst.Length && dst != stream.buf
      modifies stream, dst
      ensures Valid() && len == Min(|old(stream.Contents())|, hi - lo) && io.rest == old(io.rest)
      ensures stream.RRemaining() == |old(stream.Contents())| - len
      ensures stream.Contents() == [] ==> stream.rPos == 0
      ensures Delivers(old(Ahead()), Ahead(), old(dst[..]), dst[..], lo, len)
    {
      len := stream.WriteTo(dst, lo, hi);
      assert dst[..] == dst[..lo] + dst[lo..lo + len] + dst[lo + len..];
      assert old(dst[..]) == old(dst[..lo]) + old(dst[lo..lo + len]) + old(dst[lo + len..]);
    }

    /** Whether the buffer alone can answer the request. */
    predicate Enough(exact: bool, exactBytes: nat)
      requires Valid()
      reads stream
    {
      if exact then stream.RRemaining() >= exactBytes else stream.RRemaining() > 0
    }

    /** The loop behind `read` and `read_exact`: refill until there is enough.
        A request larger than the buffer never has enough, and ends in a failure. */
    method ReadBuffered(exact: bool, exactBytes: nat, dst: array<byte>, lo: nat, hi: nat)
      returns (r: Result, ghost moved: nat)
      requires Valid() && lo <= hi <= dst.Length && dst != stream.buf && hi - lo <= exactBytes
      requires stream.buf.Length < exactBytes ==> exact
      modifies io, stream, stream.buf, dst
      ensures Valid() && moved <= hi - lo
      ensures Delivers(old(Ahead()), Ahead(), old(dst[..]), dst[..], lo, moved)
      ensures r.Ok? ==> r.value == moved
      ensures r.Ok? && exact ==> moved == hi - lo && exactBytes <= stream.buf.Length
      ensures r.Ok? && !exact && lo < hi ==> (moved == 0 <==> old(Ahead()) == [])
      ensures r.Err? ==> moved == 0 && (!exact ==> r.error.Os?)
      ensures r.Err? && !r.error.Os? && hi - lo == exactBytes <= stream.buf.Length ==>
          exact && |old(Ahead())| < exactBytes
      ensures old(Enough(exact, exactBytes)) ==>
        r.Ok? && io.Supplied() == old(io.Supplied()) && moved == Min(hi - lo, |old(stream.Contents())|)
      ensures !old(Enough(exact, exactBytes)) ==>
        var x := Fetch(old(io.Supplied()), |old(stream.Contents())|, exact, exactBytes, hi - lo,
                       old(stream.WRemaining()), stream.buf.Length);
        && io.Supplied() == x.1 && (r.Err? <==> x.0.Err?) && (r.Err? ==> r == x.0)
        && (r.Ok? ==> moved == Min(hi - lo, x.2))
    {
      hide Delivers, Refill, Fetch;
      DeliversNothing(Ahead(), dst[..], lo);
      if !Enough(exact, exactBytes) {
        r := FillEnough(exact, exactBytes, hi - lo);
        if r.Err? {
          return r, 0;
        }
      }
      var len := TakeBuffered(dst, lo, hi);
      return Ok(len), len;
    }

    /** One round of it. */
    method FillMore(size: nat) returns (r: Result)
      requires Valid()
      modifies io, stream, stream.buf
      ensures Valid() && Ahead() == old(Ahead())
      ensures var room := RefillRoom(old(stream.RRemaining()), size, old(stream.WRemaining()), stream.buf.Length);
        && io.Supplied() == After(old(io.Supplied()), room)
        && r == (if NextFails(old(io.Supplied())) then Err(Os(old(io.script)[0].code))
                 else Ok(Given(old(io.Supplied()), room)))
        && stream.RRemaining() == old(stream.RRemaining()) + (if r.Ok? then r.value else 0)
        && (r.Ok? ==> stream.WRemaining() == room - r.value)
      ensures r == Ok(0) && size > 0 && old(stream.RRemaining()) < stream.buf.Length ==> io.rest == []
    {
      hide Given, After, NextFails, Performs;
      if stream.WRemaining() < size {
        stream.ResetData();
      }
      r := FillBuf();
    }

    /** The loop itself, for a request of `size` bytes. */
    method FillEnough(exact: bool, exactBytes: nat, size: nat) returns (r: Result)
      requires Valid() && !Enough(exact, exactBytes) && size <= exactBytes
      requires stream.buf.Length < exactBytes ==> exact
      modifies io, stream, stream.buf
      ensures Valid() && Ahead() == old(Ahead())
      ensures r.Ok? ==> Enough(exact, exactBytes) || (!exact && (old(Ahead()) == [] || size == 0))
      ensures r.Err? && !exact ==> r.error.Os?
      ensures r.Err? && !r.error.Os? && size == exactBytes <= stream.buf.Length ==> |old(Ahead())| < exactBytes
      ensures
        var x := Fetch(old(io.Supplied()), |old(stream.Contents())|, exact, exactBytes, size,
                       old(stream.WRemaining()), stream.buf.Length);
        && io.Supplied() == x.1 && (r.Err? <==> x.0.Err?) && (r.Err? ==> r == x.0)
        && stream.RRemaining() == x.2
    {
      hide Given, After, NextFails, Performs, Fetch, RefillRoom;
      ghost var x := Fetch(io.Supplied(), stream.RRemaining(), exact, exactBytes, size, stream.WRemaining(),
                           stream.buf.Length);
      while true
        invariant Valid() && Ahead() == old(Ahead()) && !Enough(exact, exactBytes)
        invariant Fetch(io.Supplied(), stream.RRemaining(), exact, exactBytes, size, stream.WRemaining(),
                        stream.buf.Length) == x
        decreases stream.buf.Length - stream.RRemaining()
      {
        FetchStep(io.Supplied(), stream.RRemaining(), exact, exactBytes, size, stream.WRemaining(), stream.buf.Length);
        r := FillMore(size);
        if r.Err? {
          return;
        }
        if exact && r.value == 0 {
          return Err(EarlyEof);
        }
        if Enough(exact, exactBytes) || r.value == 0 {
          return;
        }
      }
    }

    /** A request larger than the buffer: what is buffered first, and then straight from the source. */
    method ReadLarge(exact: bool, dst: array<byte>, lo: nat, hi: nat)
      returns (r: Result, done: bool, len: nat, ghost moved: nat)
      requires Valid() && lo <= hi <= dst.Length && dst != stream.buf && stream.buf.Length < hi - lo
      modifies io, stream, dst
      ensures Valid() && len <= moved <= hi - lo
      ensures Delivers(old(Ahead()), Ahead(), old(dst[..]), dst[..], lo, moved)
      ensures done && r.Ok? ==> r.value == moved && (exact ==> moved == hi - lo)
      ensures done && r.Ok? && !exact ==> (moved == 0 <==> old(Ahead()) == [])
      ensures done && r.Err? ==> r.error.Os? && moved == len
      ensures len == |old(stream.Contents())| && stream.rPos == stream.wPos == 0
      ensures done <==> r.Ok? || !exact
      ensures !exact ==>
        && io.Supplied() == After(old(io.Supplied()), hi - lo - len)
        && r == if NextFails(old(io.Supplied())) then Err(Os(old(io.script)[0].code))
                else Ok(len + Given(old(io.Supplied()), hi - lo - len))
      ensures exact ==>
        var first := Exact(old(io.Supplied()), hi - lo - len);
        && io.Supplied() == first.1 && (r.Ok? <==> first.0.Ok?)
        && moved == len + |old(io.rest)| - |io.rest|
    {
      hide Delivers, Ahead, Exact, After, Given, NextFails;
      ghost var ahead0, mem0 := Ahead(), dst[..];
      AheadIs();
      len := TakeBuffered(dst, lo, hi);
      AheadIs();
      ghost var ahead1, mem1 := Ahead(), dst[..];
      ghost var n;
      r, n := ReadStraight(exact, dst, lo + len, hi);
      DeliversMore(ahead0, ahead1, Ahead(), mem0, mem1, dst[..], lo, len, n);
      moved := len + n;
      done := r.Ok? || !exact;
      if r.Ok? {
        r := Ok(r.value + len);
      }
    }

    lemma AheadIs()
      requires Valid()
      ensures Ahead() == stream.Contents() + io.rest
    {
    }

    /** Past an empty buffer, into the caller's memory. */
    method ReadStraight(exact: bool, dst: array<byte>, lo: nat, hi: nat) returns (r: Result, ghost moved: nat)
      requires Valid() && stream.Contents() == [] && lo <= hi <= dst.Length && dst != stream.buf
      modifies io, dst
      ensures Valid() && moved <= hi - lo
      ensures Delivers(old(Ahead()), Ahead(), old(dst[..]), dst[..], lo, moved)
      ensures r.Ok? ==> r.value == moved && (exact ==> moved == hi - lo)
      ensures r == Ok(0) && lo < hi ==> Ahead() == []
      ensures r.Err? && !exact ==> r.error.Os? && moved == 0
      ensures !exact ==>
        && io.Supplied() == After(old(io.Supplied()), hi - lo)
        && r == if NextFails(old(io.Supplied())) then Err(Os(old(io.script)[0].code))
                else Ok(Given(old(io.Supplied()), hi - lo))
      ensures exact ==>
        var first := Exact(old(io.Supplied()), hi - lo);
        && io.Supplied() == first.1 && (r.Ok? <==> first.0.Ok?)
        && moved == |old(io.rest)| - |io.rest|
    {
      hide Delivers, Exact, After, Given, NextFails;
      assert Ahead() == io.rest;
      if exact {
        ghost var rest, mem := io.rest, dst[..];
        r, moved := io.ReadExact(dst, lo, hi);
        DeliversTakes(rest, io.rest, mem, dst[..], lo, moved);
        r := if r.Ok? then Ok(hi - lo) else r;
      } else {
        DeliversNothing(io.rest, dst[..], lo);
        r := io.Read(dst, lo, hi);
        moved := if r.Ok? then r.value else 0;
      }
      assert Ahead() == io.rest;
    }

    /** `read` (not `exact`) and `read_exact`, into `dst[lo..hi]`; `moved` bytes are delivered there.  The reason
        of a failure is right as long as the request fits the buffer; else it is that of `LargeExact`. */
    method RealRead(exact: bool, dst: array<byte>, lo: nat, hi: nat) returns (r: Result, ghost moved: nat)
      requires Valid() && lo <= hi <= dst.Length && dst != stream.buf
      modifies io, stream, stream.buf, dst
      ensures Valid() && moved <= hi - lo
      ensures Delivers(old(Ahead()), Ahead(), old(dst[..]), dst[..], lo, moved)
      ensures Performs(old(Seen()), if exact then ReadExact(hi - lo) else Read(hi - lo), Seen(), r, dst[lo..lo + moved])
      ensures exact && hi - lo > stream.buf.Length ==>
        var first := Exact(old(io.Supplied()), hi - lo - |old(stream.Contents())|);
        moved == |old(stream.Contents())| + |old(io.rest)| - |first.1.rest|
      ensures exact && hi - lo > stream.buf.Length ==>
        (if r.Ok? then Ok(0) else r, io.Supplied())
        == LargeExact(old(io.Supplied()), hi - lo - |old(stream.Contents())|, stream.buf.Length)
    {
      hide Delivers, Exact, Refill, Performs, Fetch, After, Given, NextFails;
      ghost var v, mem0 := Seen(), dst[..];
      if hi - lo <= stream.buf.Length {
        r, moved := ReadBuffered(exact, hi - lo, dst, lo, hi);
        ReadPerforms(v, Seen(), exact, hi - lo, r, mem0, dst[..], lo, moved);
        return;
      }
      var done, len;
      r, done, len, moved := ReadLarge(exact, dst, lo, hi);
      if done {
        ReadPerforms(v, Seen(), exact, hi - lo, r, mem0, dst[..], lo, moved);
        return;
      }
      // the failure of a large `read_exact` falls through to the loop, which fails as well
      ghost var ahead, mem := Ahead(), dst[..];
      ghost var more;
      FetchIsRefill(io.Supplied(), 0, hi - lo, hi - lo - len, stream.buf.Length);
      r, more := ReadBuffered(exact, hi - lo, dst, lo + len, hi);
      DeliveredNothing(ahead, Ahead(), mem, dst[..], lo + len);
      ReadPerforms(v, Seen(), exact, hi - lo, r, mem0, dst[..], lo, moved);
    }

    /** Appends to the caller's container everything up to and including the flag, or everything that is left.
        Without a buffer nothing is read. */
    method ReadUntil(out0: seq<byte>, flag: byte) returns (r: Result, out: seq<byte>)
      requires Valid()
      modifies io, stream, stream.buf
      ensures Valid() && out0 <= out
      ensures Performs(old(Seen()), Operation.ReadUntil(flag, |out0|), Seen(), r, out[|out0|..])
    {
      hide UpToFlag, Ahead, Collected, Given, After, Performs, NextFails, Pending,
        Ends;
      ghost var v, all := Seen(), Ahead();
      ghost var x := Pending(v.buffered, v.Supplied(), flag, v.capacity);
      CollectedNothing(out0, all, flag);
      out := out0;
      while true
        invariant Valid() && Collected(out0, out, all, Ahead(), flag)
        invariant stream.buf.Length == 0 ==> out == out0
        invariant x == Pending(stream.Contents(), io.Supplied(), flag, v.capacity)
        decreases |io.rest|
      {
        ghost var waiting, before, rest := stream.Contents(), out, io.rest;
        AheadIs();
        var found;
        found, out := TakeUpTo(out, flag);
        if found {
          FoundFlag(out0, before, all, waiting, rest, flag);
          PendingFound(waiting, io.Supplied(), flag, v.capacity);
          UntilPerforms(v, Seen(), flag, out0, out, Ok(|out|));
          return Ok(|out|), out;
        }
        AheadIs();
        CollectedMore(out0, before, all, waiting, rest, flag);
        PendingStep(waiting, io.Supplied(), flag, v.capacity);
        r := FillBuf();
        CollectedMeans(out0, out, all, Ahead(), flag);
        if r.Err? {
          UntilPerforms(v, Seen(), flag, out0, out, r);
          return;
        }
        if r.value == 0 {
          AheadIs();
          UntilPerforms(v, Seen(), flag, out0, out, Ok(|out|));
          return Ok(|out|), out;
        }
        assert stream.Contents() == rest[..r.value];
      }
    }

    /** One round of `read_until` on what is buffered: up to the flag, or all of it. */
    method TakeUpTo(out0: seq<byte>, flag: byte) returns (found: bool, out: seq<byte>)
      requires Valid()
      modifies stream
      ensures Valid() && out0 <= out && out + Ahead() == out0 + old(Ahead())
      ensures found <==> flag in old(stream.Contents())
      ensures found ==> out == out0 + UpToFlag(old(stream.Contents()), flag)
      ensures !found ==> out == out0 + old(stream.Contents()) && stream.Contents() == [] && stream.wPos == 0
      ensures old(stream.Contents()) == [] ==> out == out0
    {
      hide UpToFlag;
      ghost var waiting := stream.Contents();
      var slice := stream.FindFlagAndReturnSlice(flag);
      if slice != [] {
        stream.RIncrease(|slice|);
        assert waiting == slice + waiting[|slice|..];
        assert (out0 + slice) + (waiting[|slice|..] + io.rest) == out0 + (waiting + io.rest);
        return true, out0 + slice;
      }
      out := out0 + stream.buf[stream.rPos..stream.wPos];
      stream.ResetPos();
      assert out + ([] + io.rest) == out0 + (waiting + io.rest);
      return false, out;
    }
  }

  lemma {:induction false} UpToFlagSkips(a: seq<byte>, b: seq<byte>, c: seq<byte>, flag: byte)
    requires flag !in a && flag in b
    ensures flag in a + (b + c) && UpToFlag(a + (b + c), flag) == a + UpToFlag(b, flag)
  {
    var slice, all := UpToFlag(b, flag), a + (b + c);
    var k := |a| + |slice| - 1;
    assert all[k] == b[|slice| - 1] == slice[|slice| - 1];
    assert all[..k] == a + slice[..|slice| - 1];
    UpToFlagUnique(all, flag, k);
    assert all[..k + 1] == a + slice;
  }

  lemma Remainder(out0: seq<byte>, out: seq<byte>, all: seq<byte>, ahead: seq<byte>)
    requires out0 <= out && out + ahead == out0 + all
    ensures all == out[|out0|..] + ahead && out == out0 + out[|out0|..]
  {
    assert (out0 + all)[|out0|..] == all;
    assert (out + ahead)[|out0|..] == out[|out0|..] + ahead;
  }

  lemma UntilPerforms(v: View, v': View, flag: byte, out0: seq<byte>, out: seq<byte>, r: Result)
    requires out0 <= out && out + v'.Ahead() == out0 + v.Ahead() && v'.capacity == v.capacity
    requires r.Ok? ==> r.value == |out|
    requires r.Ok? && v.capacity > 0 ==>
      out == out0 + if flag in v.Ahead() then UpToFlag(v.Ahead(), flag) else v.Ahead()
    requires r.Err? ==> r.error.Os? && flag !in out[|out0|..]
    requires v.capacity == 0 ==> out == out0
    requires var x := Pending(v.buffered, v.Supplied(), flag, v.capacity);
      v'.Supplied() == x.1 && (r.Err? <==> x.0.Err?) && (r.Err? ==> r == x.0 && v'.buffered == [])
    ensures Performs(v, Operation.ReadUntil(flag, |out0|), v', r, out[|out0|..])
  {
    hide UpToFlag, Pending;
    Remainder(out0, out, v.Ahead(), v'.Ahead());
  }

  /** `read_until` has collected `out` behind `out0`, without finding the flag; `ahead` is left of `all`. */
  ghost predicate Collected(out0: seq<byte>, out: seq<byte>, all: seq<byte>, ahead: seq<byte>, flag: byte) {
    out0 <= out && out + ahead == out0 + all && flag !in out[|out0|..]
  }

  lemma CollectedNothing(out0: seq<byte>, all: seq<byte>, flag: byte)
    ensures Collected(out0, out0, all, all, flag)
  {
  }

  lemma CollectedMeans(out0: seq<byte>, out: seq<byte>, all: seq<byte>, ahead: seq<byte>, flag: byte)
    requires Collected(out0, out, all, ahead, flag)
    ensures out0 <= out && out + ahead == out0 + all && flag !in out[|out0|..]
    ensures ahead == [] ==> flag !in all && out == out0 + all
  {
    Remainder(out0, out, all, ahead);
  }

  lemma CollectedMore(out0: seq<byte>, out: seq<byte>, all: seq<byte>, waiting: seq<byte>, rest: seq<byte>, flag: byte)
    requires Collected(out0, out, all, waiting + rest, flag) && flag !in waiting
    ensures Collected(out0, out + waiting, all, [] + rest, flag)
  {
    assert (out + waiting)[|out0|..] == out[|out0|..] + waiting;
    assert (out + waiting) + ([] + rest) == out + (waiting + rest);
  }

  lemma {:induction false} FoundFlag(out0: seq<byte>, out: seq<byte>, all: seq<byte>, waiting: seq<byte>,
                                     rest: seq<byte>, flag: byte)
    requires Collected(out0, out, all, waiting + rest, flag) && flag in waiting
    ensures flag in all && out + UpToFlag(waiting, flag) == out0 + UpToFlag(all, flag)
    ensures out + (waiting + rest) == out0 + all && out0 <= out
  {
    hide UpToFlag;
    Remainder(out0, out, all, waiting + rest);
    UpToFlagSkips(out[|out0|..], waiting, rest, flag);
    assert out + UpToFlag(waiting, flag) == out0 + (out[|out0|..] + UpToFlag(waiting, flag));
  }
}

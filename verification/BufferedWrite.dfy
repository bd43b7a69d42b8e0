/** The buffered writer, on top of a sink that may write less than it is asked,
    nothing, or fail. */
module BufferedWrite {
  import opened Streams

  /** How a write to the sink turns out: it takes at most `most` bytes, possibly none, or it fails. */
  datatype Outcome = Takes(most: nat) | Fails(code: int)

  /** The answer to the next write of `n` bytes, and the outcomes after it; after the script everything is taken. */
  function Answer(script: seq<Outcome>, n: nat): (r: Result)
    ensures r.Ok? ==> r.value <= n
  {
    if script == [] then Ok(n)
    else
      match script[0]
      case Takes(most) => Ok(Min(most, n))
      case Fails(code) => Err(Os(code))
  }

  function After(script: seq<Outcome>): seq<Outcome> {
    if script == [] then [] else script[1..]
  }

  /** The file or socket behind the writer; `written` is what it was given. */
  class Sink {
    ghost var written: seq<byte>
    var script: seq<Outcome>

    constructor (script: seq<Outcome>)
      ensures written == [] && this.script == script
    {
      written := [];
      this.script := script;
    }

    /** Writes some of `data`, from its start; a failure writes nothing. */
    method Write(data: seq<byte>) returns (r: Result)
      modifies this
      ensures r == Answer(old(script), |data|) && script == After(old(script))
      ensures written == old(written) + if r.Ok? then data[..r.value] else []
    {
      r := Answer(script, |data|);
      script := After(script);
      if r.Ok? {
        written := written + data[..r.value];
      }
    }

    /** Writes some of `first + second`, in order. */
    method WriteVectored(first: seq<byte>, second: seq<byte>) returns (r: Result)
      modifies this
      ensures r == Answer(old(script), |first| + |second|) && script == After(old(script))
      ensures written == old(written) + if r.Ok? then (first + second)[..r.value] else []
    {
      r := Write(first + second);
    }
  }

  // ----- how many bytes go out, and how it ends

  /** The result, the bytes still in the buffer and not yet taken over, and the outcomes still to come. */
  datatype Sent = Sent(r: Result, waiting: nat, left: nat, script: seq<Outcome>)

  /** Of `waiting` bytes in the buffer and `left` of the caller, the sink takes what it takes, again and again,
      until the rest fits the buffer; `once` stops after the first time. */
  function Send(once: bool, waiting: nat, left: nat, capacity: nat, script: seq<Outcome>): Sent
    decreases waiting + left
  {
    var answer := Answer(script, waiting + left);
    if answer.Err? then Sent(answer, waiting, left, After(script))
    else if answer.value == 0 then Sent(Err(WriteZero), waiting, left, After(script))
    else
      var out := Min(answer.value, waiting);
      var waiting', left' := waiting - out, left - (answer.value - out);
      if once || capacity - waiting' >= left' then Sent(Ok(0), waiting', left', After(script))
      else Send(once, waiting', left', capacity, After(script))
  }

  function Drain(waiting: nat, script: seq<Outcome>): Sent
    decreases waiting
  {
    if waiting == 0 then Sent(Ok(0), 0, 0, script)
    else
      var answer := Answer(script, waiting);
      if answer.Err? then Sent(answer, waiting, 0, After(script))
      else if answer.value == 0 then Sent(Err(WriteZero), waiting, 0, After(script))
      else Drain(waiting - answer.value, After(script))
  }

  predicate Bad(o: Outcome) {
    o.Fails? || o.most == 0
  }

  function Reason(o: Outcome): Error {
    match o
    case Fails(code) => Os(code)
    case Takes(_) => WriteZero
  }

  /** `n` outcomes of the script were used, and all but the last were good; the end is an error exactly if the last
      was bad, and then with its reason. */
  ghost predicate EndsWith(script: seq<Outcome>, n: nat, script': seq<Outcome>, r: Result) {
    && n <= |script| && script' == script[n..]
    && (forall i :: 0 <= i < n - 1 ==> !Bad(script[i]))
    && (r.Err? <==> n > 0 && Bad(script[n - 1]))
    && (r.Err? ==> r.error == Reason(script[n - 1]))
  }

  lemma EndsLater(script: seq<Outcome>, n: nat, script': seq<Outcome>, r: Result)
    requires EndsWith(After(script), n, script', r) && (n == 0 ==> r.Ok?)
    requires script != [] ==> !Bad(script[0])
    ensures EndsWith(script, if script == [] then 0 else n + 1, script', r)
  {
    if script != [] {
      var rest := After(script);
      assert forall i :: 0 <= i < |rest| ==> rest[i] == script[i + 1];
      forall i | 0 <= i < n
        ensures !Bad(script[i])
      {
        if i > 0 {
          assert rest[i - 1] == script[i];
        }
      }
      assert script[n + 1..] == rest[n..];
    }
  }

  lemma AnswerBad(script: seq<Outcome>, n: nat)
    requires n > 0
    ensures script != [] && Bad(script[0]) <==> Answer(script, n).Err? || Answer(script, n).value == 0
    ensures Answer(script, n).Err? ==> Answer(script, n).error == Reason(script[0])
    ensures Answer(script, n) == Ok(0) ==> Reason(script[0]) == WriteZero
  {
  }

  /** A `write` or `write_all` that does not fit fails exactly if the last write to the sink fails or takes nothing,
      with that reason; `write` writes to the sink once, and a `write_all` that succeeds leaves what fits. */
  lemma {:induction false} SendExactly(once: bool, waiting: nat, left: nat, capacity: nat, script: seq<Outcome>)
    returns (n: nat)
    requires waiting + left > 0
    ensures var x := Send(once, waiting, left, capacity, script);
      && EndsWith(script, n, x.script, x.r)
      && x.waiting <= waiting && x.left <= left && (x.left < left ==> x.waiting == 0)
      && (once ==> n <= 1) && (script != [] ==> n > 0)
      && (x.r.Ok? ==> x.waiting + x.left < waiting + left && (once || capacity - x.waiting >= x.left))
    decreases waiting + left
  {
    AnswerBad(script, waiting + left);
    var answer := Answer(script, waiting + left);
    n := if script == [] then 0 else 1;
    if answer.Ok? && answer.value > 0 {
      var out := Min(answer.value, waiting);
      var waiting', left' := waiting - out, left - (answer.value - out);
      if !once && capacity - waiting' < left' {
        var m := SendExactly(once, waiting', left', capacity, After(script));
        var x := Send(once, waiting', left', capacity, After(script));
        EndsLater(script, m, x.script, x.r);
        n := if script == [] then 0 else m + 1;
      }
    }
  }

  /** A `flush` fails exactly if the last write to the sink fails or takes nothing; else the buffer is empty. */
  lemma {:induction false} DrainExactly(waiting: nat, script: seq<Outcome>) returns (n: nat)
    ensures var x := Drain(waiting, script);
      && EndsWith(script, n, x.script, x.r)
      && x.waiting <= waiting && x.left == 0 && (x.r.Ok? ==> x.r == Ok(0) && x.waiting == 0)
      && (waiting == 0 ==> n == 0)
    decreases waiting
  {
    n := 0;
    if waiting > 0 {
      AnswerBad(script, waiting);
      var answer := Answer(script, waiting);
      n := if script == [] then 0 else 1;
      if answer.Ok? && answer.value > 0 {
        var m := DrainExactly(waiting - answer.value, After(script));
        var x := Drain(waiting - answer.value, After(script));
        EndsLater(script, m, x.script, x.r);
        n := if script == [] then 0 else m + 1;
      }
    }
  }

  // ----- what a caller sees of the writer

  /** What the sink got, what still waits in the buffer, the room behind that, the size of the buffer, and
      how the next writes to the sink turn out. */
  datatype View = View(sink: seq<byte>, buffered: seq<byte>, room: nat, capacity: nat, script: seq<Outcome>) {
    function Stream(): seq<byte> {
      sink + buffered
    }
  }

  datatype Operation = Write(data: seq<byte>) | WriteAll(data: seq<byte>) | Flush {
    function Data(): seq<byte> {
      if Flush? then [] else data
    }
  }

  function Room(capacity: nat, waiting: nat): nat {
    if waiting <= capacity then capacity - waiting else 0
  }

  /** How an operation ends, and how much it takes over. */
  predicate Ends(v: View, op: Operation, v': View, r: Result, taken: nat) {
    if op.Flush? then
      var x := Drain(|v.buffered|, v.script);
      && r == x.r && taken == 0 && |v'.buffered| == x.waiting && v'.script == x.script
      && v'.room == if r.Ok? then v.capacity else v.room
    else if |op.data| <= v.room then
      && r == Ok(|op.data|) && taken == |op.data| && v'.sink == v.sink && v'.script == v.script
      && v'.room == v.room - |op.data|
    else
      var x := Send(op.Write?, |v.buffered|, |op.data|, v.capacity, v.script);
      && v'.script == x.script
      && r == (if x.r.Ok? then Ok(taken) else x.r)
      && taken == |op.data| - x.left + (if x.r.Ok? then Min(Room(v.capacity, x.waiting), x.left) else 0)
      && |v'.sink| == |v.sink| + (|v.buffered| - x.waiting) + (|op.data| - x.left)
      && (r.Ok? ==> v'.room == Room(v.capacity, |v'.buffered|))
  }

  /** An operation takes over `taken` bytes of its data, in order, behind everything taken before. */
  predicate Performs(v: View, op: Operation, v': View, r: Result, taken: nat) {
    && taken <= |op.Data()|
    && v'.Stream() == v.Stream() + op.Data()[..taken]
    && v.sink <= v'.sink && v'.capacity == v.capacity && |v.buffered| + v.room <= v.capacity
    && Ends(v, op, v', r, taken)
  }

  /** The result is an error exactly if the last write to the sink failed or took nothing, and says so; what fits is
      buffered without a write; success means that all was taken, of `write` something, and the buffer is flushed. */
  lemma {:induction false} EndsExactly(v: View, op: Operation, v': View, r: Result, taken: nat) returns (n: nat)
    requires Performs(v, op, v', r, taken)
    ensures EndsWith(v.script, n, v'.script, r)
    ensures r.Ok? && !op.Flush? ==> r.value == taken
    ensures r.Ok? && op.WriteAll? ==> taken == |op.data|
    ensures r.Ok? && op.Write? && op.data != [] ==> taken > 0
    ensures r.Ok? && op.Flush? ==> v'.buffered == []
    ensures !op.Flush? && |op.data| <= v.room ==> r == Ok(|op.data|) && v'.sink == v.sink && n == 0
    ensures op.Write? ==> n <= 1
    ensures !op.Flush? && |op.data| > v.room && v.script != [] ==> n > 0
  {
    if op.Flush? {
      n := DrainExactly(|v.buffered|, v.script);
    } else if |op.data| <= v.room {
      n := 0;
    } else {
      n := SendExactly(op.Write?, |v.buffered|, |op.data|, v.capacity, v.script);
    }
  }

  class BufWriter {
    const io: Sink
    const stream: StreamBuffer

    ghost predicate Valid()
      reads stream
    {
      stream.Valid()
    }

    ghost function Seen(): View
      requires Valid()
      reads io, stream, stream.buf
    {
      View(io.written, stream.Contents(), stream.WRemaining(), stream.buf.Length, io.script)
    }

    constructor (io: Sink, size: nat)
      ensures Valid() && this.io == io && fresh(stream) && fresh(stream.buf)
      ensures Seen() == View(io.written, [], size, size, io.script)
    {
      this.io := io;
      stream := new StreamBuffer(size);
    }

    /** What the sink got and what still waits. */
    ghost function All(): (all: seq<byte>)
      requires Valid()
      reads io, stream, stream.buf
      ensures all == Seen().Stream()
    {
      io.written + stream.Contents()
    }

    method Flush() returns (r: Result)
      requires Valid()
      modifies io, stream
      ensures Valid() && Performs(old(Seen()), Operation.Flush, Seen(), r, 0)
    {
      hide Performs, All, Drain, Answer;
      ghost var before, all, sink := Seen(), All(), io.written;
      ghost var x := Drain(stream.RRemaining(), io.script);
      while stream.RRemaining() > 0
        invariant Valid() && All() == all && sink <= io.written
        invariant Drain(stream.RRemaining(), io.script) == x && stream.wPos == old(stream.wPos)
        decreases stream.wPos - stream.rPos
      {
        DrainStep(stream.RRemaining(), io.script);
        r := FlushSome();
        if r.Err? {
          Flushed(before, Seen(), r);
          return;
        }
      }
      DrainStep(0, io.script);
      stream.ResetPos();
      r := Ok(0);
      Flushed(before, Seen(), r);
    }

    /** One round of the loop of `flush`. */
    method FlushSome() returns (r: Result)
      requires Valid() && stream.RRemaining() > 0
      modifies io, stream
      ensures Valid() && All() == old(All()) && old(io.written) <= io.written
      ensures io.script == After(old(io.script)) && stream.wPos == old(stream.wPos)
      ensures var answer := Answer(old(io.script), old(stream.RRemaining()));
        && r == (if answer == Ok(0) then Err(WriteZero) else answer)
        && stream.RRemaining() == old(stream.RRemaining()) - if r.Ok? then r.value else 0
    {
      hide Answer;
      ghost var sink, waiting := io.written, stream.Contents();
      r := io.Write(stream.buf[stream.rPos..stream.wPos]);
      if r.Err? {
        return;
      }
      if r.value == 0 {
        return Err(WriteZero);
      }
      Passes(sink, waiting, [], r.value);
      stream.RIncrease(r.value);
    }

    /** `write` (`once`) and `write_all`; `data` is taken in order, `taken` bytes of it. */
    method RealWrite(once: bool, data: seq<byte>) returns (r: Result, ghost taken: nat)
      requires Valid()
      modifies io, stream, stream.buf
      ensures Valid() && Performs(old(Seen()), if once then Write(data) else WriteAll(data), Seen(), r, taken)
    {
      hide Performs, All, Send;
      ghost var before, all, sink := Seen(), All(), io.written;
      ghost var op := if once then Write(data) else WriteAll(data);
      if stream.WRemaining() >= |data| {
        var n := ReadMore(data, all);
        Fitted(before, op, Seen());
        return Ok(n), n;
      }
      var result;
      r, result := WriteLoop(once, data);
      if r.Err? {
        Performed(before, op, Seen(), r, result);
        return r, result;
      }
      var n := ReadMore(data[result..], all + data[..result]);
      Regroup(all, data, result, n);
      result := result + n;
      Performed(before, op, Seen(), Ok(result), result);
      return Ok(result), result;
    }

    /** Writes until the rest of the data fits the buffer, or once. */
    method WriteLoop(once: bool, data: seq<byte>) returns (r: Result, result: nat)
      requires Valid() && stream.WRemaining() < |data|
      modifies io, stream, stream.buf
      ensures Valid() && result <= |data|
      ensures All() == old(All()) + data[..result] && old(io.written) <= io.written
      ensures var x := Send(once, old(stream.RRemaining()), |data|, stream.buf.Length, old(io.script));
        && (r.Err? <==> x.r.Err?) && (r.Err? ==> r == x.r) && io.script == x.script
        && stream.RRemaining() == x.waiting && |data| - result == x.left
      ensures r.Ok? ==> stream.WRemaining() == stream.buf.Length - stream.RRemaining()
    {
      hide All, Answer, Send;
      ghost var all, x := All(), Send(once, stream.RRemaining(), |data|, stream.buf.Length, io.script);
      result := 0;
      while true
        invariant Valid() && result < |data|
        invariant All() == all + data[..result] && old(io.written) <= io.written
        invariant Send(once, stream.RRemaining(), |data| - result, stream.buf.Length, io.script) == x
        decreases stream.RRemaining() + |data| - result
      {
        ghost var before := all + data[..result];
        SendStep(once, stream.RRemaining(), |data| - result, stream.buf.Length, io.script);
        var n;
        r, n := WriteSome(data[result..], before);
        if r.Err? {
          return;
        }
        Regroup(all, data, result, n);
        result := result + n;
        if once || stream.WRemaining() >= |data| - result {
          return;
        }
        assert Send(once, stream.RRemaining(), |data| - result, stream.buf.Length, io.script) == x;
      }
    }

    /** Puts as much of `buf` in the buffer as fits. */
    method ReadMore(buf: seq<byte>, ghost all: seq<byte>) returns (n: nat)
      requires Valid() && All() == all
      modifies stream, stream.buf
      ensures Valid() && n == Min(old(stream.WRemaining()), |buf|)
      ensures All() == all + buf[..n] && stream.RRemaining() == old(stream.RRemaining()) + n
      ensures stream.WRemaining() == old(stream.WRemaining()) - n
    {
      n := stream.ReadFrom(buf);
    }

    /** One round: write what is buffered and then `buf`, and keep what was not written.
        `n` bytes of `buf` went out; at least one byte went out in all. */
    method WriteSome(buf: seq<byte>, ghost all: seq<byte>) returns (r: Result, n: nat)
      requires Valid() && All() == all
      modifies io, stream, stream.buf
      ensures Valid() && old(io.written) <= io.written && n <= |buf|
      ensures All() == all + buf[..n] && io.script == After(old(io.script))
      ensures var answer := Answer(old(io.script), old(stream.RRemaining()) + |buf|);
        && r == (if answer == Ok(0) then Err(WriteZero) else answer)
        && (r.Err? ==> n == 0 && stream.RRemaining() == old(stream.RRemaining()))
        && (r.Ok? ==>
              var out := Min(r.value, old(stream.RRemaining()));
              n == r.value - out && stream.RRemaining() == old(stream.RRemaining()) - out)
      ensures r.Ok? ==> stream.WRemaining() == stream.buf.Length - stream.RRemaining()
    {
      ghost var sink, waiting := io.written, stream.Contents();
      r := io.WriteVectored(stream.buf[stream.rPos..stream.wPos], buf);
      if r.Err? {
        return r, 0;
      }
      if r.value == 0 {
        return Err(WriteZero), 0;
      }
      var len := Min(r.value, stream.RRemaining());
      stream.RIncrease(len);
      stream.ResetData();
      n := r.value - len;
      Passes(sink, waiting, buf, r.value);
    }
  }

  lemma DrainStep(waiting: nat, script: seq<Outcome>)
    ensures var answer := Answer(script, waiting);
      Drain(waiting, script) ==
      if waiting == 0 then Sent(Ok(0), 0, 0, script)
      else if answer.Err? then Sent(answer, waiting, 0, After(script))
      else if answer.value == 0 then Sent(Err(WriteZero), waiting, 0, After(script))
      else Drain(waiting - answer.value, After(script))
  {
  }

  lemma SendStep(once: bool, waiting: nat, left: nat, capacity: nat, script: seq<Outcome>)
    requires waiting + left > 0
    ensures var answer := Answer(script, waiting + left);
      Send(once, waiting, left, capacity, script) ==
      if answer.Err? then Sent(answer, waiting, left, After(script))
      else if answer.value == 0 then Sent(Err(WriteZero), waiting, left, After(script))
      else
        var out := Min(answer.value, waiting);
        var waiting', left' := waiting - out, left - (answer.value - out);
        if once || capacity - waiting' >= left' then Sent(Ok(0), waiting', left', After(script))
        else Send(once, waiting', left', capacity, After(script))
  {
  }

  lemma Flushed(v: View, v': View, r: Result)
    requires |v.buffered| + v.room <= v.capacity
    requires v'.Stream() == v.Stream() && v.sink <= v'.sink && v'.capacity == v.capacity
    requires Ends(v, Operation.Flush, v', r, 0)
    ensures Performs(v, Operation.Flush, v', r, 0)
  {
  }

  lemma Fitted(v: View, op: Operation, v': View)
    requires !op.Flush? && |op.data| <= v.room && v'.capacity == v.capacity && |v.buffered| + v.room <= v.capacity
    requires v'.sink == v.sink && v'.script == v.script && v'.Stream() == v.Stream() + op.data
    requires v'.room == v.room - |op.data|
    ensures Performs(v, op, v', Ok(|op.data|), |op.data|)
  {
    assert op.data[..|op.data|] == op.data;
  }

  lemma Performed(v: View, op: Operation, v': View, r: Result, taken: nat)
    requires !op.Flush? && taken <= |op.data| && |op.data| > v.room
    requires v'.capacity == v.capacity && |v.buffered| + v.room <= v.capacity
    requires v'.Stream() == v.Stream() + op.data[..taken] && v.sink <= v'.sink
    requires var x := Send(op.Write?, |v.buffered|, |op.data|, v.capacity, v.script);
      && v'.script == x.script
      && r == (if x.r.Ok? then Ok(taken) else x.r)
      && taken == |op.data| - x.left + (if x.r.Ok? then Min(Room(v.capacity, x.waiting), x.left) else 0)
      && (r.Ok? ==> v'.room == Room(v.capacity, |v'.buffered|))
      && |v'.buffered| == x.waiting + (if x.r.Ok? then Min(Room(v.capacity, x.waiting), x.left) else 0)
    ensures Performs(v, op, v', r, taken)
  {
    hide Send;
    assert |v'.Stream()| == |v.Stream()| + taken;
  }

  /** What the sink got, and what is left in the buffer, are the old stream and the bytes of `buf` that went out. */
  lemma Passes(sink: seq<byte>, waiting: seq<byte>, buf: seq<byte>, n: nat)
    requires n <= |waiting| + |buf|
    ensures var len := Min(n, |waiting|);
      (sink + (waiting + buf)[..n]) + waiting[len..] == (sink + waiting) + buf[..n - len]
  {
  }

  lemma Regroup(stream: seq<byte>, data: seq<byte>, k: nat, n: nat)
    requires k <= |data| && n <= |data| - k
    ensures (stream + data[..k]) + data[k..][..n] == stream + data[..k + n]
  {
  }

  // ----- any sequence of operations

  datatype Call = Call(op: Operation, r: Result, taken: nat)

  /** Everything that was taken over, in order. */
  function Taken(calls: seq<Call>): seq<byte> {
    if calls == [] then []
    else
      var c := calls[|calls| - 1];
      Taken(calls[..|calls| - 1]) + c.op.Data()[..Min(c.taken, |c.op.Data()|)]
  }

  /** Everything that was handed in, in order. */
  function Handed(calls: seq<Call>): seq<byte> {
    if calls == [] then [] else Handed(calls[..|calls| - 1]) + calls[|calls| - 1].op.Data()
  }

  ghost predicate Run(views: seq<View>, calls: seq<Call>) {
    && |views| == |calls| + 1
    && forall i :: 0 <= i < |calls| ==> Performs(views[i], calls[i].op, views[i + 1], calls[i].r, calls[i].taken)
  }

  /** The sink and the buffer together hold exactly what was taken over, in order, whatever failed or was short. */
  lemma {:induction false} StreamLaw(views: seq<View>, calls: seq<Call>)
    requires Run(views, calls)
    ensures views[|calls|].Stream() == views[0].Stream() + Taken(calls)
    ensures views[0].sink <= views[|calls|].sink
  {
    hide Performs, View.Stream;
    var n := |calls|;
    if n == 0 {
      assert Taken(calls) == [];
    } else {
      StreamLaw(views[..n], calls[..n - 1]);
      var v, c, v' := views[n - 1], calls[n - 1], views[n];
      assert Performs(v, c.op, v', c.r, c.taken);
      TakesOver(v, c, v');
      assert views[..n][n - 1] == v;
      var before, more := Taken(calls[..n - 1]), c.op.Data()[..c.taken];
      assert views[0].Stream() + before + more == views[0].Stream() + (before + more);
    }
  }

  lemma TakesOver(v: View, c: Call, v': View)
    requires Performs(v, c.op, v', c.r, c.taken)
    ensures c.taken <= |c.op.Data()| && v'.Stream() == v.Stream() + c.op.Data()[..c.taken] && v.sink <= v'.sink
  {
  }

  /** If every call is `write_all` or `flush` and succeeds, all that was handed in is taken over;
      after a last flush the sink has it all. */
  lemma {:induction false} NothingLost(views: seq<View>, calls: seq<Call>)
    requires Run(views, calls)
    requires forall i :: 0 <= i < |calls| ==> calls[i].r.Ok? && !calls[i].op.Write?
    ensures views[|calls|].Stream() == views[0].Stream() + Handed(calls)
    ensures calls != [] && calls[|calls| - 1].op.Flush? ==> views[|calls|].sink == views[0].Stream() + Handed(calls)
  {
    hide Performs;
    StreamLaw(views, calls);
    AllTaken(views, calls);
    if calls != [] {
      var n := |calls|;
      var v, c, v' := views[n - 1], calls[n - 1], views[n];
      assert Performs(v, c.op, v', c.r, c.taken);
      var k := EndsExactly(v, c.op, v', c.r, c.taken);
    }
  }

  lemma {:induction false} AllTaken(views: seq<View>, calls: seq<Call>)
    requires Run(views, calls)
    requires forall i :: 0 <= i < |calls| ==> calls[i].r.Ok? && !calls[i].op.Write?
    ensures Taken(calls) == Handed(calls)
  {
    hide Performs;
    var n := |calls|;
    if n > 0 {
      AllTaken(views[..n], calls[..n - 1]);
      var v, c, v' := views[n - 1], calls[n - 1], views[n];
      assert Performs(v, c.op, v', c.r, c.taken);
      var k := EndsExactly(v, c.op, v', c.r, c.taken);
      TakesOver(v, c, v');
      assert c.op.Data()[..|c.op.Data()|] == c.op.Data();
    }
  }

  predicate Good(script: seq<Outcome>) {
    forall i :: 0 <= i < |script| ==> !Bad(script[i])
  }

  /** As long as every write to the sink takes at least one byte, every call succeeds. */
  lemma {:induction false} GoodSinkSucceeds(views: seq<View>, calls: seq<Call>, i: nat)
    requires Run(views, calls) && Good(views[0].script) && i <= |calls|
    ensures Good(views[i].script) && forall j :: 0 <= j < i ==> calls[j].r.Ok?
    decreases i
  {
    hide Performs;
    if i > 0 {
      GoodSinkSucceeds(views, calls, i - 1);
      var v, c, v' := views[i - 1], calls[i - 1], views[i];
      assert Performs(v, c.op, v', c.r, c.taken);
      var k := EndsExactly(v, c.op, v', c.r, c.taken);
    }
  }
}

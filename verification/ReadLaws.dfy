/** Any sequence of operations on the buffered reader: what the callers get in
    all, and the lines a stream is cut into. */
module ReadLaws {
  import opened Streams
  import opened Sources
  import opened BufferedRead

  datatype Call = Call(op: Operation, r: Result, got: seq<byte>)

  ghost predicate Run(views: seq<View>, calls: seq<Call>) {
    && |views| == |calls| + 1
    && forall i :: 0 <= i < |calls| ==> Performs(views[i], calls[i].op, views[i + 1], calls[i].r, calls[i].got)
  }

  /** Everything that was taken from the reader, in order. */
  function Got(calls: seq<Call>): seq<byte> {
    if calls == [] then [] else Got(calls[..|calls| - 1]) + calls[|calls| - 1].got
  }

  /** Whatever failed or was short: what all operations took, in order, and what is still ahead are the stream. */
  lemma {:induction false} StreamLaw(views: seq<View>, calls: seq<Call>)
    requires Run(views, calls)
    ensures views[0].Ahead() == Got(calls) + views[|calls|].Ahead()
    ensures views[|calls|].capacity == views[0].capacity
  {
    hide Performs;
    var n := |calls|;
    if n > 0 {
      StreamLaw(views[..n], calls[..n - 1]);
      var v, c, v' := views[n - 1], calls[n - 1], views[n];
      assert Performs(v, c.op, v', c.r, c.got);
      PerformsTakes(v, c.op, v', c.r, c.got);
      assert Got(calls[..n - 1]) + (c.got + v'.Ahead()) == (Got(calls[..n - 1]) + c.got) + v'.Ahead();
    }
  }

  lemma PerformsTakes(v: View, op: Operation, v': View, r: Result, got: seq<byte>)
    requires Performs(v, op, v', r, got)
    ensures v.Ahead() == got + v'.Ahead() && v'.capacity == v.capacity
  {
  }

  predicate AtEnd(c: Call) {
    match c.op
    case Read(room) => room > 0 && c.r == Ok(0)
    case ReadUntil(flag, _) => c.r.Ok? && (c.got == [] || c.got[|c.got| - 1] != flag)
    case _ => false
  }

  /** When `read` reports nothing more, or `read_until` stops without its flag, the whole stream has been taken. */
  lemma {:induction false} EndMeansAll(views: seq<View>, calls: seq<Call>)
    requires Run(views, calls) && calls != [] && AtEnd(calls[|calls| - 1]) && views[0].capacity > 0
    ensures Got(calls) == views[0].Ahead() && views[|calls|].Ahead() == []
  {
    hide Performs;
    var n := |calls|;
    StreamLaw(views, calls);
    StreamLaw(views[..n], calls[..n - 1]);
    assert Performs(views[n - 1], calls[n - 1].op, views[n], calls[n - 1].r, calls[n - 1].got);
    NothingAhead(views[n - 1], calls[n - 1], views[n]);
  }

  lemma NothingAhead(v: View, c: Call, v': View)
    requires Performs(v, c.op, v', c.r, c.got) && AtEnd(c) && v.capacity > 0
    ensures v'.Ahead() == []
  {
    if c.op.ReadUntil? {
      assert c.got == v.Ahead();
    }
    assert |v.Ahead()| == |c.got| + |v'.Ahead()|;
  }

  /** The bytes that the operations of a run ask for, if every one is `read_exact`. */
  function Wanted(calls: seq<Call>): nat {
    if calls == [] then 0
    else
      var c := calls[|calls| - 1];
      Wanted(calls[..|calls| - 1]) + if c.op.ReadExact? then c.op.want else 0
  }

  /** Successful calls of `read_exact`, of whatever sizes, get the beginning of the stream, whole and in order. */
  lemma {:induction false} ExactLaw(views: seq<View>, calls: seq<Call>)
    requires Run(views, calls) && forall c :: c in calls ==> c.op.ReadExact? && c.r.Ok?
    ensures Wanted(calls) <= |views[0].Ahead()| && Got(calls) == views[0].Ahead()[..Wanted(calls)]
  {
    StreamLaw(views, calls);
    AllCame(views, calls);
  }

  lemma {:induction false} AllCame(views: seq<View>, calls: seq<Call>)
    requires Run(views, calls) && forall c :: c in calls ==> c.op.ReadExact? && c.r.Ok?
    ensures |Got(calls)| == Wanted(calls)
  {
    var n := |calls|;
    if n > 0 {
      AllCame(views[..n], calls[..n - 1]);
      assert calls[n - 1] in calls;
      assert Performs(views[n - 1], calls[n - 1].op, views[n], calls[n - 1].r, calls[n - 1].got);
    }
  }

  predicate Steady(script: seq<Outcome>) {
    forall i :: 0 <= i < |script| ==> script[i].Gives?
  }

  /** As long as no read of the source fails, every operation succeeds, but for a `read_exact` of a stream that is
      too short.  (One larger than the buffer is the subject of `WrongReasonExactly`.) */
  lemma {:induction false} SteadySourceSucceeds(views: seq<View>, calls: seq<Call>, i: nat)
    requires Run(views, calls) && Steady(views[0].script) && i <= |calls|
    requires forall c :: c in calls ==>
      (c.op.Consume? ==> c.r.Ok?) && (c.op.ReadExact? ==> c.op.want <= views[0].capacity)
    ensures Steady(views[i].script) && views[i].capacity == views[0].capacity
    ensures forall j :: 0 <= j < i && calls[j].r.Err? ==>
      calls[j].op.ReadExact? && calls[j].r.error == EarlyEof && |views[j].Ahead()| < calls[j].op.want
    decreases i
  {
    hide Performs;
    if i > 0 {
      SteadySourceSucceeds(views, calls, i - 1);
      var v, c, v' := views[i - 1], calls[i - 1], views[i];
      assert c in calls && Performs(v, c.op, v', c.r, c.got);
      PerformsTakes(v, c.op, v', c.r, c.got);
      var n := EndsExactly(v, c.op, v', c.r, c.got);
      NoWriteErrors(v, c, v');
    }
  }

  lemma NoWriteErrors(v: View, c: Call, v': View)
    requires Performs(v, c.op, v', c.r, c.got) && (c.op.Consume? ==> c.r.Ok?)
    requires c.op.ReadExact? ==> c.op.want <= v.capacity
    ensures c.r.Err? ==> c.r.error.Os? || c.r.error == EarlyEof
  {
    hide Given, Pending, LargeExact;
    if c.op.ReadExact? && |v.buffered| < c.op.want {
      FetchErrors(v.Supplied(), |v.buffered|, c.op.want, c.op.want, v.space, v.capacity);
    }
  }

  lemma {:induction false} FetchErrors(s: Supply, have: nat, exactBytes: nat, size: nat, space: nat, capacity: nat)
    ensures var x := Fetch(s, have, true, exactBytes, size, space, capacity);
      x.0.Err? ==> x.0.error.Os? || x.0.error == EarlyEof
    decreases |s.rest|
  {
    hide Given, RefillRoom;
    var room := RefillRoom(have, size, space, capacity);
    var n := Given(s, room);
    if !NextFails(s) && n > 0 && have + n < exactBytes {
      FetchErrors(After(s, room), have + n, exactBytes, size, room - n, capacity);
    }
  }

  // ----- lines

  /** A stream cut behind each flag; the last piece may lack one. */
  function Lines(s: seq<byte>, flag: byte): (lines: seq<seq<byte>>)
    ensures s == [] <==> lines == []
    decreases |s|
  {
    if s == [] then []
    else
      var first := if flag in s then UpToFlag(s, flag) else s;
      [first] + Lines(s[|first|..], flag)
  }

  function LineAt(lines: seq<seq<byte>>, i: nat): seq<byte> {
    if i < |lines| then lines[i] else []
  }

  ghost predicate ReadsLines(calls: seq<Call>, flag: byte) {
    forall c :: c in calls ==> c.op.ReadUntil? && c.op.flag == flag && c.r.Ok?
  }

  /** Successful calls of `read_until` with one flag get the lines of the stream, one after the other, and nothing
      after the last, however the bytes came in. */
  lemma {:induction false} LinesLaw(views: seq<View>, calls: seq<Call>, flag: byte, i: nat)
    requires Run(views, calls) && ReadsLines(calls, flag) && views[0].capacity > 0 && i < |calls|
    ensures calls[i].got == LineAt(Lines(views[0].Ahead(), flag), i)
    decreases i
  {
    hide Performs, Lines, LineAt;
    var v, v' := views[0], views[1];
    assert calls[0] in calls;
    assert Performs(v, calls[0].op, v', calls[0].r, calls[0].got);
    FirstLine(v, calls[0], v', flag);
    if i > 0 {
      var rest := calls[1..];
      assert forall c :: c in rest ==> c in calls;
      assert rest[i - 1] == calls[i];
      LinesLaw(views[1..], rest, flag, i - 1);
      LinesFrom(v.Ahead(), calls[0].got, v'.Ahead(), flag, i);
    }
  }

  lemma FirstLine(v: View, c: Call, v': View, flag: byte)
    requires Performs(v, c.op, v', c.r, c.got) && c.op.ReadUntil? && c.op.flag == flag && c.r.Ok? && v.capacity > 0
    ensures c.got == LineAt(Lines(v.Ahead(), flag), 0) && v.Ahead() == c.got + v'.Ahead()
    ensures v'.capacity == v.capacity
  {
  }

  lemma LinesFrom(s: seq<byte>, first: seq<byte>, rest: seq<byte>, flag: byte, i: nat)
    requires s == first + rest && first == LineAt(Lines(s, flag), 0) && i > 0
    ensures LineAt(Lines(s, flag), i) == LineAt(Lines(rest, flag), i - 1)
  {
    if s == [] {
      assert rest == [];
    } else {
      assert s[|first|..] == rest;
    }
  }

  /** The lines are the stream, and each but the last ends in the only flag it has. */
  lemma {:induction false} LinesAreTheStream(s: seq<byte>, flag: byte, i: nat)
    requires i < |Lines(s, flag)|
    ensures var line := Lines(s, flag)[i];
      line != [] && flag !in line[..|line| - 1] && (i < |Lines(s, flag)| - 1 ==> line[|line| - 1] == flag)
    decreases i
  {
    var first := Lines(s, flag)[0];
    if i > 0 {
      LinesAreTheStream(s[|first|..], flag, i - 1);
    } else if flag !in s {
      assert s[|s|..] == [];
    }
  }

  // ----- a wrong reason

  lemma OneFailure(bytes: seq<byte>, code: int)
    requires |bytes| >= 2
    ensures var s := Supply(bytes, [Fails(code)]);
      && Exact(s, 2) == (Err(Os(code)), Supply(bytes, []))
      && LargeExact(s, 2, 1) == (Err(EarlyEof), Supply(bytes[1..], []))
  {
    var s, s1, s2 := Supply(bytes, [Fails(code)]), Supply(bytes, []), Supply(bytes[1..], []);
    ExactStep(s, 2);
    assert After(s, 2) == s1;
    RefillStep(s1, 1);
    assert After(s1, 1) == s2;
    RefillStep(s2, 0);
    assert After(s2, 0) == s2;
  }

  method ReadsTwo(reader: BufReader, dst: array<byte>, code: int) returns (r: Result)
    requires reader.Valid() && reader.stream.buf.Length == 1 && reader.stream.Contents() == []
    requires |reader.io.rest| >= 2 && reader.io.script == [Fails(code)]
    requires dst.Length == 2 && dst != reader.stream.buf
    modifies reader.io, reader.stream, reader.stream.buf, dst
    ensures reader.Valid() && r == Err(EarlyEof) && reader.Ahead() == old(reader.Ahead())
  {
    hide Exact, Refill, LargeExact, Performs, After, Given, Delivers, BufReader.Ahead;
    ghost var mem, before, rest := dst[..], reader.Ahead(), reader.io.rest;
    OneFailure(rest, code);
    assert reader.io.Supplied() == Supply(rest, [Fails(code)]);
    ghost var moved;
    r, moved := reader.RealRead(true, dst, 0, 2);
    ghost var mem' := dst[..];
    assert moved == 0;
    DeliveredNothing(before, reader.Ahead(), mem, mem', 0);
  }

  method Prepared(bytes: seq<byte>, code: int) returns (reader: BufReader, dst: array<byte>)
    ensures fresh(reader.io) && fresh(reader.stream) && fresh(reader.stream.buf) && fresh(dst)
    ensures reader.Valid() && reader.stream.buf.Length == 1 && reader.Seen().buffered == []
    ensures reader.io.rest == bytes && reader.io.script == [Fails(code)]
    ensures dst.Length == 2 && dst != reader.stream.buf
  {
    hide BufReader.Ahead, StreamBuffer.Contents;
    var io := new Source(bytes, [Fails(code)]);
    reader := new BufReader(io, 1);
    dst := new byte[2];
  }

  /** The source fails once and then goes on: a `read_exact` of two bytes through a buffer of one byte reports an
      early end, while all of the stream is still ahead, however long it is. */
  method EarlyEndOfALongStream(bytes: seq<byte>, code: int) returns (r: Result, reader: BufReader)
    requires |bytes| >= 2
    ensures r == Err(EarlyEof) && reader.Valid() && reader.Ahead() == bytes
  {
    hide BufReader.Ahead, StreamBuffer.Contents;
    var dst;
    reader, dst := Prepared(bytes, code);
    NothingBuffered(reader);
    r := ReadsTwo(reader, dst, code);
  }

  lemma NothingBuffered(reader: BufReader)
    requires reader.Valid() && reader.Seen().buffered == []
    ensures reader.stream.Contents() == [] && reader.Ahead() == reader.io.rest
  {
    assert [] + reader.io.rest == reader.io.rest;
  }
}

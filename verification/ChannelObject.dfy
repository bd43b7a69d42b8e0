/** The channel as an object: the ring buffer, the lists of parked awaiters, and
    the results that are left in the awaiters.  Every method runs under the
    channel's mutex, or as one step, and follows module Channel. */
module ChannelObject {
  import opened Wheel
  import opened RingBuffer
  import Spec = Channel

  /** `sent` is the result: false stands for the error that the channel is closed. */
  class SendAwaiter<T> {
    const value: T
    const handle: nat
    var sent: bool

    constructor (value: T, handle: nat)
      ensures this.value == value && this.handle == handle && !sent
    {
      this.value, this.handle := value, handle;
      sent := false;
    }
  }

  /** `result` is None for the error that the channel is closed. */
  class RecvAwaiter<T> {
    const handle: nat
    var result: Option<T>

    constructor (handle: nat)
      ensures this.handle == handle && result == None
    {
      this.handle := handle;
      result := None;
    }
  }

  ghost predicate SameValues<T>(items: seq<Spec.Item<T>>, values: seq<T>) {
    |items| == |values| && forall k :: 0 <= k < |items| ==> items[k].value == values[k]
  }

  ghost predicate SameSenders<T>(items: seq<Spec.Item<T>>, senders: seq<SendAwaiter<T>>) {
    |items| == |senders| && forall k :: 0 <= k < |items| ==> items[k].value == senders[k].value
  }

  ghost predicate SameReceivers<T>(ids: seq<nat>, receivers: seq<RecvAwaiter<T>>) {
    |ids| == |receivers| && forall k :: 0 <= k < |ids| ==> ids[k] == receivers[k].handle
  }

  class Channel<T(==, 0)> {
    const buf: HeapRingBuffer<T>
    var waitingSenders: seq<SendAwaiter<T>>
    var waitingReceivers: seq<RecvAwaiter<T>>
    var isClosed: bool
    var numSenders: nat
    var numReceivers: nat
    /** The channel as a value, with its history. */
    ghost var state: Spec.State<T>

    ghost predicate Valid()
      reads this, buf, buf.data
    {
      && buf.Valid()
      && buf.data.Length == state.capacity + 1
      && SameValues(state.buffer, buf.Contents())
      && SameSenders(state.senders, waitingSenders)
      && SameReceivers(state.receivers, waitingReceivers)
      && state.closed == isClosed && state.numSenders == numSenders && state.numReceivers == numReceivers
      && Spec.Parking(state) && state.parker == None && !state.late
    }

    constructor (numSenders: nat, numReceivers: nat, capacity: nat)
      requires numSenders > 0 && numReceivers > 0
      ensures Valid() && fresh(buf) && fresh(buf.data)
      ensures state == Spec.Opened(capacity, numSenders, numReceivers)
    {
      buf := new HeapRingBuffer(capacity);
      waitingSenders, waitingReceivers, isClosed := [], [], false;
      this.numSenders, this.numReceivers := numSenders, numReceivers;
      state := Spec.Opened(capacity, numSenders, numReceivers);
    }

    /** True if the sender has to wait; `resumed` are the tasks to run again. */
    method Send(a: SendAwaiter<T>) returns (suspended: bool, resumed: seq<nat>)
      requires Valid() && !a.sent
      modifies this, buf, buf.data, a, waitingReceivers
      ensures Valid() && state == Spec.Send(old(state), a.value)
      ensures suspended <==> |state.senders| > |old(state.senders)|
      ensures a.sent <==> state.sent != old(state.sent)
      ensures old(waitingReceivers) == [] ==> resumed == []
      ensures old(waitingReceivers) != [] ==>
        && resumed == [old(waitingReceivers)[0].handle]
        && old(waitingReceivers)[0].result == Some(a.value)
      ensures forall r :: r in old(waitingReceivers) && r != old(waitingReceivers)[0] ==> r.result == old(r.result)
    {
      hide After, Distance;
      if waitingReceivers != [] {
        var handle := GiveToReceiver(a);
        return false, [handle];
      }
      SizeExact(buf.Seen());
      if buf.IsFill() {
        if isClosed {
          state := Spec.Send(state, a.value);
          return false, [];
        }
        state := Spec.Send(state, a.value);
        waitingSenders := waitingSenders + [a];
        return true, [];
      }
      GiveToBuffer(a);
      return false, [];
    }

    /** The first parked receiver gets the value. */
    method GiveToReceiver(a: SendAwaiter<T>) returns (handle: nat)
      requires Valid() && !a.sent && waitingReceivers != []
      modifies this, a, waitingReceivers[0]
      ensures Valid() && state == Spec.Send(old(state), a.value)
      ensures a.sent && state.sent != old(state.sent) && |state.senders| == |old(state.senders)|
      ensures handle == old(waitingReceivers)[0].handle && old(waitingReceivers)[0].result == Some(a.value)
    {
      var receiver := waitingReceivers[0];
      waitingReceivers := waitingReceivers[1..];
      receiver.result := Some(a.value);
      a.sent := true;
      More(state.sent, Spec.Item(state.next, a.value));
      state := Spec.Send(state, a.value);
      return receiver.handle;
    }

    method GiveToBuffer(a: SendAwaiter<T>)
      requires Valid() && !a.sent && waitingReceivers == [] && !buf.IsFill()
      modifies this, buf, buf.data, a
      ensures Valid() && state == Spec.Send(old(state), a.value) && waitingReceivers == []
      ensures a.sent && state.sent != old(state.sent) && |state.senders| == |old(state.senders)|
    {
      SizeExact(buf.Seen());
      buf.SafetyPush(a.value);
      a.sent := true;
      More(state.sent, Spec.Item(state.next, a.value));
      state := Spec.Send(state, a.value);
    }

    /** True if the receiver has to wait. */
    method Recv(a: RecvAwaiter<T>) returns (suspended: bool, resumed: seq<nat>)
      requires Valid() && a.result == None
      modifies this, buf, a, waitingSenders
      ensures Valid() && state == Spec.Recv(old(state), a.handle)
      ensures suspended <==> |state.receivers| > |old(state.receivers)|
      ensures old(waitingSenders) == [] ==> resumed == []
      ensures old(waitingSenders) != [] ==>
        && resumed == [old(waitingSenders)[0].handle]
        && old(waitingSenders)[0].sent && a.result == Some(old(waitingSenders)[0].value)
      ensures old(waitingSenders) == [] ==>
        a.result == if old(buf.Contents()) == [] then None else Some(old(buf.Contents())[0])
      ensures forall s :: s in old(waitingSenders) && s != old(waitingSenders)[0] ==> s.sent == old(s.sent)
    {
      hide After, Distance;
      if waitingSenders != [] {
        var handle := TakeFromSender(a);
        return false, [handle];
      }
      SizeExact(buf.Seen());
      if buf.IsEmpty() {
        if isClosed {
          state := Spec.Recv(state, a.handle);
          return false, [];
        }
        state := Spec.Recv(state, a.handle);
        waitingReceivers := waitingReceivers + [a];
        return true, [];
      }
      TakeFromBuffer(a);
      return false, [];
    }

    /** The value of the first parked sender. */
    method TakeFromSender(a: RecvAwaiter<T>) returns (handle: nat)
      requires Valid() && waitingSenders != []
      modifies this, a, waitingSenders[0]
      ensures Valid() && state == Spec.Recv(old(state), a.handle) && |state.receivers| == |old(state.receivers)|
      ensures handle == old(waitingSenders)[0].handle
      ensures old(waitingSenders)[0].sent && a.result == Some(old(waitingSenders)[0].value)
    {
      var sender := waitingSenders[0];
      waitingSenders := waitingSenders[1..];
      sender.sent := true;
      a.result := Some(sender.value);
      state := Spec.Recv(state, a.handle);
      return sender.handle;
    }

    method TakeFromBuffer(a: RecvAwaiter<T>)
      requires Valid() && waitingSenders == [] && !buf.IsEmpty()
      modifies this, buf, a
      ensures Valid() && state == Spec.Recv(old(state), a.handle) && |state.receivers| == |old(state.receivers)|
      ensures old(buf.Contents()) != [] && a.result == Some(old(buf.Contents())[0]) && waitingSenders == []
    {
      var value := buf.SafetyPop();
      a.result := Some(value);
      state := Spec.Recv(state, a.handle);
    }

    method AddSender()
      requires Valid() && numSenders > 0
      modifies this
      ensures Valid() && state == old(state).(numSenders := old(state).numSenders + 1)
      ensures Spec.Enabled(old(state), Spec.Event<T>.AddsSender)
      ensures state == Spec.Step(old(state), Spec.Event<T>.AddsSender)
    {
      numSenders := numSenders + 1;
      state := state.(numSenders := numSenders);
    }

    method AddReceiver()
      requires Valid() && numReceivers > 0
      modifies this
      ensures Valid() && state == old(state).(numReceivers := old(state).numReceivers + 1)
      ensures Spec.Enabled(old(state), Spec.Event<T>.AddsReceiver)
      ensures state == Spec.Step(old(state), Spec.Event<T>.AddsReceiver)
    {
      numReceivers := numReceivers + 1;
      state := state.(numReceivers := numReceivers);
    }

    /** The last sender closes the channel: whoever waits is resumed, and finds it closed. */
    method SubSender() returns (resumed: seq<nat>)
      requires Valid() && numSenders > 0
      modifies this
      ensures Valid() && state == Spec.SubSender(old(state))
      ensures resumed == if old(numSenders) == 1 && !old(isClosed) then old(Waiting()) else []
    {
      numSenders := numSenders - 1;
      resumed := [];
      if numSenders == 0 {
        resumed := Destroy();
      }
      state := Spec.SubSender(old(state));
    }

    method SubReceiver() returns (resumed: seq<nat>)
      requires Valid() && numReceivers > 0
      modifies this
      ensures Valid() && state == Spec.SubReceiver(old(state))
      ensures resumed == if old(numReceivers) == 1 && !old(isClosed) then old(Waiting()) else []
    {
      numReceivers := numReceivers - 1;
      resumed := [];
      if numReceivers == 0 {
        resumed := Destroy();
      }
      state := Spec.SubReceiver(old(state));
    }

    /** The handles of all who wait. */
    ghost function Waiting(): seq<nat>
      reads this
    {
      SenderHandles(waitingSenders) + ReceiverHandles(waitingReceivers)
    }

    method Destroy() returns (resumed: seq<nat>)
      modifies this`isClosed, this`waitingSenders, this`waitingReceivers
      ensures isClosed
      ensures old(isClosed) ==>
        resumed == [] && waitingSenders == old(waitingSenders) && waitingReceivers == old(waitingReceivers)
      ensures !old(isClosed) ==> resumed == old(Waiting()) && waitingSenders == [] && waitingReceivers == []
    {
      resumed := [];
      if isClosed {
        return;
      }
      isClosed := true;
      for i := 0 to |waitingSenders|
        invariant resumed == SenderHandles(waitingSenders[..i])
        invariant isClosed && waitingSenders == old(waitingSenders) && waitingReceivers == old(waitingReceivers)
      {
        resumed := resumed + [waitingSenders[i].handle];
        assert waitingSenders[..i + 1] == waitingSenders[..i] + [waitingSenders[i]];
      }
      ghost var first := resumed;
      assert waitingSenders[..|waitingSenders|] == waitingSenders;
      for i := 0 to |waitingReceivers|
        invariant resumed == first + ReceiverHandles(waitingReceivers[..i])
        invariant isClosed && waitingSenders == old(waitingSenders) && waitingReceivers == old(waitingReceivers)
      {
        resumed := resumed + [waitingReceivers[i].handle];
        assert waitingReceivers[..i + 1] == waitingReceivers[..i] + [waitingReceivers[i]];
      }
      assert waitingReceivers[..|waitingReceivers|] == waitingReceivers;
      waitingSenders, waitingReceivers := [], [];
    }
  }

  ghost function SenderHandles<T>(l: seq<SendAwaiter<T>>): seq<nat> {
    seq(|l|, i requires 0 <= i < |l| => l[i].handle)
  }

  ghost function ReceiverHandles<T>(l: seq<RecvAwaiter<T>>): seq<nat> {
    seq(|l|, i requires 0 <= i < |l| => l[i].handle)
  }

  lemma More<T>(m: multiset<T>, x: T)
    ensures m + multiset{x} != m
  {
    assert (m + multiset{x})[x] == m[x] + 1;
  }
}

/** The bounded channel: values go from senders to receivers through a ring
    buffer; a sender that finds it full and a receiver that finds it empty park.

    Sends and receives exclude one another by the mutex, but the close takes no
    mutex: it can fall between the look at the closed flag and the parking. */
module Channel {
  import opened RingBuffer
  import opened Wheel

  /** A value with the number of the send it was handed to. */
  datatype Item<T> = Item(ticket: nat, value: T)

  /** Who has found the channel open, holds the mutex and is about to park. */
  datatype Parker<T> = Sender(item: Item<T>) | Receiver(receiver: nat)

  /** The channel as a value.  `handed` are the items of all sends so far, `sent` those whose send
      succeeded, `refused` those whose send reported that the channel is closed, and `received` those
      that a receiver got, in order.  `late` records that the close fell before a parking. */
  datatype State<T(==)> = State(capacity: nat, buffer: seq<Item<T>>, senders: seq<Item<T>>, receivers: seq<nat>,
                                parker: Option<Parker<T>>, closed: bool, late: bool,
                                numSenders: nat, numReceivers: nat, next: nat,
                                handed: multiset<Item<T>>, sent: multiset<Item<T>>,
                                refused: multiset<Item<T>>, received: seq<Item<T>>)

  function Opened<T>(capacity: nat, numSenders: nat, numReceivers: nat): State<T> {
    State(capacity, [], [], [], None, false, false, numSenders, numReceivers, 0,
          multiset{}, multiset{}, multiset{}, [])
  }

  /** A send, up to its parking. */
  function StartSend<T>(s0: State<T>, value: T): State<T> {
    var item := Item(s0.next, value);
    var s := s0.(next := s0.next + 1, handed := s0.handed + multiset{item});
    if s.receivers != [] then
      s.(receivers := s.receivers[1..], sent := s.sent + multiset{item}, received := s.received + [item])
    else if |s.buffer| >= s.capacity then
      (if s.closed then s.(refused := s.refused + multiset{item}) else s.(parker := Some(Sender(item))))
    else s.(buffer := s.buffer + [item], sent := s.sent + multiset{item})
  }

  /** A receive, up to its parking. */
  function StartRecv<T>(s: State<T>, receiver: nat): State<T> {
    if s.senders != [] then
      var item := s.senders[0];
      s.(senders := s.senders[1..], sent := s.sent + multiset{item}, received := s.received + [item])
    else if s.buffer == [] then
      (if s.closed then s else s.(parker := Some(Receiver(receiver))))
    else s.(buffer := s.buffer[1..], received := s.received + [s.buffer[0]])
  }

  function Park<T>(s: State<T>): State<T> {
    match s.parker
    case None => s
    case Some(Sender(item)) => s.(senders := s.senders + [item], parker := None)
    case Some(Receiver(receiver)) => s.(receivers := s.receivers + [receiver], parker := None)
  }

  /** A send or a receive without a close in between. */
  function Send<T>(s: State<T>, value: T): State<T> {
    Park(StartSend(s, value))
  }

  function Recv<T>(s: State<T>, receiver: nat): State<T> {
    Park(StartRecv(s, receiver))
  }

  function Destroy<T>(s: State<T>): State<T> {
    if s.closed then s
    else s.(closed := true, late := s.parker.Some?, senders := [], receivers := [],
            refused := s.refused + multiset(s.senders))
  }

  function SubSender<T>(s: State<T>): State<T>
    requires s.numSenders > 0
  {
    var s' := s.(numSenders := s.numSenders - 1);
    if s.numSenders == 1 then Destroy(s') else s'
  }

  function SubReceiver<T>(s: State<T>): State<T>
    requires s.numReceivers > 0
  {
    var s' := s.(numReceivers := s.numReceivers - 1);
    if s.numReceivers == 1 then Destroy(s') else s'
  }

  datatype Event<T> =
    | Sends(value: T)
    | Receives(receiver: nat)
    | Parks
    | AddsSender
    | DropsSender
    | AddsReceiver
    | DropsReceiver

  /** Only a holder of an end can copy or drop it; but values can be sent and received at any time
      at which nobody holds the mutex. */
  predicate Enabled<T>(s: State<T>, e: Event<T>) {
    && (e.Sends? || e.Receives? ==> s.parker == None)
    && (e.Parks? ==> s.parker != None)
    && (e.AddsSender? || e.DropsSender? ==> s.numSenders > 0)
    && (e.AddsReceiver? || e.DropsReceiver? ==> s.numReceivers > 0)
  }

  function Step<T>(s: State<T>, e: Event<T>): State<T>
    requires Enabled(s, e)
  {
    match e
    case Sends(value) => StartSend(s, value)
    case Receives(receiver) => StartRecv(s, receiver)
    case Parks => Park(s)
    case AddsSender => s.(numSenders := s.numSenders + 1)
    case DropsSender => SubSender(s)
    case AddsReceiver => s.(numReceivers := s.numReceivers + 1)
    case DropsReceiver => SubReceiver(s)
  }

  // ----- the invariant

  /** The items of the senders that wait, or are about to. */
  function Blocked<T>(s: State<T>): seq<Item<T>> {
    s.senders + if s.parker.Some? && s.parker.value.Sender? then [s.parker.value.item] else []
  }

  /** What has been handed in, and neither received nor refused. */
  function Outstanding<T>(s: State<T>): seq<Item<T>> {
    s.buffer + Blocked(s)
  }

  predicate ReceiverBlocked<T>(s: State<T>) {
    s.receivers != [] || (s.parker.Some? && s.parker.value.Receiver?)
  }

  /** How many wait, or are about to. */
  function Waiters<T>(s: State<T>): nat {
    |s.senders| + |s.receivers| + if s.parker.Some? then 1 else 0
  }

  ghost predicate Parking<T>(s: State<T>) {
    && |s.buffer| <= s.capacity
    && (Blocked(s) != [] ==> |s.buffer| == s.capacity)
    && (ReceiverBlocked(s) ==> s.buffer == [])
    && (Blocked(s) == [] || !ReceiverBlocked(s))
    && (s.late ==> s.closed)
    && (s.closed ==> Waiters(s) <= if s.late then 1 else 0)
    && (s.closed <==> s.numSenders == 0 || s.numReceivers == 0)
  }

  ghost predicate Conserved<T>(s: State<T>) {
    && s.sent == multiset(s.received) + multiset(s.buffer)
    && s.handed == s.sent + multiset(Blocked(s)) + s.refused
    && forall i :: i in s.handed ==> i.ticket < s.next && s.handed[i] == 1
  }

  /** Tickets grow along a queue. */
  ghost predicate Increasing<T>(l: seq<Item<T>>) {
    forall i, j :: 0 <= i < j < |l| ==> l[i].ticket < l[j].ticket
  }

  ghost predicate Below<T>(l: seq<Item<T>>, bound: nat) {
    forall i :: 0 <= i < |l| ==> l[i].ticket < bound
  }

  /** What is outstanding came in in this order. */
  ghost predicate Lined<T>(s: State<T>) {
    Increasing(Outstanding(s)) && Below(Outstanding(s), s.next) && Below(s.received, s.next)
  }

  lemma Taken<T>(l: seq<T>)
    requires l != []
    ensures multiset(l) == multiset{l[0]} + multiset(l[1..])
  {
    assert l == [l[0]] + l[1..];
  }

  // Every event is the start of a send or of a receive, a parking, a close, or a change of the counts.

  lemma SendParks<T>(s: State<T>, value: T)
    requires Parking(s) && s.parker == None
    ensures Parking(StartSend(s, value))
  {
  }

  lemma RecvParks<T>(s: State<T>, receiver: nat)
    requires Parking(s) && s.parker == None
    ensures Parking(StartRecv(s, receiver))
  {
  }

  lemma ParkParks<T>(s: State<T>)
    requires Parking(s) && s.parker != None
    ensures Parking(Park(s)) && Blocked(Park(s)) == Blocked(s)
  {
  }

  lemma SubSenderParks<T>(s: State<T>)
    requires Parking(s) && s.numSenders > 0
    ensures Parking(SubSender(s))
  {
  }

  lemma SubReceiverParks<T>(s: State<T>)
    requires Parking(s) && s.numReceivers > 0
    ensures Parking(SubReceiver(s))
  {
  }

  lemma {:induction false} StepParks<T>(s: State<T>, e: Event<T>)
    requires Parking(s) && Enabled(s, e)
    ensures Parking(Step(s, e))
  {
    hide StartSend, StartRecv, Park, SubSender, SubReceiver, Parking;
    match e
    case Sends(value) => SendParks(s, value);
    case Receives(receiver) => RecvParks(s, receiver);
    case Parks => ParkParks(s);
    case DropsSender => SubSenderParks(s);
    case DropsReceiver => SubReceiverParks(s);
    case AddsSender => CountsParks(s, e);
    case AddsReceiver => CountsParks(s, e);
  }

  lemma CountsParks<T>(s: State<T>, e: Event<T>)
    requires Parking(s) && Enabled(s, e) && (e.AddsSender? || e.AddsReceiver?)
    ensures Parking(Step(s, e))
  {
  }

  lemma {:induction false} SendConserves<T>(s: State<T>, value: T)
    requires Conserved(s) && s.parker == None
    ensures Conserved(StartSend(s, value))
  {
    if s.receivers != [] || |s.buffer| < s.capacity {
      Delivered(s, value);
    } else {
      var item, s' := Item(s.next, value), StartSend(s, value);
      assert item !in s.handed;
      assert Blocked(s) == s.senders && Blocked(s') == if s.closed then s.senders else s.senders + [item];
    }
  }

  lemma Delivered<T>(s: State<T>, value: T)
    requires Conserved(s) && s.parker == None && (s.receivers != [] || |s.buffer| < s.capacity)
    ensures Conserved(StartSend(s, value))
  {
    var item, s' := Item(s.next, value), StartSend(s, value);
    assert item !in s.handed;
    assert Blocked(s) == s.senders && Blocked(s') == s.senders;
    if s.receivers != [] {
      assert multiset(s'.received) == multiset(s.received) + multiset{item};
    } else {
      assert multiset(s'.buffer) == multiset(s.buffer) + multiset{item};
    }
  }

  lemma {:induction false} RecvConserves<T>(s: State<T>, receiver: nat)
    requires Conserved(s) && s.parker == None
    ensures Conserved(StartRecv(s, receiver))
  {
    if s.senders != [] {
      TakenFromSender(s, receiver);
    } else if s.buffer != [] {
      TakenFromBuffer(s, receiver);
    }
  }

  lemma TakenFromSender<T>(s: State<T>, receiver: nat)
    requires Conserved(s) && s.parker == None && s.senders != []
    ensures Conserved(StartRecv(s, receiver))
  {
    var s', item := StartRecv(s, receiver), s.senders[0];
    Taken(s.senders);
    assert Blocked(s) == s.senders && Blocked(s') == s'.senders;
    assert multiset(s'.received) == multiset(s.received) + multiset{item};
    assert s'.sent == multiset(s'.received) + multiset(s'.buffer);
    assert s'.handed == s'.sent + multiset(Blocked(s')) + s'.refused;
  }

  lemma TakenFromBuffer<T>(s: State<T>, receiver: nat)
    requires Conserved(s) && s.parker == None && s.senders == [] && s.buffer != []
    ensures Conserved(StartRecv(s, receiver))
  {
    var s', item := StartRecv(s, receiver), s.buffer[0];
    Taken(s.buffer);
    assert Blocked(s) == s.senders && Blocked(s') == s'.senders;
    assert multiset(s'.received) == multiset(s.received) + multiset{item};
  }

  lemma ParkConserves<T>(s: State<T>)
    requires Conserved(s)
    ensures Conserved(Park(s))
  {
    assert Blocked(Park(s)) == Blocked(s);
  }

  lemma DestroyConserves<T>(s: State<T>, s': State<T>)
    requires Conserved(s)
    requires s' == s.(numSenders := s'.numSenders, numReceivers := s'.numReceivers)
    ensures Conserved(s') && Conserved(Destroy(s'))
  {
    assert Blocked(s') == Blocked(s);
    if !s'.closed {
      assert Blocked(s') == s'.senders + Blocked(Destroy(s'));
      assert multiset(Blocked(s')) == multiset(s'.senders) + multiset(Blocked(Destroy(s')));
    }
  }

  lemma {:induction false} StepConserves<T>(s: State<T>, e: Event<T>)
    requires Conserved(s) && Enabled(s, e)
    ensures Conserved(Step(s, e))
  {
    hide StartSend, StartRecv, Park, Conserved, Destroy;
    match e
    case Sends(value) => SendConserves(s, value);
    case Receives(receiver) => RecvConserves(s, receiver);
    case Parks => ParkConserves(s);
    case AddsSender => DestroyConserves(s, Step(s, e));
    case AddsReceiver => DestroyConserves(s, Step(s, e));
    case DropsSender => DestroyConserves(s, s.(numSenders := s.numSenders - 1));
    case DropsReceiver => DestroyConserves(s, s.(numReceivers := s.numReceivers - 1));
  }

  /** What an event does to the values: a new one joins what is outstanding or is received at once,
      the first of the buffer or of the senders is received, or nothing happens but that senders go. */
  lemma SendMoves<T>(s: State<T>, value: T)
    requires Parking(s) && s.parker == None
    ensures var s', item := StartSend(s, value), Item(s.next, value);
      && s'.next == s.next + 1
      && ((s'.received == s.received && Outstanding(s') == Outstanding(s) && s'.buffer == s.buffer)
          || (s'.received == s.received && Outstanding(s') == Outstanding(s) + [item]
              && (s'.buffer == s.buffer || s'.buffer == s.buffer + [item]))
          || (s'.received == s.received + [item] && Outstanding(s') == Outstanding(s) == [] && s'.buffer == []))
  {
  }

  lemma RecvMoves<T>(s: State<T>, receiver: nat)
    requires Parking(s) && s.parker == None
    ensures var s' := StartRecv(s, receiver);
      && s'.next == s.next
      && if s.senders != [] then
           && Outstanding(s) == s.buffer + s.senders && Outstanding(s') == s.buffer + s.senders[1..]
           && s'.received == s.received + [s.senders[0]] && s'.buffer == s.buffer
         else if s.buffer != [] then
           && Outstanding(s) == [s.buffer[0]] + Outstanding(s') && s'.buffer == s.buffer[1..]
           && s'.received == s.received + [s.buffer[0]]
         else Outstanding(s') == Outstanding(s) && s'.received == s.received && s'.buffer == s.buffer
  {
  }

  lemma OtherMoves<T>(s: State<T>, e: Event<T>)
    requires Enabled(s, e) && !e.Sends? && !e.Receives?
    ensures var s' := Step(s, e);
      && s'.next == s.next && s'.received == s.received && s'.buffer == s.buffer
      && (Outstanding(s') == Outstanding(s) || Outstanding(s') == s.buffer + Outstanding(s)[|s.buffer| + |s.senders|..])
  {
  }

  lemma IncreasingWithout<T>(l: seq<Item<T>>, m: nat, n: nat)
    requires Increasing(l) && m <= n <= |l|
    ensures Increasing(l[..m] + l[n..])
  {
  }

  lemma SendLines<T>(s: State<T>, value: T)
    requires Lined(s) && Parking(s) && s.parker == None
    ensures Lined(StartSend(s, value))
  {
    hide Parking, StartSend, Outstanding;
    SendMoves(s, value);
  }

  lemma RecvLines<T>(s: State<T>, receiver: nat)
    requires Lined(s) && Parking(s) && s.parker == None
    ensures Lined(StartRecv(s, receiver))
  {
    hide Parking, StartRecv, Outstanding;
    RecvMoves(s, receiver);
    var s' := StartRecv(s, receiver);
    if s.senders != [] {
      var n := |s.buffer|;
      IncreasingWithout(Outstanding(s), n, n + 1);
      assert Outstanding(s') == Outstanding(s)[..n] + Outstanding(s)[n + 1..];
      assert Outstanding(s)[n] == s.senders[0];
    } else if s.buffer != [] {
      assert Outstanding(s') == Outstanding(s)[1..];
    }
  }

  lemma OtherLines<T>(s: State<T>, e: Event<T>)
    requires Lined(s) && Enabled(s, e) && !e.Sends? && !e.Receives?
    ensures Lined(Step(s, e))
  {
    hide Step, Outstanding;
    OtherMoves(s, e);
    if Outstanding(Step(s, e)) != Outstanding(s) {
      var m, n := |s.buffer|, |s.buffer| + |s.senders|;
      BufferFirst(s);
      IncreasingWithout(Outstanding(s), m, n);
      assert Outstanding(Step(s, e)) == Outstanding(s)[..m] + Outstanding(s)[n..];
    }
  }

  lemma {:induction false} StepLines<T>(s: State<T>, e: Event<T>)
    requires Lined(s) && Parking(s) && Enabled(s, e)
    ensures Lined(Step(s, e))
  {
    hide Lined, Parking, StartSend, StartRecv;
    match e
    case Sends(value) => SendLines(s, value);
    case Receives(receiver) => RecvLines(s, receiver);
    case _ => OtherLines(s, e);
  }

  lemma BufferFirst<T>(s: State<T>)
    ensures |s.buffer| + |s.senders| <= |Outstanding(s)| && Outstanding(s)[..|s.buffer|] == s.buffer
  {
  }

  // ----- runs

  ghost predicate Run<T>(states: seq<State<T>>, events: seq<Event<T>>) {
    && |states| == |events| + 1
    && states[0].numSenders > 0 && states[0].numReceivers > 0
    && states[0] == Opened(states[0].capacity, states[0].numSenders, states[0].numReceivers)
    && forall i :: 0 <= i < |events| ==> Enabled(states[i], events[i]) && states[i + 1] == Step(states[i], events[i])
  }

  lemma OpenedInv<T>(capacity: nat, numSenders: nat, numReceivers: nat)
    requires numSenders > 0 && numReceivers > 0
    ensures var s := Opened<T>(capacity, numSenders, numReceivers);
      Parking(s) && Conserved(s) && Lined(s)
  {
  }

  lemma {:induction false} RunInv<T>(states: seq<State<T>>, events: seq<Event<T>>, i: nat)
    requires Run(states, events) && i < |states|
    ensures Parking(states[i]) && Conserved(states[i]) && Lined(states[i])
    decreases i
  {
    if i == 0 {
      OpenedInv<T>(states[0].capacity, states[0].numSenders, states[0].numReceivers);
    } else {
      hide Parking, Conserved, Lined, Step;
      RunInv(states, events, i - 1);
      StepParks(states[i - 1], events[i - 1]);
      StepConserves(states[i - 1], events[i - 1]);
      StepLines(states[i - 1], events[i - 1]);
    }
  }

  /** In every run, senders park only before a full buffer and receivers only before an empty one, and never both. */
  lemma {:induction false} ParkedMeansBlocked<T>(states: seq<State<T>>, events: seq<Event<T>>, i: nat)
    requires Run(states, events) && i < |states|
    ensures states[i].senders != [] ==> |states[i].buffer| == states[i].capacity && states[i].receivers == []
    ensures states[i].receivers != [] ==> states[i].buffer == [] && states[i].senders == []
    ensures |states[i].buffer| <= states[i].capacity
  {
    hide Run;
    RunInv(states, events, i);
  }

  /** In every run, also over the close: the values sent are those received and those in the buffer,
      and every value handed in was sent, or refused, or still waits with its sender. */
  lemma {:induction false} NothingLost<T>(states: seq<State<T>>, events: seq<Event<T>>, i: nat)
    requires Run(states, events) && i < |states|
    ensures states[i].sent == multiset(states[i].received) + multiset(states[i].buffer)
    ensures states[i].handed == states[i].sent + multiset(Blocked(states[i])) + states[i].refused
  {
    hide Run;
    RunInv(states, events, i);
  }

  /** A value is received at most once, and never if its send reported that the channel is closed. */
  lemma {:induction false} ReceivedOnceAndOnlyIfSent<T>(states: seq<State<T>>, events: seq<Event<T>>, i: nat,
                                                        item: Item<T>)
    requires Run(states, events) && i < |states|
    ensures multiset(states[i].received)[item] <= 1
    ensures item in states[i].refused ==> item !in states[i].received && item !in states[i].buffer
  {
    hide Run, Parking, Lined;
    RunInv(states, events, i);
    var s := states[i];
    assert s.handed[item] ==
           multiset(s.received)[item] + multiset(s.buffer)[item] + multiset(Blocked(s))[item] + s.refused[item];
    if s.handed[item] > 0 {
      assert item in s.handed;
    }
  }

  /** In every run, where a value goes: to a waiting receiver, into the buffer, to wait with its sender, or back
      to the sender as refused, each exactly if. */
  lemma {:induction false} SendEndsExactly<T>(states: seq<State<T>>, events: seq<Event<T>>, i: nat, value: T)
    requires Run(states, events) && i < |states| && states[i].parker == None
    ensures Enabled(states[i], Sends(value))
    ensures var s, s', item := states[i], Step(states[i], Sends(value)), Item(states[i].next, value);
      && (item in s'.received <==> s.receivers != [])
      && (item in s'.buffer <==> s.receivers == [] && |s.buffer| < s.capacity)
      && (s'.parker == Some(Sender(item)) <==> s.receivers == [] && |s.buffer| == s.capacity && !s.closed)
      && (item in s'.refused <==> s.receivers == [] && |s.buffer| == s.capacity && s.closed)
  {
    hide Run, Lined;
    RunInv(states, events, i);
    var s, item := states[i], Item(states[i].next, value);
    assert item !in s.handed;
    assert item !in s.refused && item !in s.sent;
    assert item !in multiset(s.received) && item !in multiset(s.buffer);
  }

  /** In every run, a receive ends without a value exactly if nothing is outstanding: then it parks on an open
      channel, and on a closed one nothing changes.  Otherwise it gets one value that was outstanding. */
  lemma {:induction false} RecvEndsExactly<T>(states: seq<State<T>>, events: seq<Event<T>>, i: nat, receiver: nat)
    requires Run(states, events) && i < |states| && states[i].parker == None
    ensures Enabled(states[i], Event<T>.Receives(receiver))
    ensures var s, s' := states[i], Step(states[i], Event<T>.Receives(receiver));
      && (s'.received == s.received <==> Outstanding(s) == [])
      && (s'.parker == Some(Receiver(receiver)) <==> Outstanding(s) == [] && !s.closed)
      && (Outstanding(s) == [] && s.closed ==> s' == s)
      && (Outstanding(s) != [] ==>
            |s'.received| == |s.received| + 1 && s.received <= s'.received
            && multiset(Outstanding(s)) == multiset(Outstanding(s')) + multiset{s'.received[|s.received|]})
  {
    hide Run, Lined, Conserved, Parking, Outstanding, StartRecv;
    RunInv(states, events, i);
    RecvEmpty(states[i], receiver);
    if Outstanding(states[i]) != [] {
      RecvTakesOne(states[i], receiver);
    }
  }

  lemma RecvEmpty<T>(s: State<T>, receiver: nat)
    requires Parking(s) && s.parker == None
    ensures var s' := StartRecv(s, receiver);
      && (Outstanding(s) == [] <==> s.buffer == [] && s.senders == [])
      && (Outstanding(s) == [] ==> s'.received == s.received && (s.closed ==> s' == s))
      && (s'.parker == Some(Receiver(receiver)) <==> Outstanding(s) == [] && !s.closed)
  {
  }

  lemma RecvTakesOne<T>(s: State<T>, receiver: nat)
    requires Parking(s) && s.parker == None && (s.buffer != [] || s.senders != [])
    ensures var s' := StartRecv(s, receiver);
      && |s'.received| == |s.received| + 1 && s.received <= s'.received
      && multiset(Outstanding(s)) == multiset(Outstanding(s')) + multiset{s'.received[|s.received|]}
  {
    hide Parking, Outstanding, StartRecv;
    RecvMoves(s, receiver);
    if s.senders != [] {
      Taken(s.senders);
      assert multiset(s.buffer + s.senders) == multiset(s.buffer) + multiset(s.senders);
    } else {
      assert multiset([s.buffer[0]] + Outstanding(StartRecv(s, receiver)))
          == multiset{s.buffer[0]} + multiset(Outstanding(StartRecv(s, receiver)));
    }
  }

  /** In every run a value is refused only if the channel is closed. */
  lemma {:induction false} RefusedOnlyIfClosed<T>(states: seq<State<T>>, events: seq<Event<T>>, i: nat)
    requires Run(states, events) && i < |states|
    ensures !states[i].closed ==> states[i].refused == multiset{}
    decreases i
  {
    hide Parking, Conserved, Lined;
    if i > 0 {
      RefusedOnlyIfClosed(states, events, i - 1);
      StaysClosed(states[i - 1], events[i - 1]);
    }
  }

  lemma StaysClosed<T>(s: State<T>, e: Event<T>)
    requires Enabled(s, e)
    ensures !Step(s, e).closed ==> !s.closed && Step(s, e).refused == s.refused
  {
  }

  // ----- the close

  /** After a close that did not fall before a parking nobody waits any more, and what is in the buffer
      can still be received, in order. */
  lemma {:induction false} ClosedDrains<T>(states: seq<State<T>>, events: seq<Event<T>>, i: nat, receiver: nat)
    requires Run(states, events) && i < |states| && states[i].closed
    ensures !states[i].late ==> states[i].senders == [] && states[i].receivers == [] && states[i].parker == None
    ensures var s, s' := states[i], Recv(states[i], receiver);
      s.senders == [] && s.parker == None ==>
        if s.buffer == [] then s' == s
        else s'.buffer == s.buffer[1..] && s'.received == s.received + [s.buffer[0]]
  {
    hide Run, Conserved, Lined;
    RunInv(states, events, i);
  }

  /** Whoever parks waits on an open channel exactly if the channel was not closed since it looked;
      otherwise it is the only one that waits, and no close is going to resume it. */
  lemma {:induction false} ParksForGood<T>(states: seq<State<T>>, events: seq<Event<T>>, i: nat)
    requires Run(states, events) && i < |events| && events[i].Parks?
    ensures states[i + 1].closed <==> states[i].late
    ensures states[i].late ==> var s := states[i + 1];
      && |s.senders| + |s.receivers| == 1
      && (s.numSenders > 0 ==> SubSender(s).senders == s.senders && SubSender(s).receivers == s.receivers)
      && (s.numReceivers > 0 ==> SubReceiver(s).senders == s.senders && SubReceiver(s).receivers == s.receivers)
  {
    hide Conserved, Lined;
    RunInv(states, events, i);
  }

  /** Such a run: a receiver looks, the only sender goes, and the receiver parks. */
  lemma ReceiverLeftWaiting() returns (states: seq<State<int>>, events: seq<Event<int>>)
    ensures Run(states, events) && states[|events|].closed && states[|events|].receivers == [0]
  {
    var s0 := Opened<int>(1, 1, 1);
    var s1 := Step(s0, Receives(0));
    var s2 := Step(s1, DropsSender);
    var s3 := Step(s2, Parks);
    states, events := [s0, s1, s2, s3], [Receives(0), DropsSender, Parks];
  }

  /** A send on a closed channel is refused exactly if the buffer is full, and no receiver was left waiting. */
  lemma {:induction false} RefusedExactlyWhenFull<T>(states: seq<State<T>>, events: seq<Event<T>>, i: nat, value: T)
    requires Run(states, events) && i < |states| && states[i].closed
    ensures var s := states[i];
      Item(s.next, value) in Send(s, value).refused <==> |s.buffer| == s.capacity && s.receivers == []
    ensures states[i].receivers != [] ==> states[i].late
  {
    hide Run, Lined;
    RunInv(states, events, i);
    var s := states[i];
    assert Item(s.next, value) !in s.handed;
    assert Item(s.next, value) !in s.refused;
  }

  /** So a value can be sent, successfully, into a buffer that nobody is ever going to read. */
  lemma SentToNobody() returns (states: seq<State<int>>, events: seq<Event<int>>)
    ensures Run(states, events)
    ensures var s := states[|events|];
      s.closed && s.numReceivers == 0 && s.buffer == [Item(0, 7)] && Item(0, 7) in s.sent
  {
    var s0 := Opened<int>(1, 1, 1);
    var s1 := Step(s0, DropsReceiver);
    var s2 := Step(s1, Sends(7));
    states, events := [s0, s1, s2], [DropsReceiver, Sends(7)];
  }

  /** Once the last end of a kind is gone there is never one again. */
  lemma {:induction false} EndsStayGone<T>(states: seq<State<T>>, events: seq<Event<T>>, i: nat, j: nat)
    requires Run(states, events) && i <= j < |states|
    ensures states[i].numReceivers == 0 ==> states[j].numReceivers == 0
    ensures states[i].numSenders == 0 ==> states[j].numSenders == 0
    decreases j - i
  {
    if i < j {
      EndsStayGone(states, events, i, j - 1);
    }
  }

  // ----- the order of values

  /** A receive passes the buffer by. */
  predicate Overtakes<T>(s: State<T>, e: Event<T>) {
    e.Receives? && s.senders != [] && s.buffer != []
  }

  /** The next receive takes the oldest value that is outstanding, exactly if no sender waits or there is no buffer. */
  lemma {:induction false} OldestFirst<T>(states: seq<State<T>>, events: seq<Event<T>>, i: nat, receiver: nat)
    requires Run(states, events) && i < |states| && states[i].parker == None && Outstanding(states[i]) != []
    ensures var s := states[i];
      Recv(s, receiver).received == s.received + [Outstanding(s)[0]] <==> s.senders == [] || s.capacity == 0
  {
    hide Run, Conserved;
    RunInv(states, events, i);
    var s := states[i];
    if s.senders != [] && s.capacity > 0 {
      assert Outstanding(s)[0] == s.buffer[0] && Outstanding(s)[|s.buffer|] == s.senders[0];
      assert Recv(s, receiver).received[|s.received|] == s.senders[0];
    }
  }

  lemma IncreasingMore<T>(l: seq<Item<T>>, item: Item<T>)
    requires Increasing(l) && Below(l, item.ticket)
    ensures Increasing(l + [item])
  {
  }

  /** Without overtaking, what is received and outstanding is in order. */
  lemma {:induction false} StepInOrder<T>(s: State<T>, e: Event<T>)
    requires Lined(s) && Parking(s) && Enabled(s, e) && Increasing(s.received + Outstanding(s)) && !Overtakes(s, e)
    ensures Increasing(Step(s, e).received + Outstanding(Step(s, e)))
  {
    hide Lined, Increasing, Below, Parking, StartSend, StartRecv, Park, SubSender, SubReceiver, Outstanding;
    var s' := Step(s, e);
    var all, all' := s.received + Outstanding(s), s'.received + Outstanding(s');
    if e.Sends? {
      SendMoves(s, e.value);
      assert all' == all || all' == all + [Item(s.next, e.value)];
      AllBelow(s);
      IncreasingMore(all, Item(s.next, e.value));
    } else if e.Receives? {
      RecvMoves(s, e.receiver);
      if s.senders != [] {
        assert Outstanding(s) == [s.senders[0]] + Outstanding(s');
      }
      assert all' == all;
    } else {
      OtherMoves(s, e);
      if Outstanding(s') != Outstanding(s) {
        DropInOrder(s);
        assert all' == s.received + s.buffer + Outstanding(s)[|s.buffer| + |s.senders|..];
      }
    }
  }

  lemma AllBelow<T>(s: State<T>)
    requires Lined(s)
    ensures Below(s.received + Outstanding(s), s.next)
  {
  }

  lemma DropInOrder<T>(s: State<T>)
    requires Increasing(s.received + Outstanding(s))
    ensures |s.buffer| + |s.senders| <= |Outstanding(s)|
    ensures Increasing(s.received + s.buffer + Outstanding(s)[|s.buffer| + |s.senders|..])
  {
    hide Increasing;
    var m := |s.received| + |s.buffer|;
    var n, all := m + |s.senders|, s.received + Outstanding(s);
    IncreasingWithout(all, m, n);
    assert all[..m] == s.received + s.buffer;
    assert all[n..] == Outstanding(s)[|s.buffer| + |s.senders|..];
  }

  /** An order that is broken stays broken. */
  lemma {:induction false} StepOutOfOrder<T>(s: State<T>, e: Event<T>)
    requires Parking(s) && Enabled(s, e) && !Increasing(s.received + s.buffer)
    ensures !Increasing(Step(s, e).received + Step(s, e).buffer)
  {
    hide Parking, StartSend, StartRecv, Park, SubSender, SubReceiver, Outstanding, Increasing;
    var s' := Step(s, e);
    var l, l' := s.received + s.buffer, s'.received + s'.buffer;
    if e.Sends? {
      SendMoves(s, e.value);
      var item := Item(s.next, e.value);
      SentBehind(s);
      assert l' == l || l' == l + [item];
      StillBroken(l, |l|, l', if l' == l then [] else [item]);
    } else if e.Receives? {
      RecvMoves(s, e.receiver);
      if s.senders != [] {
        StillBroken(l, |s.received|, l', [s.senders[0]]);
      } else {
        assert l' == l;
      }
    } else {
      OtherMoves(s, e);
    }
  }

  lemma SentBehind<T>(s: State<T>)
    ensures Outstanding(s) == [] ==> s.buffer == []
  {
  }

  lemma StillBroken<T>(l: seq<Item<T>>, n: nat, l': seq<Item<T>>, more: seq<Item<T>>)
    requires n <= |l| && l' == l[..n] + more + l[n..] && !Increasing(l)
    ensures !Increasing(l')
  {
    var i, j :| 0 <= i < j < |l| && l[i].ticket >= l[j].ticket;
    var i', j' := if i < n then i else i + |more|, if j < n then j else j + |more|;
    assert l'[i'] == l[i] && l'[j'] == l[j];
  }

  /** Overtaking breaks it. */
  lemma {:induction false} OvertakingBreaks<T>(s: State<T>, e: Event<T>)
    requires Lined(s) && Enabled(s, e) && Overtakes(s, e)
    ensures !Increasing(Step(s, e).received + Step(s, e).buffer)
  {
    var s' := Step(s, e);
    var l', n := s'.received + s'.buffer, |s.received|;
    assert l'[n] == s.senders[0] && l'[n + 1] == s.buffer[0];
    assert Outstanding(s)[0] == s.buffer[0] && Outstanding(s)[|s.buffer|] == s.senders[0];
  }

  ghost predicate NoOvertaking<T>(states: seq<State<T>>, events: seq<Event<T>>, n: nat)
    requires n <= |events| <= |states|
  {
    forall i :: 0 <= i < n ==> !Overtakes(states[i], events[i])
  }

  /** In every run, values come out of the channel in the order in which they were handed in, exactly if
      no receive ever found a parked sender behind a buffer that was not empty. */
  lemma {:induction false} FirstInFirstOutExactly<T>(states: seq<State<T>>, events: seq<Event<T>>, n: nat)
    requires Run(states, events) && n <= |events|
    ensures Increasing(states[n].received + states[n].buffer) <==> NoOvertaking(states, events, n)
    ensures NoOvertaking(states, events, n) ==> Increasing(states[n].received + Outstanding(states[n]))
  {
    hide Parking, Conserved, Lined, Step, Increasing, Overtakes, Outstanding;
    if n == 0 {
      NothingOutOfOrder(states[0]);
    } else {
      var s, e := states[n - 1], events[n - 1];
      FirstInFirstOutExactly(states, events, n - 1);
      RunInv(states, events, n - 1);
      assert NoOvertaking(states, events, n) <==> NoOvertaking(states, events, n - 1) && !Overtakes(s, e);
      if Overtakes(s, e) {
        OvertakingBreaks(s, e);
      } else if NoOvertaking(states, events, n - 1) {
        StepInOrder(s, e);
        BufferInOrder(states[n]);
      } else {
        StepOutOfOrder(s, e);
      }
    }
  }

  lemma NothingOutOfOrder<T>(s: State<T>)
    requires s.received == [] && s.buffer == [] && s.senders == [] && s.parker == None
    ensures Increasing(s.received + s.buffer) && Increasing(s.received + Outstanding(s))
  {
  }

  lemma BufferInOrder<T>(s: State<T>)
    requires Increasing(s.received + Outstanding(s))
    ensures Increasing(s.received + s.buffer)
  {
    assert s.received + s.buffer == (s.received + Outstanding(s))[..|s.received| + |s.buffer|];
  }

  /** A run in which a receive overtakes: two sends, of which the second parks, and two receives. */
  function Overtaking(): seq<Event<int>> {
    [Sends(10), Sends(20), Parks, Receives(0), Receives(0)]
  }

  ghost function Overtaken(k: nat): State<int> {
    var a, b := Item(0, 10), Item(1, 20);
    var both := multiset{a} + multiset{b};
    match k
    case 0 => Opened(1, 1, 1)
    case 1 => State(1, [a], [], [], None, false, false, 1, 1, 1, multiset{a}, multiset{a}, multiset{}, [])
    case 2 => State(1, [a], [], [], Some(Sender(b)), false, false, 1, 1, 2, both, multiset{a}, multiset{}, [])
    case 3 => State(1, [a], [b], [], None, false, false, 1, 1, 2, both, multiset{a}, multiset{}, [])
    case 4 => State(1, [a], [], [], None, false, false, 1, 1, 2, both, both, multiset{}, [b])
    case _ => State(1, [], [], [], None, false, false, 1, 1, 2, both, both, multiset{}, [b, a])
  }

  lemma OvertakingStep(k: nat)
    requires k < |Overtaking()|
    ensures Enabled(Overtaken(k), Overtaking()[k]) && Step(Overtaken(k), Overtaking()[k]) == Overtaken(k + 1)
  {
    if k == 3 {
      assert [Item(1, 20)][1..] == [] && [] + [Item(1, 20)] == [Item(1, 20)];
    } else if k == 4 {
      assert [Item(0, 10)][1..] == [] && [Item(1, 20)] + [Item(0, 10)] == [Item(1, 20), Item(0, 10)];
    }
  }

  /** The channel is not first-in first-out: a receiver takes the value of a parked sender ahead of the buffer. */
  lemma NotFirstInFirstOut() returns (states: seq<State<int>>, events: seq<Event<int>>)
    ensures Run(states, events) && states[|events|].received == [Item(1, 20), Item(0, 10)]
  {
    hide Step, Enabled;
    events := Overtaking();
    states := seq(6, i requires 0 <= i < 6 => Overtaken(i));
    forall i | 0 <= i < |events|
      ensures Enabled(states[i], events[i]) && states[i + 1] == Step(states[i], events[i])
    {
      OvertakingStep(i);
    }
  }
}

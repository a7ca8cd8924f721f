/** The in-memory message bus: two bounded channels with a forwarding goroutine between them, many
    senders, one receiver, and a shutdown. Every channel operation is one atomic step; a run is any
    interleaving of steps. */
module MessageBus {
  import opened Text

  datatype Message = Message(source: string, payload: string)

  /** The buffer size of both channels. */
  const CAPACITY: nat := 100

  /** The bus between two steps. `accepted` and `delivered` are what Send has accepted and the reader
      has been given so far; `dropped` is what the forwarder was holding when it stopped. */
  datatype State = State(
    sendChan: seq<Message>, held: Option<Message>, receiveChan: seq<Message>,
    cancelled: bool, forwarding: bool, closed: bool,
    accepted: seq<Message>, delivered: seq<Message>, dropped: seq<Message>)

  const INITIAL: State := State([], None, [], false, true, false, [], [], [])

  datatype Action = Accept(msg: Message) | Take | Put | Stop | Deliver | Cancel | Shut

  predicate Enabled(s: State, a: Action) {
    match a
    case Accept(_) => !s.closed && |s.sendChan| < CAPACITY
    case Take => s.forwarding && s.held.None? && s.sendChan != []
    case Put => s.forwarding && s.held.Some? && |s.receiveChan| < CAPACITY
    case Stop => s.forwarding && s.cancelled
    case Deliver => s.receiveChan != []
    case Cancel => !s.cancelled
    case Shut => s.cancelled && !s.forwarding && !s.closed
  }

  function Do(s: State, a: Action): State
    requires Enabled(s, a)
  {
    match a
    case Accept(msg) => s.(sendChan := s.sendChan + [msg], accepted := s.accepted + [msg])
    case Take => s.(held := Some(s.sendChan[0]), sendChan := s.sendChan[1..])
    case Put => s.(held := None, receiveChan := s.receiveChan + [s.held.value])
    case Stop => s.(forwarding := false, held := None, dropped := Held(s))
    case Deliver => s.(receiveChan := s.receiveChan[1..], delivered := s.delivered + [s.receiveChan[0]])
    case Cancel => s.(cancelled := true)
    case Shut => s.(closed := true)
  }

  function Held(s: State): seq<Message> {
    if s.held.Some? then [s.held.value] else []
  }

  // ---------------------------------------------------------------- the bus as the source writes it

  datatype SendResult = Sent | Canceled | Blocked | Panicked
  datatype ReceiveResult = Received(msg: Message) | Waiting | EndOfMessages

  class InMemoryMessageBus {
    var sendChan: seq<Message>
    var held: Option<Message>
    var receiveChan: seq<Message>
    var cancelled: bool
    var forwarding: bool
    var closed: bool
    ghost var accepted: seq<Message>
    ghost var delivered: seq<Message>
    ghost var dropped: seq<Message>

    ghost function View(): State
      reads this
    {
      State(sendChan, held, receiveChan, cancelled, forwarding, closed, accepted, delivered, dropped)
    }

    constructor ()
      ensures View() == INITIAL
    {
      sendChan, held, receiveChan := [], None, [];
      cancelled, forwarding, closed := false, true, false;
      accepted, delivered, dropped := [], [], [];
    }

    /** One attempt of Send's select; `preferSend` is the scheduler's choice when both cases are ready.
        Sending on the closed channel is ready too, and panics. */
    method Send(msg: Message, preferSend: bool) returns (r: SendResult)
      modifies this
      ensures r.Sent? ==> Enabled(old(View()), Accept(msg)) && View() == Do(old(View()), Accept(msg))
      ensures !r.Sent? ==> View() == old(View())
      ensures r.Sent? || r.Panicked? <==>
                (old(closed) || |old(sendChan)| < 100) && (preferSend || !old(cancelled))
      ensures r.Panicked? <==> old(closed) && (preferSend || !old(cancelled))
      ensures r.Blocked? <==> !old(cancelled) && !old(closed) && |old(sendChan)| >= 100
    {
      var sendReady := closed || |sendChan| < CAPACITY;
      if sendReady && (preferSend || !cancelled) {
        if closed {
          return Panicked;
        }
        sendChan := sendChan + [msg];
        accepted := accepted + [msg];
        return Sent;
      }
      return if cancelled then Canceled else Blocked;
    }

    /** One turn of the forwarding goroutine: it stops, takes a message, passes one on, or waits. */
    method Forward(preferStop: bool) returns (a: Option<Action>)
      modifies this
      ensures a.Some? ==> a.value in {Take, Put, Stop} && Enabled(old(View()), a.value)
                          && View() == Do(old(View()), a.value)
      ensures a.None? ==> View() == old(View())
                          && forall x :: x in {Take, Put, Stop} ==> !Enabled(View(), x)
      ensures a == Some(Stop) <==>
                old(forwarding) && old(cancelled) &&
                (preferStop || forall x :: x in {Take, Put} ==> !Enabled(old(View()), x))
    {
      if !forwarding {
        return None;
      }
      if held.None? {
        if cancelled && (preferStop || sendChan == []) {
          forwarding := false;
          dropped := [];
          return Some(Stop);
        }
        if sendChan == [] {
          return None;
        }
        held, sendChan := Some(sendChan[0]), sendChan[1..];
        return Some(Take);
      }
      if cancelled && (preferStop || |receiveChan| >= CAPACITY) {
        forwarding := false;
        dropped := [held.value];
        held := None;
        return Some(Stop);
      }
      if |receiveChan| >= CAPACITY {
        return None;
      }
      receiveChan := receiveChan + [held.value];
      held := None;
      return Some(Put);
    }

    /** One receive on the channel the reader holds. */
    method Receive() returns (r: ReceiveResult)
      modifies this
      ensures r.Received? ==> Enabled(old(View()), Deliver) && View() == Do(old(View()), Deliver)
                              && r.msg == old(receiveChan)[0]
      ensures !r.Received? ==> View() == old(View()) && receiveChan == []
      ensures r.Received? <==> old(receiveChan) != []
      ensures r.EndOfMessages? <==> old(receiveChan) == [] && old(closed)
    {
      if receiveChan == [] {
        return if closed then EndOfMessages else Waiting;
      }
      r := Received(receiveChan[0]);
      delivered := delivered + [receiveChan[0]];
      receiveChan := receiveChan[1..];
    }

    /** The first half of Close; cancelling again changes nothing. */
    method CancelContext()
      modifies this
      ensures !old(cancelled) ==> Enabled(old(View()), Cancel) && View() == Do(old(View()), Cancel)
      ensures old(cancelled) ==> View() == old(View())
    {
      cancelled := true;
    }

    /** The second half of Close, once the forwarder has stopped. */
    method CloseChannels()
      requires cancelled && !forwarding && !closed
      modifies this
      ensures Enabled(old(View()), Shut) && View() == Do(old(View()), Shut)
    {
      closed := true;
    }
  }

  // ---------------------------------------------------------------- every run

  ghost predicate Runs(s: State, actions: seq<Action>, s': State)
    decreases |actions|
  {
    if actions == [] then s == s'
    else
      var n := |actions| - 1;
      exists mid :: Runs(s, actions[..n], mid) && Enabled(mid, actions[n]) && s' == Do(mid, actions[n])
  }

  /** The messages the accepting steps of a run took, in order. */
  function Sends(actions: seq<Action>): seq<Message> {
    if actions == [] then []
    else
      var n := |actions| - 1;
      Sends(actions[..n]) + (if actions[n].Accept? then [actions[n].msg] else [])
  }

  /** How many steps of a run moved a message one stage on. */
  function Moves(actions: seq<Action>): nat {
    if actions == [] then 0
    else
      var n := |actions| - 1;
      Moves(actions[..n]) + (if actions[n] in {Take, Put, Deliver} then 1 else 0)
  }

  /** What every step keeps: accepted messages are, in order, delivered, waiting for the reader, held or
      dropped by the forwarder, and waiting for the forwarder. */
  predicate Inv(s: State) {
    && s.accepted == s.delivered + s.receiveChan + Held(s) + s.dropped + s.sendChan
    && |s.sendChan| <= CAPACITY && |s.receiveChan| <= CAPACITY && |s.dropped| <= 1
    && (s.forwarding ==> s.dropped == [])
    && (!s.forwarding ==> s.held.None? && s.cancelled)
    && (s.closed ==> !s.forwarding)
  }

  lemma AcceptRegroups(before: seq<Message>, q: seq<Message>, m: Message)
    ensures before + q + [m] == before + (q + [m])
  {
  }

  lemma TakeRegroups(d: seq<Message>, r: seq<Message>, q: seq<Message>)
    requires q != []
    ensures d + r + [] + [] + q == d + r + [q[0]] + [] + q[1..]
  {
    assert q == [q[0]] + q[1..];
  }

  lemma PutRegroups(d: seq<Message>, r: seq<Message>, h: seq<Message>, q: seq<Message>)
    ensures d + r + h + [] + q == d + (r + h) + [] + [] + q
  {
  }

  lemma StopRegroups(d: seq<Message>, r: seq<Message>, h: seq<Message>, q: seq<Message>)
    ensures d + r + h + [] + q == d + r + [] + h + q
  {
  }

  lemma DeliverRegroups(d: seq<Message>, r: seq<Message>, h: seq<Message>, x: seq<Message>, q: seq<Message>)
    requires r != []
    ensures d + r + h + x + q == d + [r[0]] + r[1..] + h + x + q
  {
    assert r == [r[0]] + r[1..];
    assert d + r == d + [r[0]] + r[1..];
  }

  lemma StepKeepsInv(s: State, a: Action)
    requires Inv(s) && Enabled(s, a)
    ensures Inv(Do(s, a))
  {
    var d, r, h, x, q := s.delivered, s.receiveChan, Held(s), s.dropped, s.sendChan;
    match a
    case Accept(msg) => AcceptRegroups(d + r + h + x, q, msg);
    case Take => TakeRegroups(d, r, q);
    case Put => PutRegroups(d, r, h, q);
    case Stop => StopRegroups(d, r, h, q);
    case Deliver => DeliverRegroups(d, r, h, x, q);
    case Cancel =>
    case Shut =>
  }

  /** The moves the messages in the bus have behind them. */
  function Progress(s: State): nat {
    3 * |s.delivered| + 2 * |s.receiveChan| + |Held(s)|
  }

  lemma StepCounts(s: State, a: Action)
    requires Enabled(s, a)
    ensures Do(s, a).accepted == s.accepted + (if a.Accept? then [a.msg] else [])
    ensures s.cancelled ==> Do(s, a).cancelled
    ensures !Do(s, a).cancelled ==> Progress(Do(s, a)) == Progress(s) + (if a in {Take, Put, Deliver} then 1 else 0)
  {
  }

  lemma {:induction false} RunKeepsInv(actions: seq<Action>, s: State)
    requires Runs(INITIAL, actions, s)
    ensures Inv(s) && s.accepted == Sends(actions)
    ensures !s.cancelled ==> Moves(actions) == Progress(s)
  {
    hide Do, Enabled;
    if actions != [] {
      hide Inv, Progress;
      var n := |actions| - 1;
      var mid :| Runs(INITIAL, actions[..n], mid) && Enabled(mid, actions[n]) && s == Do(mid, actions[n]);
      RunKeepsInv(actions[..n], mid);
      StepKeepsInv(mid, actions[n]);
      StepCounts(mid, actions[n]);
    }
  }

  /** The messages of one source. */
  function BySource(messages: seq<Message>, source: string): seq<Message> {
    if messages == [] then []
    else
      var n := |messages| - 1;
      BySource(messages[..n], source) + (if messages[n].source == source then [messages[n]] else [])
  }

  /** They are exactly those with that source, in order. */
  lemma {:induction false} BySourceExactly(messages: seq<Message>, source: string) returns (at: seq<nat>)
    ensures Choice(at, 0, |messages|) && |BySource(messages, source)| == |at|
    ensures forall k :: 0 <= k < |at| ==> BySource(messages, source)[k] == messages[at[k]]
    ensures forall j :: 0 <= j < |messages| ==> (j in at <==> messages[j].source == source)
  {
    at := [];
    if messages != [] {
      var n := |messages| - 1;
      at := BySourceExactly(messages[..n], source);
      assert forall k :: 0 <= k < |at| ==> messages[..n][at[k]] == messages[at[k]];
      if messages[n].source == source {
        at := at + [n];
      }
    }
  }

  lemma {:induction false} BySourceOfSum(a: seq<Message>, b: seq<Message>, source: string)
    ensures BySource(a + b, source) == BySource(a, source) + BySource(b, source)
  {
    if b == [] {
      assert a + b == a;
    } else {
      var n := |b| - 1;
      assert (a + b)[..|a| + n] == a + b[..n];
      BySourceOfSum(a, b[..n], source);
    }
  }

  /** In every interleaving what the reader gets is a prefix of what Send accepted, for all sources
      together and for each one, and at most 201 messages are in between. */
  lemma DeliveredIsPrefixOfAccepted(actions: seq<Action>, s: State, source: string)
    requires Runs(INITIAL, actions, s)
    ensures s.delivered <= Sends(actions)
    ensures |Sends(actions)| - |s.delivered| <= 201
    ensures BySource(s.delivered, source) <= BySource(Sends(actions), source)
  {
    hide Runs, Sends, BySource;
    RunKeepsInv(actions, s);
    var rest := InTransit(s);
    BySourceOfSum(s.delivered, rest, source);
  }

  lemma InTransit(s: State) returns (rest: seq<Message>)
    requires Inv(s)
    ensures s.accepted == s.delivered + rest && |rest| <= 2 * CAPACITY + 1
  {
    rest := s.receiveChan + Held(s) + s.dropped + s.sendChan;
    assert s.accepted == s.delivered + rest;
  }

  /** One bounded first-in first-out queue: what has entered it and what has left it. */
  datatype Fifo = Fifo(entered: seq<Message>, left: seq<Message>)

  ghost predicate FifoStep(q: Fifo, q': Fifo) {
    || q' == q
    || (exists m :: q' == q.(entered := q.entered + [m]))
    || (|q.left| < |q.entered| && q' == q.(left := q.left + [q.entered[|q.left|]]))
  }

  /** Every step of the bus is one step of that queue, or none. */
  lemma StepRefinesFifo(s: State, a: Action)
    requires Inv(s) && Enabled(s, a)
    ensures FifoStep(Fifo(s.accepted, s.delivered), Fifo(Do(s, a).accepted, Do(s, a).delivered))
  {
    var q, q' := Fifo(s.accepted, s.delivered), Fifo(Do(s, a).accepted, Do(s, a).delivered);
    match a
    case Accept(msg) =>
      assert q' == q.(entered := q.entered + [msg]);
    case Deliver =>
      assert s.accepted[|s.delivered|] == s.receiveChan[0];
    case _ =>
  }

  /** Before Close, each accepted message takes exactly three moves to reach the reader: a run has at most
      that many, has that many exactly when everything accepted is delivered, and until then some move
      is possible. So every reader that keeps reading gets everything. */
  lemma OpenBusDeliversAll(actions: seq<Action>, s: State)
    requires Runs(INITIAL, actions, s) && !s.cancelled
    ensures Moves(actions) <= 3 * |Sends(actions)|
    ensures Moves(actions) == 3 * |Sends(actions)| <==> s.delivered == Sends(actions)
    ensures s.delivered != Sends(actions) ==> exists a :: a in {Take, Put, Deliver} && Enabled(s, a)
  {
    hide Runs, Sends, Moves;
    RunKeepsInv(actions, s);
    assert |s.accepted| == |s.delivered| + |s.receiveChan| + |Held(s)| + |s.sendChan|;
    if s.delivered != Sends(actions) {
      assert s.receiveChan + Held(s) + s.sendChan != [] by {
        assert s.accepted == s.delivered + (s.receiveChan + Held(s) + s.dropped + s.sendChan);
      }
      if s.receiveChan != [] {
        assert Enabled(s, Deliver);
      } else if s.held.Some? {
        assert Enabled(s, Put);
      } else {
        assert Enabled(s, Take);
      }
    }
  }

  // ---------------------------------------------------------------- shutdown

  /** The channels are closed and the reader has read all that is on its side; nothing can happen any more. */
  predicate Ended(s: State) {
    s.closed && s.receiveChan == []
  }

  /** At the end the messages missing are the last ones accepted, at most 101 of them. */
  lemma ShutdownLoss(actions: seq<Action>, s: State)
    requires Runs(INITIAL, actions, s) && Ended(s)
    ensures Sends(actions) == s.delivered + s.dropped + s.sendChan
    ensures |Sends(actions)| - |s.delivered| <= 101
    ensures forall a :: !Enabled(s, a)
  {
    RunKeepsInv(actions, s);
    assert s.delivered + [] + [] + s.dropped + s.sendChan == s.delivered + s.dropped + s.sendChan;
  }

  lemma NoSteps(s: State)
    ensures Runs(s, [], s)
  {
  }

  lemma OneMore(s: State, actions: seq<Action>, mid: State, a: Action)
    requires Runs(s, actions, mid) && Enabled(mid, a)
    ensures Runs(s, actions + [a], Do(mid, a))
  {
    hide Enabled, Do;
    assert (actions + [a])[..|actions|] == actions;
  }

  /** The least run that loses something: one message, and Close before the forwarder takes it. */
  lemma MessageLost(msg: Message) returns (s: State)
    ensures Runs(INITIAL, [Accept(msg), Cancel, Stop, Shut], s) && Ended(s)
    ensures s.accepted == [msg] && s.delivered == []
  {
    hide Runs;
    NoSteps(INITIAL);
    OneMore(INITIAL, [], INITIAL, Accept(msg));
    var s1 := Do(INITIAL, Accept(msg));
    OneMore(INITIAL, [] + [Accept(msg)], s1, Cancel);
    var s2 := Do(s1, Cancel);
    OneMore(INITIAL, [] + [Accept(msg)] + [Cancel], s2, Stop);
    var s3 := Do(s2, Stop);
    OneMore(INITIAL, [] + [Accept(msg)] + [Cancel] + [Stop], s3, Shut);
    s := Do(s3, Shut);
    assert [] + [Accept(msg)] + [Cancel] + [Stop] + [Shut] == [Accept(msg), Cancel, Stop, Shut];
  }

  predicate NoAccept(actions: seq<Action>) {
    forall a :: a in actions ==> !a.Accept?
  }

  /** However it goes on from here without new messages, all that was accepted is delivered in the end. */
  ghost predicate ClosesWithoutLoss(s: State) {
    forall actions, end :: Runs(s, actions, end) && NoAccept(actions) && Ended(end) ==> end.delivered == end.accepted
  }

  /** Nothing is waiting for the forwarder, held or dropped by it. */
  predicate Idle(s: State) {
    s.sendChan == [] && s.held.None? && s.dropped == []
  }

  lemma {:induction false} LaterInv(s: State, actions: seq<Action>, end: State)
    requires Runs(s, actions, end) && Inv(s)
    ensures Inv(end)
    ensures NoAccept(actions) && Idle(s) ==> Idle(end)
  {
    hide Do, Enabled, Inv, Idle;
    if actions != [] {
      var n := |actions| - 1;
      var mid :| Runs(s, actions[..n], mid) && Enabled(mid, actions[n]) && end == Do(mid, actions[n]);
      LaterInv(s, actions[..n], mid);
      StepKeepsInv(mid, actions[n]);
      StaysIdle(mid, actions[n]);
    }
  }

  lemma StaysIdle(s: State, a: Action)
    requires Enabled(s, a)
    ensures Idle(s) && !a.Accept? ==> Idle(Do(s, a))
  {
  }

  /** The reader reads its side empty. */
  lemma {:induction false} Drain(s: State, actions: seq<Action>, mid: State) returns (all: seq<Action>, end: State)
    requires Runs(s, actions, mid) && NoAccept(actions)
    ensures Runs(s, all, end) && NoAccept(all) && end.receiveChan == []
    ensures end.closed == mid.closed && end.held == mid.held && end.dropped == mid.dropped
    ensures end.sendChan == mid.sendChan
    decreases |mid.receiveChan|
  {
    hide Runs;
    if mid.receiveChan == [] {
      all, end := actions, mid;
    } else {
      OneMore(s, actions, mid, Deliver);
      all, end := Drain(s, actions + [Deliver], Do(mid, Deliver));
    }
  }

  /** A forwarder with something to do may stop first, and then that is lost. */
  lemma BusyLoses(s: State) returns (actions: seq<Action>, end: State)
    requires Inv(s) && !s.cancelled && !Idle(s)
    ensures Runs(s, actions, end) && NoAccept(actions) && Ended(end) && end.delivered != end.accepted
  {
    hide Runs;
    NoSteps(s);
    OneMore(s, [], s, Cancel);
    var s1 := Do(s, Cancel);
    OneMore(s, [] + [Cancel], s1, Stop);
    var s2 := Do(s1, Stop);
    OneMore(s, [] + [Cancel] + [Stop], s2, Shut);
    actions, end := Drain(s, [] + [Cancel] + [Stop] + [Shut], Do(s2, Shut));
    LaterInv(s, actions, end);
    assert |end.accepted| == |end.delivered| + |end.dropped| + |end.sendChan|;
  }

  /** Closing an open bus is sure to lose nothing exactly when nothing is on the forwarder's side: the send
      channel is empty and the forwarder holds no message. */
  lemma NothingLostIff(actions: seq<Action>, s: State)
    requires Runs(INITIAL, actions, s) && !s.cancelled
    ensures ClosesWithoutLoss(s) <==> s.sendChan == [] && s.held.None?
  {
    hide Runs;
    RunKeepsInv(actions, s);
    if Idle(s) {
      forall later, end | Runs(s, later, end) && NoAccept(later) && Ended(end)
        ensures end.delivered == end.accepted
      {
        LaterInv(s, later, end);
        assert end.delivered + [] + [] + [] + [] == end.delivered;
      }
    } else {
      var later, end := BusyLoses(s);
    }
  }
}

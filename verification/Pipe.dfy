/** The in-process pipe: in each direction a queue of sends and at most one
    pending receive.  Completions are logged in the order they are made; the
    callbacks' own actions are separate steps. */
module Pipe {
  import opened Prelude
  import opened Wire

  datatype Side = ClientSide | ServerSide

  datatype Sending = Sending(id: nat, parts: seq<seq<byte>>)

  /** The `receive_error` field a receiver's callback looks at. */
  datatype RecvError = NoError | Overlapped | ConnectionClosed

  /** One direction: the sender's queue, the receiver's pending receive and the
      receiver's error field. */
  datatype Lane = Lane(queue: seq<Sending>, recv: Option<nat>, error: RecvError)

  datatype Event =
    | Received(id: nat, to: Side, payload: seq<byte>, error: RecvError)
    | Sent(id: nat)
    | SendRejected(id: nat)
    | ReceiveRejected(id: nat, overlapped: bool)
    | ReceiveClosed(id: nat)
    | SendClosed(id: nat)

  /** `issued` counts the operations called, which are named by that count;
      `accepted` records the payloads accepted towards each side. */
  datatype Conn = Conn(
    toClient: Lane, toServer: Lane, clientClosed: bool, serverClosed: bool,
    log: seq<Event>, issued: nat, freed: nat,
    acceptedToClient: seq<seq<byte>>, acceptedToServer: seq<seq<byte>>)
  {
    predicate Closed() { clientClosed || serverClosed }

    function To(side: Side): Lane { if side == ClientSide then toClient else toServer }

    function Accepted(side: Side): seq<seq<byte>> {
      if side == ClientSide then acceptedToClient else acceptedToServer
    }

    function WithLane(side: Side, l: Lane): Conn {
      if side == ClientSide then this.(toClient := l) else this.(toServer := l)
    }
  }

  const IDLE := Lane([], None, NoError)

  const SHUT := Lane([], None, ConnectionClosed)

  const NEW := Conn(IDLE, IDLE, false, false, [], 0, 0, [], [])

  function Other(side: Side): Side { if side == ClientSide then ServerSide else ClientSide }

  // ---------- the operations ----------

  predicate Ready(l: Lane) { l.recv.Some? && l.queue != [] }

  function Taken(l: Lane): Lane
    requires l.queue != []
  {
    l.(queue := l.queue[1..], recv := None)
  }

  /** One transfer, if a receive is pending and a send is queued: the receive
      completes first, then the send.  The error field is left as it is. */
  function PumpLane(c: Conn, side: Side): Conn {
    var l := c.To(side);
    if !Ready(l) then c else
      c.WithLane(side, Taken(l)).(
        log := c.log + [Received(l.recv.value, side, Concat(l.queue[0].parts), l.error), Sent(l.queue[0].id)])
  }

  function Pump(c: Conn): Conn {
    PumpLane(PumpLane(c, ClientSide), ServerSide)
  }

  function Send(c: Conn, from: Side, parts: seq<seq<byte>>): Conn {
    var id, d := c.issued, c.(issued := c.issued + 1);
    if c.Closed() then d.(log := d.log + [SendRejected(id)]) else
      var to := Other(from);
      var l := d.To(to);
      var e := d.WithLane(to, l.(queue := l.queue + [Sending(id, parts)]));
      Pump(if to == ClientSide then e.(acceptedToClient := e.acceptedToClient + [Concat(parts)])
           else e.(acceptedToServer := e.acceptedToServer + [Concat(parts)]))
  }

  function Receive(c: Conn, at: Side): Conn {
    var id, l, d := c.issued, c.To(at), c.(issued := c.issued + 1);
    if l.recv.Some? then
      d.WithLane(at, l.(error := Overlapped)).(log := d.log + [ReceiveRejected(id, true)])
    else if c.Closed() then
      d.WithLane(at, l.(error := ConnectionClosed)).(log := d.log + [ReceiveRejected(id, false)])
    else
      Pump(d.WithLane(at, l.(recv := Some(id), error := NoError)))
  }

  function CloseRecv(recv: Option<nat>): seq<Event> {
    if recv.Some? then [ReceiveClosed(recv.value)] else []
  }

  function CloseSends(queue: seq<Sending>): (es: seq<Event>)
    ensures |es| == |queue| && forall k :: 0 <= k < |es| ==> es[k] == SendClosed(queue[k].id)
  {
    seq(|queue|, k requires 0 <= k < |queue| => SendClosed(queue[k].id))
  }

  /** The first side to close completes everything with an error; the second
      one releases the connection. */
  function Close(c: Conn, who: Side): Conn {
    var d := if who == ClientSide then c.(clientClosed := true) else c.(serverClosed := true);
    d.(toClient := SHUT, toServer := SHUT,
       log := c.log + CloseRecv(c.toServer.recv) + CloseRecv(c.toClient.recv)
              + CloseSends(c.toClient.queue) + CloseSends(c.toServer.queue),
       freed := if d.clientClosed && d.serverClosed then c.freed + 1 else c.freed)
  }

  datatype Op = OpSend(side: Side, parts: seq<seq<byte>>) | OpReceive(side: Side) | OpClose(side: Side)

  /** Each side closes its end at most once, and once both have the connection
      is gone. */
  predicate Legal(c: Conn, op: Op) {
    && c.freed == 0
    && (op.OpClose? ==> !(if op.side == ClientSide then c.clientClosed else c.serverClosed))
  }

  function Step(c: Conn, op: Op): Conn {
    match op
    case OpSend(side, parts) => Send(c, side, parts)
    case OpReceive(side) => Receive(c, side)
    case OpClose(side) => Close(c, side)
  }

  // ---------- the invariant ----------

  function Delivered(log: seq<Event>, to: Side): seq<seq<byte>> {
    if log == [] then [] else
      var e := log[|log| - 1];
      Delivered(log[..|log| - 1], to) + if e.Received? && e.to == to then [e.payload] else []
  }

  function Payloads(queue: seq<Sending>): (ps: seq<seq<byte>>)
    ensures |ps| == |queue| && forall k :: 0 <= k < |ps| ==> ps[k] == Concat(queue[k].parts)
  {
    seq(|queue|, k requires 0 <= k < |queue| => Concat(queue[k].parts))
  }

  function Ids(log: seq<Event>): (s: seq<nat>)
    ensures |s| == |log| && forall k :: 0 <= k < |s| ==> s[k] == log[k].id
  {
    seq(|log|, k requires 0 <= k < |log| => log[k].id)
  }

  function Waiting(l: Lane): (s: seq<nat>) {
    (if l.recv.Some? then [l.recv.value] else []) + seq(|l.queue|, k requires 0 <= k < |l.queue| => l.queue[k].id)
  }

  /** While open, delivered then queued is what was accepted, in order; after a
      close what was delivered is a first part of it. */
  predicate LaneConserved(c: Conn, side: Side) {
    var done := Delivered(c.log, side);
    if c.Closed() then done <= c.Accepted(side) else done + Payloads(c.To(side).queue) == c.Accepted(side)
  }

  /** Every operation issued is completed or pending, exactly one of the two and
      exactly once. */
  ghost predicate OnceEach(c: Conn) {
    multiset(Ids(c.log)) + multiset(Waiting(c.toClient)) + multiset(Waiting(c.toServer)) == multiset(Range(0, c.issued))
  }

  predicate Quiet(c: Conn) {
    && !Ready(c.toClient) && !Ready(c.toServer)
    && (c.Closed() ==> c.toClient == SHUT && c.toServer == SHUT)
    && c.freed == if c.clientClosed && c.serverClosed then 1 else 0
  }

  ghost predicate Inv(c: Conn) {
    LaneConserved(c, ClientSide) && LaneConserved(c, ServerSide) && OnceEach(c) && Quiet(c)
  }

  // ---------- conservation ----------

  lemma DeliveredSnoc(log: seq<Event>, e: Event, to: Side)
    ensures Delivered(log + [e], to) == Delivered(log, to) + if e.Received? && e.to == to then [e.payload] else []
  {
    assert (log + [e])[..|log|] == log;
  }

  lemma {:induction false} DeliveredAppend(log: seq<Event>, es: seq<Event>, to: Side)
    requires forall k :: 0 <= k < |es| ==> !es[k].Received?
    ensures Delivered(log + es, to) == Delivered(log, to)
  {
    if es == [] {
      assert log + es == log;
    } else {
      DeliveredAppend(log, es[..|es| - 1], to);
      assert log + es == log + es[..|es| - 1] + [es[|es| - 1]];
      DeliveredSnoc(log + es[..|es| - 1], es[|es| - 1], to);
    }
  }

  lemma DeliveredPair(log: seq<Event>, e1: Event, e2: Event, to: Side)
    requires e1.Received? && !e2.Received?
    ensures Delivered(log + [e1, e2], to) == Delivered(log, to) + if e1.to == to then [e1.payload] else []
  {
    assert log + [e1, e2] == log + [e1] + [e2];
    DeliveredSnoc(log, e1, to);
    DeliveredSnoc(log + [e1], e2, to);
  }

  lemma PayloadsTail(queue: seq<Sending>)
    requires queue != []
    ensures Payloads(queue) == [Concat(queue[0].parts)] + Payloads(queue[1..])
  {
    hide Concat;
  }

  lemma PumpLaneConserves(c: Conn, side: Side, other: Side)
    requires !c.Closed() && LaneConserved(c, other)
    ensures LaneConserved(PumpLane(c, side), other)
  {
    hide Concat, Delivered, Payloads;
    var l := c.To(side);
    if Ready(l) {
      DeliveredPair(c.log, Received(l.recv.value, side, Concat(l.queue[0].parts), l.error), Sent(l.queue[0].id), other);
      PayloadsTail(l.queue);
    }
  }

  lemma SendConserves(c: Conn, from: Side, parts: seq<seq<byte>>, side: Side)
    requires LaneConserved(c, side)
    ensures LaneConserved(Send(c, from, parts), side)
  {
    hide Concat, Delivered, PumpLane;
    if c.Closed() {
      DeliveredSnoc(c.log, SendRejected(c.issued), side);
    } else {
      var to := Other(from);
      var l := c.To(to);
      var e := c.(issued := c.issued + 1).WithLane(to, l.(queue := l.queue + [Sending(c.issued, parts)]));
      var f := if to == ClientSide then e.(acceptedToClient := e.acceptedToClient + [Concat(parts)])
               else e.(acceptedToServer := e.acceptedToServer + [Concat(parts)]);
      assert Payloads(l.queue + [Sending(c.issued, parts)]) == Payloads(l.queue) + [Concat(parts)];
      PumpConserves(f, side);
    }
  }

  lemma PumpLaneOpen(c: Conn, side: Side)
    ensures PumpLane(c, side).clientClosed == c.clientClosed && PumpLane(c, side).serverClosed == c.serverClosed
  {
  }

  lemma PumpConserves(c: Conn, side: Side)
    requires !c.Closed() && LaneConserved(c, side)
    ensures LaneConserved(Pump(c), side)
  {
    hide PumpLane, LaneConserved;
    PumpLaneOpen(c, ClientSide);
    PumpLaneConserves(c, ClientSide, side);
    PumpLaneConserves(PumpLane(c, ClientSide), ServerSide, side);
  }

  lemma ReceiveConserves(c: Conn, at: Side, side: Side)
    requires LaneConserved(c, side)
    ensures LaneConserved(Receive(c, at), side)
  {
    hide Concat, Delivered, PumpLane;
    if c.To(at).recv.Some? || c.Closed() {
      DeliveredSnoc(c.log, ReceiveRejected(c.issued, c.To(at).recv.Some?), side);
    } else {
      PumpConserves(c.(issued := c.issued + 1).WithLane(at, c.To(at).(recv := Some(c.issued), error := NoError)), side);
    }
  }

  lemma CloseConserves(c: Conn, who: Side, side: Side)
    requires LaneConserved(c, side)
    ensures LaneConserved(Close(c, who), side)
  {
    hide Concat, Delivered;
    var es := CloseRecv(c.toServer.recv) + CloseRecv(c.toClient.recv)
              + CloseSends(c.toClient.queue) + CloseSends(c.toServer.queue);
    assert Close(c, who).log == c.log + es;
    DeliveredAppend(c.log, es, side);
  }

  // ---------- exactly once ----------

  lemma IdsAppend(a: seq<Event>, b: seq<Event>)
    ensures Ids(a + b) == Ids(a) + Ids(b)
  {
  }

  lemma WaitingHead(l: Lane, e1: Event, e2: Event)
    requires Ready(l) && e1.id == l.recv.value && e2.id == l.queue[0].id
    ensures Waiting(l) == Ids([e1, e2]) + Waiting(Taken(l))
  {
  }

  lemma PumpLaneOnce(c: Conn, side: Side)
    requires OnceEach(c)
    ensures OnceEach(PumpLane(c, side))
  {
    hide Concat, Range, Ids, Waiting;
    var l := c.To(side);
    if Ready(l) {
      var e1, e2 := Received(l.recv.value, side, Concat(l.queue[0].parts), l.error), Sent(l.queue[0].id);
      IdsAppend(c.log, [e1, e2]);
      WaitingHead(l, e1, e2);
    }
  }

  lemma PumpOnce(c: Conn)
    requires OnceEach(c)
    ensures OnceEach(Pump(c))
  {
    hide OnceEach, PumpLane;
    PumpLaneOnce(c, ClientSide);
    PumpLaneOnce(PumpLane(c, ClientSide), ServerSide);
  }

  lemma LoggedOnce(c: Conn, e: Event)
    requires OnceEach(c) && e.id == c.issued
    ensures OnceEach(c.(issued := c.issued + 1, log := c.log + [e]))
  {
    RangeSnoc(c.issued);
    IdsAppend(c.log, [e]);
    assert Ids([e]) == [e.id];
    hide Range, Ids, Waiting;
    assert multiset(Ids(c.log + [e])) == multiset(Ids(c.log)) + multiset{e.id};
  }

  lemma PendingOnce(c: Conn, side: Side, l: Lane)
    requires OnceEach(c)
    requires multiset(Waiting(l)) == multiset(Waiting(c.To(side))) + multiset{c.issued}
    ensures OnceEach(c.(issued := c.issued + 1).WithLane(side, l))
  {
    RangeSnoc(c.issued);
    hide Range, Waiting;
  }

  lemma SendOnce(c: Conn, from: Side, parts: seq<seq<byte>>)
    requires OnceEach(c)
    ensures OnceEach(Send(c, from, parts))
  {
    hide Concat, Pump, OnceEach, Ids, Waiting;
    if c.Closed() {
      LoggedOnce(c, SendRejected(c.issued));
    } else {
      var to := Other(from);
      var l := c.To(to);
      var m := l.(queue := l.queue + [Sending(c.issued, parts)]);
      WaitingSnoc(l, Sending(c.issued, parts));
      PendingOnce(c, to, m);
      var e := c.(issued := c.issued + 1).WithLane(to, m);
      var f := if to == ClientSide then e.(acceptedToClient := e.acceptedToClient + [Concat(parts)])
               else e.(acceptedToServer := e.acceptedToServer + [Concat(parts)]);
      AcceptedOnce(e, f);
      PumpOnce(f);
    }
  }

  lemma WaitingSnoc(l: Lane, x: Sending)
    ensures Waiting(l.(queue := l.queue + [x])) == Waiting(l) + [x.id]
  {
  }

  lemma AcceptedOnce(e: Conn, f: Conn)
    requires OnceEach(e) && f.log == e.log && f.issued == e.issued
    requires f.toClient == e.toClient && f.toServer == e.toServer
    ensures OnceEach(f)
  {
  }

  lemma WaitingSame(l: Lane, e: RecvError)
    ensures Waiting(l.(error := e)) == Waiting(l)
  {
  }

  lemma ReceiveOnce(c: Conn, at: Side)
    requires OnceEach(c)
    ensures OnceEach(Receive(c, at))
  {
    hide Concat, PumpLane;
    var l := c.To(at);
    if l.recv.Some? || c.Closed() {
      LoggedOnce(c, ReceiveRejected(c.issued, l.recv.Some?));
      WaitingSame(l, if l.recv.Some? then Overlapped else ConnectionClosed);
    } else {
      var m := l.(recv := Some(c.issued), error := NoError);
      assert Waiting(m) == [c.issued] + Waiting(l);
      PendingOnce(c, at, m);
      PumpOnce(c.(issued := c.issued + 1).WithLane(at, m));
    }
  }

  lemma CloseOnce(c: Conn, who: Side)
    requires OnceEach(c)
    ensures OnceEach(Close(c, who))
  {
    hide Range, Ids, Waiting, CloseRecv, CloseSends;
    var r1, r2 := CloseRecv(c.toServer.recv), CloseRecv(c.toClient.recv);
    var q1, q2 := CloseSends(c.toClient.queue), CloseSends(c.toServer.queue);
    IdsAppend(c.log + r1 + r2 + q1, q2);
    IdsAppend(c.log + r1 + r2, q1);
    IdsAppend(c.log + r1, r2);
    IdsAppend(c.log, r1);
    WaitingClosed(c.toClient);
    WaitingClosed(c.toServer);
  }

  lemma WaitingClosed(l: Lane)
    ensures Waiting(l) == Ids(CloseRecv(l.recv)) + Ids(CloseSends(l.queue))
    ensures Waiting(SHUT) == []
  {
  }

  // ---------- every run ----------

  lemma StepKeeps(c: Conn, op: Op)
    requires Inv(c) && Legal(c, op)
    ensures Inv(Step(c, op))
  {
    hide LaneConserved, OnceEach, Concat;
    match op
    case OpSend(side, parts) =>
      SendConserves(c, side, parts, ClientSide);
      SendConserves(c, side, parts, ServerSide);
      SendOnce(c, side, parts);
    case OpReceive(side) =>
      ReceiveConserves(c, side, ClientSide);
      ReceiveConserves(c, side, ServerSide);
      ReceiveOnce(c, side);
    case OpClose(side) =>
      CloseConserves(c, side, ClientSide);
      CloseConserves(c, side, ServerSide);
      CloseOnce(c, side);
  }

  ghost predicate IsRun(states: seq<Conn>, ops: seq<Op>) {
    && |states| == |ops| + 1 && states[0] == NEW
    && forall n :: 0 <= n < |ops| ==> Legal(states[n], ops[n]) && states[n + 1] == Step(states[n], ops[n])
  }

  lemma {:induction false} RunKeeps(states: seq<Conn>, ops: seq<Op>, n: nat)
    requires IsRun(states, ops) && n < |states|
    ensures Inv(states[n])
  {
    hide Step, Inv, Legal;
    if n == 0 {
      NewKeeps();
    } else {
      RunKeeps(states, ops, n - 1);
      StepKeeps(states[n - 1], ops[n - 1]);
    }
  }

  lemma NewKeeps()
    ensures Inv(NEW)
  {
    assert Range(0, 0) == [] && Ids([]) == [] && Waiting(IDLE) == [];
  }

  /** In every run, no operation completes twice, and once either side has
      closed every operation issued has completed exactly once. */
  lemma CompletesOnce(states: seq<Conn>, ops: seq<Op>, n: nat, id: nat)
    requires IsRun(states, ops) && n < |states| && id < states[n].issued
    ensures multiset(Ids(states[n].log))[id] <= 1
    ensures states[n].Closed() ==> multiset(Ids(states[n].log))[id] == 1
  {
    RunKeeps(states, ops, n);
    var c := states[n];
    RangeOnce(c.issued, id);
    assert (multiset(Ids(c.log)) + multiset(Waiting(c.toClient)) + multiset(Waiting(c.toServer)))[id] == 1;
    if c.Closed() {
      assert Waiting(SHUT) == [];
    }
  }

  /** In every run and each direction, what the receiver got is a first part of
      what the sender handed over, whole payloads in order; while the pipe is
      open exactly the queued ones are missing. */
  lemma DeliversInOrder(states: seq<Conn>, ops: seq<Op>, n: nat, side: Side)
    requires IsRun(states, ops) && n < |states|
    ensures var c := states[n];
            && Delivered(c.log, side) <= c.Accepted(side)
            && (!c.Closed() ==> c.Accepted(side)[|Delivered(c.log, side)|..] == Payloads(c.To(side).queue))
  {
    RunKeeps(states, ops, n);
    var c := states[n];
    assert LaneConserved(c, side);
  }

  /** After every operation of every run, no direction has both a receive
      waiting and a payload queued, nothing is pending once a side has closed,
      and the connection is released by the second close alone. */
  lemma AlwaysQuiet(states: seq<Conn>, ops: seq<Op>, n: nat)
    requires IsRun(states, ops) && n < |states|
    ensures Quiet(states[n])
  {
    RunKeeps(states, ops, n);
  }

  // ---------- how operations complete ----------

  /** What a send adds to the log: on a closed pipe a rejection; with a receive
      waiting, that receive with the payload and then the send; else nothing. */
  lemma SendLogs(c: Conn, from: Side, parts: seq<seq<byte>>)
    requires Quiet(c) && Legal(c, OpSend(from, parts))
    ensures var d, to := Step(c, OpSend(from, parts)), Other(from);
            && d.Closed() == c.Closed() && d.issued == c.issued + 1 && d.To(from) == c.To(from)
            && if c.Closed() then d.log == c.log + [SendRejected(c.issued)] && d.To(to) == c.To(to)
               else match c.To(to).recv
                    case Some(id) =>
                      && d.log == c.log + [Received(id, to, Concat(parts), c.To(to).error), Sent(c.issued)]
                      && d.To(to).queue == [] && d.To(to).recv == None
                    case None =>
                      && d.log == c.log && d.To(to).recv == None
                      && d.To(to).queue == c.To(to).queue + [Sending(c.issued, parts)]
  {
    hide Concat;
  }

  /** What a receive adds: a rejection if another one waits or the pipe is
      closed; with a payload queued, the receive with the oldest and then its
      send; else nothing. */
  lemma ReceiveLogs(c: Conn, at: Side)
    requires Quiet(c) && Legal(c, OpReceive(at))
    ensures var d, l := Step(c, OpReceive(at)), c.To(at);
            && d.Closed() == c.Closed() && d.issued == c.issued + 1 && d.To(Other(at)) == c.To(Other(at))
            && if l.recv.Some? || c.Closed() then
                 && d.log == c.log + [ReceiveRejected(c.issued, l.recv.Some?)]
                 && d.To(at).queue == l.queue && d.To(at).recv == l.recv
               else if l.queue != [] then
                 && d.log == c.log
                      + [Received(c.issued, at, Concat(l.queue[0].parts), NoError), Sent(l.queue[0].id)]
                 && d.To(at).queue == l.queue[1..] && d.To(at).recv == None
               else d.log == c.log && d.To(at).recv == Some(c.issued) && d.To(at).queue == []
    ensures Step(c, OpReceive(at)).To(at).error ==
              if c.To(at).recv.Some? then Overlapped else if c.Closed() then ConnectionClosed else NoError
  {
    hide Concat;
  }

  /** What a close adds: the error of every receive that waits, the server's
      before the client's, then of every send queued, oldest first, the server's
      before the client's; and nothing else. */
  lemma CloseLogs(c: Conn, who: Side)
    ensures var d, s, t := Step(c, OpClose(who)), c.toServer, c.toClient;
            && (d.clientClosed <==> c.clientClosed || who == ClientSide)
            && (d.serverClosed <==> c.serverClosed || who == ServerSide)
            && d.issued == c.issued && d.toClient.queue == [] && d.toServer.queue == []
            && d.toClient.error == d.toServer.error == ConnectionClosed
            && c.log <= d.log
            && var es, rs := d.log[|c.log|..], (if s.recv.Some? then 1 else 0) + if t.recv.Some? then 1 else 0;
               && |es| == rs + |t.queue| + |s.queue|
               && (s.recv.Some? ==> es[0] == ReceiveClosed(s.recv.value))
               && (t.recv.Some? ==> es[rs - 1] == ReceiveClosed(t.recv.value))
               && (forall k :: 0 <= k < |t.queue| ==> es[rs + k] == SendClosed(t.queue[k].id))
               && forall k :: 0 <= k < |s.queue| ==> es[rs + |t.queue| + k] == SendClosed(s.queue[k].id)
  {
  }

  /** None of what a close adds is a payload received or sent. */
  lemma CloseErrors(c: Conn, who: Side)
    ensures OtherEvents(c.log, Step(c, OpClose(who)).log)
    ensures forall k :: |c.log| <= k < |Step(c, OpClose(who)).log| ==>
              var e := Step(c, OpClose(who)).log[k]; e.ReceiveClosed? || e.SendClosed?
  {
  }

  /** Before step `n` the payload was sent towards `to`, as operation `id`, on an
      open pipe. */
  predicate SentBefore(states: seq<Conn>, ops: seq<Op>, n: nat, id: nat, to: Side, payload: seq<byte>)
    requires n <= |ops| < |states|
  {
    exists m :: 0 <= m < n && SentAt(states[m], ops[m], id, to, payload)
  }

  predicate SentAt(c: Conn, op: Op, id: nat, to: Side, payload: seq<byte>) {
    op.OpSend? && !c.Closed() && c.issued == id && Other(op.side) == to && Concat(op.parts) == payload
  }

  /** What is queued towards `to` was sent so. */
  ghost predicate QueueSent(states: seq<Conn>, ops: seq<Op>, n: nat, to: Side)
    requires n <= |ops| < |states|
  {
    var q := states[n].To(to).queue;
    forall j :: 0 <= j < |q| ==> SentBefore(states, ops, n, q[j].id, to, Concat(q[j].parts))
  }

  /** Entry `k` of the log: a send that completed without error comes directly
      after the receive that got its payload, and a receive with a payload
      directly before the send of it. */
  predicate Paired(states: seq<Conn>, ops: seq<Op>, n: nat, k: nat)
    requires n <= |ops| < |states| && k < |states[n].log|
  {
    var log := states[n].log;
    && (log[k].Sent? ==> k > 0 && log[k - 1].Received?
                         && SentBefore(states, ops, n, log[k].id, log[k - 1].to, log[k - 1].payload))
    && (log[k].Received? ==> k + 1 < |log| && log[k + 1].Sent?)
  }

  ghost predicate AllPaired(states: seq<Conn>, ops: seq<Op>, n: nat)
    requires n <= |ops| < |states|
  {
    forall k :: 0 <= k < |states[n].log| ==> Paired(states, ops, n, k)
  }

  /** The log grew by events that are neither a payload received nor sent. */
  predicate OtherEvents(a: seq<Event>, b: seq<Event>) {
    a <= b && forall k :: |a| <= k < |b| ==> !b[k].Sent? && !b[k].Received?
  }

  lemma SentLater(states: seq<Conn>, ops: seq<Op>, n: nat, id: nat, to: Side, payload: seq<byte>)
    requires n < |ops| < |states| && SentBefore(states, ops, n, id, to, payload)
    ensures SentBefore(states, ops, n + 1, id, to, payload)
  {
    hide SentAt;
  }

  lemma {:induction false} RunPaired(states: seq<Conn>, ops: seq<Op>, n: nat)
    requires IsRun(states, ops) && n < |states|
    ensures QueueSent(states, ops, n, ClientSide) && QueueSent(states, ops, n, ServerSide)
    ensures AllPaired(states, ops, n)
  {
    hide Step, Paired, QueueSent, Inv;
    if n == 0 {
      NewPaired(states, ops);
    } else {
      RunPaired(states, ops, n - 1);
      RunKeeps(states, ops, n - 1);
      var c, op := states[n - 1], ops[n - 1];
      assert Quiet(c) by { QuietIs(c); }
      match op
      case OpSend(from, parts) => SendPaired(states, ops, n - 1, from, parts);
      case OpReceive(at) => ReceivePaired(states, ops, n - 1, at);
      case OpClose(who) => ClosePaired(states, ops, n - 1, who);
    }
  }

  lemma QuietIs(c: Conn)
    requires Inv(c)
    ensures Quiet(c)
  {
  }

  lemma NewPaired(states: seq<Conn>, ops: seq<Op>)
    requires |ops| < |states| && states[0] == NEW
    ensures QueueSent(states, ops, 0, ClientSide) && QueueSent(states, ops, 0, ServerSide) && states[0].log == []
  {
  }

  /** A queue that only lost its front was sent before. */
  lemma QueueKept(states: seq<Conn>, ops: seq<Op>, n: nat, to: Side)
    requires n < |ops| < |states| && QueueSent(states, ops, n, to)
    requires var p, q := states[n].To(to).queue, states[n + 1].To(to).queue;
             q == p || q == [] || (p != [] && q == p[1..])
    ensures QueueSent(states, ops, n + 1, to)
  {
    hide SentBefore;
    var p, q := states[n].To(to).queue, states[n + 1].To(to).queue;
    forall j | 0 <= j < |q| ensures SentBefore(states, ops, n + 1, q[j].id, to, Concat(q[j].parts)) {
      var i := if q == p then j else j + 1;
      assert q[j] == p[i];
      SentLater(states, ops, n, p[i].id, to, Concat(p[i].parts));
    }
  }

  /** Log entries stay paired when the log grows by events that are neither a
      payload received nor sent. */
  lemma PairedKept(states: seq<Conn>, ops: seq<Op>, n: nat)
    requires n < |ops| < |states| && OtherEvents(states[n].log, states[n + 1].log)
    requires AllPaired(states, ops, n)
    ensures AllPaired(states, ops, n + 1)
  {
    hide SentBefore;
    var m := n + 1;
    forall k | 0 <= k < |states[m].log| ensures Paired(states, ops, m, k) {
      if k < |states[n].log| {
        assert Paired(states, ops, n, k);
        var log := states[n].log;
        if log[k].Sent? {
          SentLater(states, ops, n, log[k].id, log[k - 1].to, log[k - 1].payload);
        }
      }
    }
  }

  /** So they do when it grows by a receive and the send it gets. */
  lemma PairedPair(states: seq<Conn>, ops: seq<Op>, n: nat, e: Event, f: Event)
    requires n < |ops| < |states| && states[n + 1].log == states[n].log + [e, f]
    requires AllPaired(states, ops, n)
    requires e.Received? && f.Sent? && SentBefore(states, ops, n + 1, f.id, e.to, e.payload)
    ensures AllPaired(states, ops, n + 1)
  {
    hide SentBefore;
    var m := n + 1;
    forall k | 0 <= k < |states[m].log| ensures Paired(states, ops, m, k) {
      if k < |states[n].log| {
        assert Paired(states, ops, n, k);
        var log := states[n].log;
        if log[k].Sent? {
          SentLater(states, ops, n, log[k].id, log[k - 1].to, log[k - 1].payload);
        }
      }
    }
  }

  lemma SendPaired(states: seq<Conn>, ops: seq<Op>, n: nat, from: Side, parts: seq<seq<byte>>)
    requires n < |ops| < |states| && ops[n] == OpSend(from, parts) && Legal(states[n], ops[n]) && Quiet(states[n])
    requires states[n + 1] == Step(states[n], ops[n])
    requires QueueSent(states, ops, n, ClientSide) && QueueSent(states, ops, n, ServerSide)
    requires AllPaired(states, ops, n)
    ensures QueueSent(states, ops, n + 1, ClientSide) && QueueSent(states, ops, n + 1, ServerSide)
    ensures AllPaired(states, ops, n + 1)
  {
    hide Step, Concat, Paired, QueueSent;
    var c, to := states[n], Other(from);
    SendLogs(c, from, parts);
    QueueKept(states, ops, n, from);
    if c.Closed() {
      QueueKept(states, ops, n, to);
      PairedKept(states, ops, n);
    } else {
      assert SentAt(states[n], ops[n], c.issued, to, Concat(parts));
      match c.To(to).recv
      case Some(id) =>
        QueueKept(states, ops, n, to);
        PairedPair(states, ops, n, Received(id, to, Concat(parts), c.To(to).error), Sent(c.issued));
      case None =>
        QueueGrows(states, ops, n, to, Sending(c.issued, parts));
        PairedKept(states, ops, n);
    }
  }

  lemma QueueGrows(states: seq<Conn>, ops: seq<Op>, n: nat, to: Side, x: Sending)
    requires n < |ops| < |states| && QueueSent(states, ops, n, to)
    requires states[n + 1].To(to).queue == states[n].To(to).queue + [x]
    requires SentBefore(states, ops, n + 1, x.id, to, Concat(x.parts))
    ensures QueueSent(states, ops, n + 1, to)
  {
    hide SentBefore;
    var p, q := states[n].To(to).queue, states[n + 1].To(to).queue;
    forall j | 0 <= j < |q| ensures SentBefore(states, ops, n + 1, q[j].id, to, Concat(q[j].parts)) {
      if j < |p| {
        assert q[j] == p[j];
        SentLater(states, ops, n, p[j].id, to, Concat(p[j].parts));
      }
    }
  }

  lemma ReceivePaired(states: seq<Conn>, ops: seq<Op>, n: nat, at: Side)
    requires n < |ops| < |states| && ops[n] == OpReceive(at) && Legal(states[n], ops[n]) && Quiet(states[n])
    requires states[n + 1] == Step(states[n], ops[n])
    requires QueueSent(states, ops, n, ClientSide) && QueueSent(states, ops, n, ServerSide)
    requires AllPaired(states, ops, n)
    ensures QueueSent(states, ops, n + 1, ClientSide) && QueueSent(states, ops, n + 1, ServerSide)
    ensures AllPaired(states, ops, n + 1)
  {
    hide Step, Concat, Paired, SentBefore;
    var c, l := states[n], states[n].To(at);
    ReceiveLogs(c, at);
    QueueKept(states, ops, n, at);
    QueueKept(states, ops, n, Other(at));
    if !l.recv.Some? && !c.Closed() && l.queue != [] {
      SentLater(states, ops, n, l.queue[0].id, at, Concat(l.queue[0].parts));
      PairedPair(states, ops, n, Received(c.issued, at, Concat(l.queue[0].parts), NoError), Sent(l.queue[0].id));
    } else {
      PairedKept(states, ops, n);
    }
  }

  lemma ClosePaired(states: seq<Conn>, ops: seq<Op>, n: nat, who: Side)
    requires n < |ops| < |states| && ops[n] == OpClose(who)
    requires states[n + 1] == Step(states[n], ops[n])
    requires QueueSent(states, ops, n, ClientSide) && QueueSent(states, ops, n, ServerSide)
    requires AllPaired(states, ops, n)
    ensures QueueSent(states, ops, n + 1, ClientSide) && QueueSent(states, ops, n + 1, ServerSide)
    ensures AllPaired(states, ops, n + 1)
  {
    hide Step, Paired, QueueSent;
    CloseLogs(states[n], who);
    CloseErrors(states[n], who);
    QueueKept(states, ops, n, ClientSide);
    QueueKept(states, ops, n, ServerSide);
    PairedKept(states, ops, n);
  }

  /** In every run, a send completes without an error exactly when its payload
      has been received: every such completion directly follows the receive, on
      the other side, of the very payload the send was given on an open pipe,
      and every receive of a payload is directly followed by one. */
  lemma SentIfDelivered(states: seq<Conn>, ops: seq<Op>, n: nat, k: nat)
    requires IsRun(states, ops) && n < |states| && k < |states[n].log|
    ensures var log := states[n].log;
            && (log[k].Sent? ==> k > 0 && log[k - 1].Received?
                                 && SentBefore(states, ops, n, log[k].id, log[k - 1].to, log[k - 1].payload))
            && (log[k].Received? ==> k + 1 < |log| && log[k + 1].Sent?)
  {
    RunPaired(states, ops, n);
    assert Paired(states, ops, n, k);
  }

  /** In every run, what is called on a closed pipe is rejected there and then,
      and a close completes with an error all that had not completed. */
  lemma ClosedRejects(states: seq<Conn>, ops: seq<Op>, n: nat)
    requires IsRun(states, ops) && n < |ops|
    ensures var c, d := states[n], states[n + 1];
            match ops[n]
            case OpSend(_, _) => c.Closed() ==> d.log == c.log + [SendRejected(c.issued)]
            case OpReceive(at) =>
              c.Closed() ==>
                d.log == c.log + [ReceiveRejected(c.issued, false)] && d.To(at).error == ConnectionClosed
            case OpClose(_) =>
              && c.log <= d.log
              && forall k :: |c.log| <= k < |d.log| ==> d.log[k].ReceiveClosed? || d.log[k].SendClosed?
  {
    hide Step;
    RunKeeps(states, ops, n);
    match ops[n]
    case OpSend(from, parts) => SendLogs(states[n], from, parts);
    case OpReceive(at) => ReceiveLogs(states[n], at);
    case OpClose(who) => CloseErrors(states[n], who);
  }

  // ---------- overlapped receives ----------

  /** One operation while receive `id` is pending: it stays pending, with its
      error field changed by an overlapped receive alone, or it is completed, by
      a payload sent or by a close. */
  lemma PendingStep(c: Conn, op: Op, at: Side, id: nat)
    requires Quiet(c) && Legal(c, op) && c.To(at).recv == Some(id)
    ensures var d := Step(c, op);
            if d.To(at).recv == Some(id) then
              d.To(at).error == if op == OpReceive(at) then Overlapped else c.To(at).error
            else if op.OpClose? then ReceiveClosed(id) in d.log
            else op.OpSend? && op.side == Other(at) && Received(id, at, Concat(op.parts), c.To(at).error) in d.log
  {
    hide Concat;
    match op
    case OpSend(side, parts) =>
    case OpReceive(side) =>
    case OpClose(side) =>
      var d := Close(c, side);
      var front := c.log + if at == ServerSide then [] else CloseRecv(c.toServer.recv);
      assert d.log[|front|] == ReceiveClosed(id);
  }

  predicate PendingFrom(states: seq<Conn>, at: Side, id: nat, m: nat, n: nat)
    requires n < |states|
  {
    forall j :: m < j <= n ==> states[j].To(at).recv == Some(id)
  }

  /** Another receive was called on the same side between steps m and n. */
  predicate OverlappedIn(ops: seq<Op>, at: Side, m: nat, n: nat)
    requires n <= |ops|
  {
    exists k :: m < k < n && ops[k] == OpReceive(at)
  }

  lemma {:induction false} PendingError(states: seq<Conn>, ops: seq<Op>, m: nat, n: nat, at: Side)
    requires IsRun(states, ops) && m < n < |states| && ops[m] == OpReceive(at)
    requires PendingFrom(states, at, states[m].issued, m, n) && states[m].To(at).recv == None
    ensures states[n].To(at).error == if OverlappedIn(ops, at, m, n) then Overlapped else NoError
    decreases n
  {
    hide Step, LaneConserved, OnceEach;
    var id := states[m].issued;
    if n == m + 1 {
      assert states[m + 1] == Step(states[m], ops[m]) && states[m + 1].To(at).recv == Some(id);
      IssuedError(states[m], at);
    } else {
      PendingError(states, ops, m, n - 1, at);
      RunKeeps(states, ops, n - 1);
      PendingStep(states[n - 1], ops[n - 1], at, id);
      if OverlappedIn(ops, at, m, n) && ops[n - 1] != OpReceive(at) {
        var k :| m < k < n && ops[k] == OpReceive(at);
        assert OverlappedIn(ops, at, m, n - 1);
      }
    }
  }

  lemma IssuedError(c: Conn, at: Side)
    requires c.To(at).recv == None && Step(c, OpReceive(at)).To(at).recv == Some(c.issued)
    ensures Step(c, OpReceive(at)).To(at).error == NoError
  {
    hide Concat;
  }

  /** In every run, a receive that had to wait is completed by a close or by the
      next payload sent to its side.  With the payload its callback finds the
      error of an overlapped receive if and only if one was refused meanwhile. */
  lemma OverlapReported(states: seq<Conn>, ops: seq<Op>, m: nat, n: nat, at: Side)
    requires IsRun(states, ops) && m < n < |ops| && ops[m] == OpReceive(at)
    requires PendingFrom(states, at, states[m].issued, m, n) && states[m].To(at).recv == None
    requires states[n + 1].To(at).recv != Some(states[m].issued)
    ensures var id, log := states[m].issued, states[n + 1].log;
            var error := if OverlappedIn(ops, at, m, n) then Overlapped else NoError;
            if ops[n].OpClose? then ReceiveClosed(id) in log
            else
              && ops[n].OpSend? && ops[n].side == Other(at)
              && Received(id, at, Concat(ops[n].parts), error) in log
  {
    hide Step, Concat;
    PendingError(states, ops, m, n, at);
    RunKeeps(states, ops, n);
    PendingStep(states[n], ops[n], at, states[m].issued);
  }

  /** The client receives twice and then the server sends: the first receive
      gets the payload, and the error of the second. */
  lemma OverlapExample(payload: seq<byte>)
    ensures var c := Step(Step(NEW, OpReceive(ClientSide)), OpReceive(ClientSide));
            Step(c, OpSend(ServerSide, [payload])).log ==
              [ReceiveRejected(1, true), Received(0, ClientSide, payload, Overlapped), Sent(2)]
  {
    ConcatOne(payload);
  }
}

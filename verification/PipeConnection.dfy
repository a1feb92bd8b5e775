/** The pipe connection as linked request nodes and receive slots changed in
    place, proved to take the steps of the pure pipe. */
module PipeConnection {
  import opened Prelude
  import opened Wire
  import opened Pipe

  class IoReq {
    const self: Side
    const id: nat
    const parts: seq<seq<byte>>
    var next: IoReq?

    constructor (self: Side, id: nat, parts: seq<seq<byte>>)
      ensures this.self == self && this.id == id && this.parts == parts && next == null
    {
      this.self, this.id, this.parts, next := self, id, parts, null;
    }
  }

  function At(chain: seq<IoReq>, k: nat): IoReq? {
    if k < |chain| then chain[k] else null
  }

  ghost predicate Linked(chain: seq<IoReq>)
    reads chain
  {
    && (forall k :: 0 <= k < |chain| ==> chain[k].next == At(chain, k + 1))
    && forall j, k :: 0 <= j < k < |chain| ==> chain[j] != chain[k]
  }

  ghost function Queue(chain: seq<IoReq>): (q: seq<Sending>)
    ensures |q| == |chain| && forall k :: 0 <= k < |q| ==> q[k] == Sending(chain[k].id, chain[k].parts)
  {
    seq(|chain|, k requires 0 <= k < |chain| => Sending(chain[k].id, chain[k].parts))
  }

  lemma LinkedTail(chain: seq<IoReq>)
    requires Linked(chain) && chain != []
    ensures Linked(chain[1..]) && chain[0].next == At(chain[1..], 0)
    ensures Queue(chain[1..]) == Queue(chain)[1..]
  {
    var tail := chain[1..];
    forall k | 0 <= k < |tail| ensures tail[k].next == At(tail, k + 1) {
      assert tail[k] == chain[k + 1];
    }
  }

  /** All but the last node of a linked chain differ from it and lead on. */
  lemma LinkInside(chain: seq<IoReq>)
    requires Linked(chain)
    ensures forall j, k :: 0 <= j < k < |chain| ==> chain[j] != chain[k]
    ensures forall k :: 0 <= k < |chain| - 1 ==> chain[k] != chain[|chain| - 1] && chain[k].next == chain[k + 1]
  {
  }

  lemma LinkedSnoc(was: seq<IoReq>, last: IoReq)
    requires last.next == null && last !in was
    requires forall j, k :: 0 <= j < k < |was| ==> was[j] != was[k]
    requires forall k :: 0 <= k < |was| - 1 ==> was[k].next == was[k + 1]
    requires was != [] ==> was[|was| - 1].next == last
    ensures Linked(was + [last]) && Queue(was + [last]) == Queue(was) + [Sending(last.id, last.parts)]
  {
    var chain := was + [last];
    forall k | 0 <= k < |chain| ensures chain[k].next == At(chain, k + 1) {
      if k < |was| {
        assert chain[k] == was[k];
      }
    }
  }

  /** `_pxpTransferBuffer`: the parts joined in a buffer of their total length. */
  method TransferBuffer(parts: seq<seq<byte>>) returns (consumer: array<byte>)
    ensures fresh(consumer) && consumer[..] == Concat(parts)
  {
    hide Concat;
    var length := 0;
    var i := 0;
    assert Concat(parts[..0]) == [] by { ConcatNone(parts[..0]); }
    while i < |parts|
      invariant 0 <= i <= |parts| && length == |Concat(parts[..i])|
    {
      ConcatStep(parts, i);
      length := length + |parts[i]|;
      i := i + 1;
    }
    assert parts[..i] == parts;
    consumer := new byte[length];
    var offset := 0;
    i := 0;
    while i < |parts|
      invariant 0 <= i <= |parts| && offset == |Concat(parts[..i])| <= length
      invariant length == |Concat(parts)| && consumer[..offset] == Concat(parts[..i])
    {
      ConcatStep(parts, i);
      PartsFit(parts, i + 1);
      forall k | 0 <= k < |parts[i]| {
        consumer[offset + k] := parts[i][k];
      }
      assert consumer[..offset + |parts[i]|] == Concat(parts[..i]) + parts[i];
      offset := offset + |parts[i]|;
      i := i + 1;
    }
    assert parts[..i] == parts && consumer[..offset] == consumer[..];
  }

  lemma PartsFit(parts: seq<seq<byte>>, i: nat)
    requires i <= |parts|
    ensures |Concat(parts[..i])| <= |Concat(parts)|
  {
    hide Concat;
    ConcatAppend(parts[..i], parts[i..]);
    assert parts == parts[..i] + parts[i..];
  }

  /** One direction: the head of the sender's list and the receiver's slot. */
  class LaneObject {
    const sender: Side
    var head: IoReq?
    var recv: Option<nat>
    var error: RecvError
    ghost var chain: seq<IoReq>

    ghost predicate Valid()
      reads this, chain
    {
      Linked(chain) && head == At(chain, 0) && forall n :: n in chain ==> n.self == sender
    }

    ghost function State(): Lane
      reads this
    {
      Lane(Queue(chain), recv, error)
    }

    constructor (sender: Side)
      ensures Valid() && State() == IDLE && chain == [] && this.sender == sender
    {
      this.sender := sender;
      head, recv, error, chain := null, None, NoError, [];
    }

    /** Walks the list to its last node. */
    method Last() returns (lastReq: IoReq)
      requires Valid() && chain != []
      ensures lastReq == chain[|chain| - 1]
    {
      lastReq := head;
      ghost var k := 0;
      while lastReq.next != null
        invariant 0 <= k < |chain| && lastReq == chain[k]
        decreases |chain| - k
      {
        lastReq := lastReq.next;
        k := k + 1;
      }
    }

    /** Appends a request after the last node. */
    method Enqueue(id: nat, parts: seq<seq<byte>>)
      requires Valid()
      modifies this`head, this`chain, chain
      ensures Valid() && State() == old(State()).(queue := old(State()).queue + [Sending(id, parts)])
      ensures |chain| == |old(chain)| + 1 && chain[..|old(chain)|] == old(chain) && fresh(chain[|old(chain)|])
    {
      hide Queue, Linked;
      var newSendReq := new IoReq(sender, id, parts);
      ghost var was := chain;
      LinkInside(was);
      if head == null {
        head := newSendReq;
      } else {
        var lastReq := Last();
        lastReq.next := newSendReq;
      }
      chain := was + [newSendReq];
      assert forall k :: 0 <= k < |was| - 1 ==> was[k].next == was[k + 1];
      LinkedSnoc(was, newSendReq);
    }

    /** One transfer, if a receive is pending and a send is queued. */
    method Transfer(side: Side) returns (es: seq<Event>)
      requires Valid()
      modifies this
      ensures Valid() && State() == Pumped(old(State())) && es == PumpEvents(old(State()), side)
    {
      hide Concat, Linked;
      if recv.None? || head == null {
        return [];
      }
      var payload := TransferBuffer(head.parts);
      var done := recv.value;
      recv := None;
      var req := Dequeue();
      es := [Received(done, side, payload[..], error), Sent(req.id)];
    }

    /** Takes every request off the list, completing each with an error. */
    method Drain() returns (es: seq<Event>)
      requires Valid()
      modifies this`head, this`chain
      ensures Valid() && chain == [] && es == CloseSends(old(State()).queue)
    {
      ghost var was := chain;
      ghost var k := 0;
      es := [];
      while head != null
        invariant Valid() && 0 <= k <= |was| && chain == was[k..]
        invariant |es| == k && forall j :: 0 <= j < k ==> es[j] == SendClosed(was[j].id)
        decreases |was| - k
      {
        assert was[k..][1..] == was[k + 1..];
        var req := Dequeue();
        es := es + [SendClosed(req.id)];
        k := k + 1;
      }
    }

    method Dequeue() returns (r: IoReq)
      requires Valid() && chain != []
      modifies this`head, this`chain
      ensures Valid() && chain == old(chain)[1..] && r == old(chain)[0]
      ensures State() == old(State()).(queue := old(State()).queue[1..])
    {
      LinkedTail(chain);
      r := head;
      head := head.next;
      chain := chain[1..];
    }
  }

  /** The lane and the events of one pump. */
  function Pumped(l: Lane): Lane { if Ready(l) then Taken(l) else l }

  function PumpEvents(l: Lane, side: Side): seq<Event> {
    if Ready(l)
    then [Received(l.recv.value, side, Concat(l.queue[0].parts), l.error), Sent(l.queue[0].id)]
    else []
  }

  /** Appending to one direction leaves the other as it was. */
  method EnqueueBeside(l: LaneObject, other: LaneObject, id: nat, parts: seq<seq<byte>>)
    requires l.Valid() && other.Valid() && l.sender != other.sender
    modifies l`head, l`chain, l.chain
    ensures l.Valid() && l.State() == old(l.State()).(queue := old(l.State()).queue + [Sending(id, parts)])
    ensures other.Valid() && other.State() == old(other.State())
  {
    hide Queue, At;
    ghost var chain := other.chain;
    assert forall k :: 0 <= k < |chain| ==> chain[k] !in l.chain;
    l.Enqueue(id, parts);
    assert other.chain == chain && forall k :: 0 <= k < |chain| ==> chain[k].next == old(chain[k].next);
  }

  class Connection {
    const toClient: LaneObject
    const toServer: LaneObject
    var clientClosed: bool
    var serverClosed: bool
    var log: seq<Event>
    var issued: nat
    var freed: nat
    ghost var acceptedToClient: seq<seq<byte>>
    ghost var acceptedToServer: seq<seq<byte>>

    ghost predicate Valid()
      reads this, toClient, toServer, toClient.chain, toServer.chain
    {
      && toClient.Valid() && toServer.Valid()
      && toClient.sender == ServerSide && toServer.sender == ClientSide
    }

    ghost function State(): Conn
      reads this, toClient, toServer
    {
      Conn(toClient.State(), toServer.State(), clientClosed, serverClosed, log, issued, freed,
           acceptedToClient, acceptedToServer)
    }

    constructor ()
      ensures Valid() && State() == NEW && fresh(toClient) && fresh(toServer)
    {
      toClient := new LaneObject(ServerSide);
      toServer := new LaneObject(ClientSide);
      clientClosed, serverClosed, log, issued, freed := false, false, [], 0, 0;
      acceptedToClient, acceptedToServer := [], [];
    }

    function LaneTo(side: Side): LaneObject { if side == ClientSide then toClient else toServer }

    method PumpOne(side: Side)
      requires Valid()
      modifies this`log, toClient, toServer
      ensures Valid() && State() == PumpLane(old(State()), side)
    {
      hide Concat, Queue, Linked;
      var es;
      if side == ClientSide {
        es := toClient.Transfer(side);
      } else {
        es := toServer.Transfer(side);
      }
      log := log + es;
    }

    method DoPump()
      requires Valid()
      modifies this`log, toClient, toServer
      ensures Valid() && State() == Pump(old(State()))
    {
      hide PumpLane, Linked, At, Queue;
      PumpOne(ClientSide);
      PumpOne(ServerSide);
    }

    method DoSend(from: Side, parts: seq<seq<byte>>)
      requires Valid()
      modifies this, toClient, toServer, toClient.chain, toServer.chain
      ensures Valid() && State() == Send(old(State()), from, parts)
      ensures old(clientClosed || serverClosed) ==> log == old(log) + [SendRejected(old(issued))]
    {
      hide Concat, Pump, Queue, Linked, At;
      var id := issued;
      issued := issued + 1;
      if clientClosed || serverClosed {
        log := log + [SendRejected(id)];
        return;
      }
      Accept(from, id, parts);
      DoPump();
    }

    method Accept(from: Side, id: nat, parts: seq<seq<byte>>)
      requires Valid()
      modifies this`acceptedToClient, this`acceptedToServer, toClient, toServer, toClient.chain, toServer.chain
      ensures Valid()
      ensures var c, to := old(State()), Other(from);
              var l := c.To(to);
              var e := c.WithLane(to, l.(queue := l.queue + [Sending(id, parts)]));
              State() == if to == ClientSide then e.(acceptedToClient := e.acceptedToClient + [Concat(parts)])
                         else e.(acceptedToServer := e.acceptedToServer + [Concat(parts)])
    {
      hide Concat, Queue, Linked, At;
      if from == ServerSide {
        EnqueueBeside(toClient, toServer, id, parts);
        acceptedToClient := acceptedToClient + [Concat(parts)];
      } else {
        EnqueueBeside(toServer, toClient, id, parts);
        acceptedToServer := acceptedToServer + [Concat(parts)];
      }
    }

    method DoReceive(at: Side)
      requires Valid()
      modifies this, toClient, toServer
      ensures Valid() && State() == Receive(old(State()), at)
      ensures old((clientClosed || serverClosed) && State().To(at).recv == None) ==>
                log == old(log) + [ReceiveRejected(old(issued), false)] && State().To(at).error == ConnectionClosed
    {
      hide Pump, Linked, At, Queue;
      var id := issued;
      issued := issued + 1;
      var l := LaneTo(at);
      l.error := NoError;
      if l.recv.Some? {
        l.error := Overlapped;
        log := log + [ReceiveRejected(id, true)];
        return;
      }
      if clientClosed || serverClosed {
        l.error := ConnectionClosed;
        log := log + [ReceiveRejected(id, false)];
        return;
      }
      l.recv := Some(id);
      DoPump();
    }

    method CloseReceive(l: LaneObject)
      requires Valid() && (l == toClient || l == toServer)
      modifies this`log, l`recv
      ensures Valid() && l.recv == None && log == old(log) + CloseRecv(old(l.recv))
    {
      if l.recv.Some? {
        var id := l.recv.value;
        l.recv := None;
        log := log + [ReceiveClosed(id)];
      }
    }

    /** Both receives are completed with an error. */
    method FailReceives()
      requires Valid()
      modifies this`log, toClient`recv, toClient`error, toServer`recv, toServer`error
      ensures Valid() && toClient.recv == toServer.recv == None
      ensures toClient.error == toServer.error == ConnectionClosed
      ensures log == old(log) + CloseRecv(old(toServer.recv)) + CloseRecv(old(toClient.recv))
    {
      hide Linked, At, CloseRecv;
      toServer.error, toClient.error := ConnectionClosed, ConnectionClosed;
      CloseReceive(toServer);
      CloseReceive(toClient);
    }

    /** Both queues are drained, every send completed with an error. */
    method FailSends()
      requires Valid()
      modifies this`log, toClient`head, toClient`chain, toServer`head, toServer`chain
      ensures Valid() && toClient.chain == toServer.chain == []
      ensures log == old(log) + CloseSends(Queue(old(toClient.chain))) + CloseSends(Queue(old(toServer.chain)))
    {
      hide CloseSends, Linked, At;
      var es := toClient.Drain();
      log := log + es;
      es := toServer.Drain();
      log := log + es;
    }

    method DoClose(who: Side)
      requires Valid()
      modifies this, toClient, toServer
      ensures Valid() && State() == Close(old(State()), who)
    {
      hide CloseSends, CloseRecv, Linked, At;
      if who == ClientSide {
        clientClosed := true;
      } else {
        serverClosed := true;
      }
      FailReceives();
      FailSends();
      if clientClosed && serverClosed {
        freed := freed + 1;
      }
    }
  }
}

/** The two endpoints as the objects the source has: maps, flags and request
    objects updated in place, proved to take exactly the steps of the session
    protocol.  The server's code between two awaits is many turns of the
    protocol; it is proved to end, whatever request it serves. */
module Endpoints {
  import opened Prelude
  import opened Wire
  import opened SidAllocator
  import opened Session
  import SessionRuns

  /** Every registered callback is that of a request with the id it is under;
      the session invariant keeps this. */
  predicate Coherent(c: Client) {
    forall i :: i in c.waiting ==> c.waiting[i] in c.recs && c.recs[c.waiting[i]].sid == i
  }

  /** In every run, the client meets a reply in a state and with a packet that
      `OnPacket` can be called on. */
  lemma PacketReady(states: seq<System>, steps: seq<Step>, n: nat)
    requires IsRun(states, steps) && n < |states|
    requires states[n].client.running && states[n].toClient != []
    ensures |states[n].toClient[0].bytes| >= 4 && Coherent(states[n].client)
  {
    hide Inv, SessionRuns.Located;
    SessionRuns.RunSafe(states, steps, n);
    OwnersCoherent(states[n]);
    SessionRuns.HeadWords(states[n]);
  }

  lemma OwnersCoherent(s: System)
    requires Inv(s) && s.client.running
    ensures Coherent(s.client)
  {
    hide RecsOk, Genuine, Conserved, RequestsOk, InflightOk, RepliedAll;
  }

  /** `Client` with the extension layer's allocator.  `recs` holds the state of
      the promises and callbacks handed out, by request. */
  class ClientEndpoint {
    const pool: SidPool
    var waitingSessionCb: map<nat, nat>
    var recs: map<nat, Rec>
    var running: bool
    var sent: seq<seq<byte>>

    function State(): Client
      reads this, pool
    {
      Client(pool.State(), waitingSessionCb, recs, running)
    }

    constructor ()
      ensures fresh(pool) && State() == START.client.(running := false) && sent == []
    {
      pool := new SidPool();
      waitingSessionCb, recs, running, sent := map[], map[], false, [];
    }

    /** Registers the callback, then sends header and parameter. */
    method Send(tag: nat, r: Rec)
      requires tag !in recs
      modifies this
      ensures State() == Registered(old(State()), tag, r, pool.State())
      ensures sent == old(sent) + [WireOf(r)]
    {
      hide RequestBytes, EncInt;
      recs := recs[tag := r];
      if !Silent(r.kind) {
        waitingSessionCb := waitingSessionCb[r.sid := tag];
      }
      var packet;
      if r.kind == Poll {
        packet := RequestBytes(r.sid, POLL_INDEX, EncInt(r.index, 4) + r.param);
      } else {
        packet := RequestBytes(r.sid, r.index, r.param);
      }
      sent := sent + [packet];
    }

    /** `call`, `poll` or `signal` on a callable; false is the exception of an
        exhausted allocator. */
    method StartRequest(tag: nat, kind: Kind, index: int, param: seq<byte>) returns (sid: Option<nat>)
      requires tag !in recs && running && pool.State().Valid() && kind != Close
      modifies this, pool
      ensures if kind == Signal then sid == Some(SIGNAL) && pool.State() == old(pool.State())
              else Allocates(old(pool.State()), sid, pool.State()) && pool.State().Valid()
      ensures match sid
              case None => State() == old(State()).(sids := pool.State()) && sent == old(sent)
              case Some(i) =>
                var r := NewRec(kind, i, index, param);
                && State() == Registered(old(State()), tag, r, pool.State())
                && sent == old(sent) + [WireOf(r)]
    {
      hide WireOf;
      if kind == Signal {
        sid := Some(SIGNAL);
      } else {
        sid := pool.AllocSid();
        if sid.None? {
          return;
        }
      }
      Send(tag, NewRec(kind, sid.value, index, param));
    }

    /** `close`: the request goes out with a session word of its own. */
    method SendClose(tag: nat, sid: nat)
      requires tag !in recs
      modifies this
      ensures State() == Registered(old(State()), tag, NewRec(Close, sid, CLOSE_INDEX, []), pool.State())
      ensures sent == old(sent) + [WireOf(NewRec(Close, sid, CLOSE_INDEX, []))]
      ensures waitingSessionCb == old(waitingSessionCb)
    {
      hide WireOf;
      Send(tag, NewRec(Close, sid, CLOSE_INDEX, []));
    }

    /** The rest of `close`, once the request is sent. */
    method Quit()
      modifies this`running
      ensures State() == old(State()).(running := false)
    {
      running := false;
    }

    /** One turn of `run` with a packet just received. */
    method OnPacket(buf: seq<byte>)
      requires |buf| >= 4 && running && Coherent(State())
      modifies this, pool
      ensures State() == match OnReply(old(State()), buf) case Some(c) => c case None => Broken(old(State()))
    {
      hide WordAt, Broken;
      var sid := WordAt(buf, 0);
      if sid == SIGNAL {
        return;
      }
      if LowBits(sid) !in waitingSessionCb || waitingSessionCb[LowBits(sid)] !in recs {
        Fail();
        return;
      }
      Callback(waitingSessionCb[LowBits(sid)], sid, buf[4..]);
    }

    /** The callback registered by `call` resolves the promise once; the one
        registered by `poll` unregisters itself on an error. */
    method Callback(tag: nat, sid2: nat, result: seq<byte>)
      requires tag in recs
      modifies this, pool
      ensures var c, r := old(State()), old(recs[tag]);
              var d := c.(recs := c.recs[tag := Received(r, sid2, result)]);
              State() == if r.kind == Poll && sid2 != r.sid
                         then d.(waiting := c.waiting - {LowBits(r.sid)}, sids := c.sids.Free(r.sid)) else d
    {
      var r := recs[tag];
      if r.kind == Poll {
        if r.sid != sid2 {
          waitingSessionCb := waitingSessionCb - {LowBits(r.sid)};
          pool.FreeSid(r.sid);
          recs := recs[tag := r.(seen := r.seen + [Err(result)], phase := Done)];
        } else {
          recs := recs[tag := r.(seen := r.seen + [Ok(result)])];
        }
      } else if r.phase == Waiting {
        var outcome := if r.sid != sid2 then Err(result) else Ok(result);
        recs := recs[tag := r.(seen := [outcome], phase := Settled)];
      }
    }

    /** The rest of `call` once its promise is settled, with the `finally`. */
    method Continue(tag: nat)
      requires tag in recs
      modifies this, pool
      ensures State() == Finished(old(State()), tag)
    {
      var r := recs[tag];
      recs := recs[tag := r.(phase := Done)];
      if !r.broken {
        waitingSessionCb := waitingSessionCb - {LowBits(r.sid)};
      }
      pool.FreeSid(r.sid);
    }

    /** One callback given the error of the receive loop. */
    method FailOne(tag: nat)
      requires tag in recs
      modifies this`recs, pool
      ensures recs == old(recs)[tag := BrokenRec(old(recs)[tag])]
      ensures pool.State() ==
                if old(recs)[tag].kind == Poll then old(pool.State()).Free(old(recs)[tag].sid) else old(pool.State())
    {
      var r := recs[tag];
      if r.kind == Poll {
        pool.FreeSid(r.sid);
        recs := recs[tag := r.(broken := true, phase := Done)];
      } else if r.phase == Waiting {
        recs := recs[tag := r.(broken := true, phase := Settled)];
      }
    }

    /** The callbacks of the ids `done` have been given the error, those of `c`
        still to come not. */
    ghost predicate Failing(c: Client, keys: set<nat>)
      reads this, pool
    {
      && keys <= c.waiting.Keys && waitingSessionCb == c.waiting && recs.Keys == c.recs.Keys && pool.next == c.sids.next
      && (forall t :: t in recs ==>
            recs[t] == if Pending(c, t) && c.recs[t].sid !in keys then BrokenRec(c.recs[t]) else c.recs[t])
      && pool.used == c.sids.used - PollIds(c, c.waiting.Keys - keys)
    }

    method FailKey(k: nat, ghost c: Client, ghost keys: set<nat>)
      requires Coherent(c) && Failing(c, keys) && k in keys
      modifies this`recs, pool
      ensures Failing(c, keys - {k})
    {
      hide BrokenRec, PollIds;
      var tag := waitingSessionCb[k];
      FailOne(tag);
      PollIdsStep(c, keys, k);
    }

    /** The catch clause of `run`: every registered callback gets the error. */
    method Fail()
      requires Coherent(State())
      modifies this, pool
      ensures State() == Broken(old(State())) && sent == old(sent)
    {
      hide BrokenRec;
      ghost var c := State();
      var keys := waitingSessionCb.Keys;
      assert PollIds(c, c.waiting.Keys - keys) == {};
      while keys != {}
        modifies this`recs, pool
        invariant Failing(c, keys)
        decreases keys
      {
        var k :| k in keys;
        FailKey(k, c, keys);
        keys := keys - {k};
      }
      running := false;
      assert recs == Broken(c).recs;
      assert pool.used == Broken(c).sids.used;
    }
  }

  /** The ids among `ks` that are registered for polls. */
  ghost function PollIds(c: Client, ks: set<nat>): set<nat> {
    set i | i in ks && i in c.waiting && c.waiting[i] in c.recs && c.recs[c.waiting[i]].kind == Poll
  }

  lemma PollIdsStep(c: Client, keys: set<nat>, k: nat)
    requires k in keys && keys <= c.waiting.Keys && c.waiting[k] in c.recs
    ensures PollIds(c, c.waiting.Keys - (keys - {k}))
         == PollIds(c, c.waiting.Keys - keys) + if c.recs[c.waiting[k]].kind == Poll then {k} else {}
  {
  }

  // ---------- the server between two awaits ----------

  /** The function at work calls the next one directly; everywhere else it
      awaits a callable, a send or another function, or is over. */
  predicate Goes(p: Process) {
    CanRun(p) && p.stack[0] in {Begin, Entry, Loop}
  }

  /** How far the functions at work are from their next await. */
  function Rank(running: bool, p: Process): nat {
    if !Goes(p) then 0 else
      2 * |p.stack| +
      match p.stack[0]
      case Loop => if running then 7 else 3
      case Begin => 4
      case Entry => 1
  }

  ghost predicate TurnShrinks(running: bool, p: Process)
    requires CanRun(p)
  {
    var t := Advance(running, p);
    && |t.process.param| <= |p.param|
    && (t.running ==> running)
    && (running == t.running && |t.process.param| == |p.param| ==> Rank(t.running, t.process) < Rank(running, p))
  }

  /** Functions that call each other directly reach an await, whatever the
      request: a turn closes the server, uses up parameter or lowers the rank. */
  lemma TurnDescends(running: bool, p: Process)
    requires Goes(p)
    ensures TurnShrinks(running, p)
  {
    hide IntAt;
  }

  datatype Progress = Progress(running: bool, process: Process, reply: Option<seq<byte>>)

  /** The direct calls up to the next await. */
  function ToAwait(running: bool, p: Process): (q: Progress)
    ensures !Goes(q.process) && q.reply == None
    decreases running, |p.param|, Rank(running, p)
  {
    if !Goes(p) then Progress(running, p, None) else
      var t := Advance(running, p);
      assert TurnShrinks(running, p) by { TurnDescends(running, p); }
      ToAwait(t.running, t.process)
  }

  // ---------- what a packet does, by its bytes ----------

  /** A packet with index -3 closes the server at once; taken up again, its
      request goes away.  Nothing is sent. */
  lemma ClosePacket(running: bool, b: seq<byte>, later: bool)
    requires |b| >= 8 && IntAt(b, 4) == -3
    ensures CanRun(ProcessOf(b))
    ensures var q := Resumed(running, ProcessOf(b));
            && !q.running && q.reply == None && CanRun(q.process)
            && var e := Resumed(later, q.process); e.process.stack == [] && e.reply == None && e.running == later
  {
    hide IntAt;
  }

  /** A packet for a callable or a built-in that answers waits for it with the
      index and parameter of the packet; a poll, in a running server, with those
      inside its parameter.  A built-in that does not exist, and a poll without
      an index, stop the server and are gone.  Nothing is sent. */
  lemma PacketCalls(running: bool, b: seq<byte>)
    requires |b| >= 8
    ensures var q, i := Resumed(running, ProcessOf(b)), IntAt(b, 4);
            && CanRun(ProcessOf(b)) && q.reply == None
            && (i >= 0 || i == -1 || i == -2 || i == -4 ==>
                  && q.running == running && AtCall(q.process)
                  && q.process.session == WordAt(b, 0) && q.process.index == i && q.process.param == b[8..])
            && (i < -5 || (i == -5 && |b| < 12) ==> !q.running && q.process.stack == [])
            && (i == -5 && |b| >= 12 && running && IntAt(b, 8) >= 0 ==>
                  && q.running && AtCall(q.process) && |q.process.stack| == 3
                  && q.process.session == WordAt(b, 0) && q.process.index == IntAt(b, 8) && q.process.param == b[12..])
  {
    var i := IntAt(b, 4);
    if i == -5 && |b| >= 12 {
      assert b[8..][0..4] == b[8..12] && b[8..][4..] == b[12..];
      assert IntAt(b[8..], 0) == IntAt(b, 8);
      PollBegins(running, ProcessOf(b));
    }
    if i == -5 && |b| < 12 {
      var p := ProcessOf(b).(stack := [Entry, After]);
      ToAwaitStep(running, p);
      ToAwaitDone(false, p.(stack := []));
    }
    hide IntAt, WordAt;
  }

  lemma PollBegins(running: bool, p: Process)
    requires CanRun(p) && p.stack == [Begin] && p.index == POLL_INDEX && |p.param| >= 4
    ensures var q := Resumed(running, p);
            && q.reply == None
            && (running && IntAt(p.param, 0) >= 0 ==>
                  && q.running && q.process.stack == [Calling, Check, After]
                  && q.process.session == p.session
                  && q.process.index == IntAt(p.param, 0) && q.process.param == p.param[4..])
  {
    hide IntAt;
    var a := p.(stack := [Entry, After]);
    var b := a.(index := IntAt(p.param, 0), param := p.param[4..], stack := [Loop, After]);
    assert Advance(running, p).process == a && Advance(running, a).process == b;
    ToAwaitStep(running, a);
    if running && IntAt(p.param, 0) >= 0 {
      var c := b.(outcome := Ok([]), stack := [Begin, Check, After]);
      assert Advance(running, b).process == c;
      assert Advance(running, c).process == c.(stack := [Calling, Check, After]);
      ToAwaitStep(running, b);
      ToAwaitStep(running, c);
      ToAwaitDone(running, c.(stack := [Calling, Check, After]));
    }
  }

  /** A request whose callable has returned is answered in a running server,
      with its session word, the top bit flipped for an error; a signal is not.
      Then it ends, or its poll goes on to look at the outcome. */
  lemma AnswerSent(running: bool, p: Process)
    requires p.session < TWO32 && p.stack != [] && p.stack[0] == After && p.index != -3
    requires p.stack == [After] || p.stack == [After, Check, After]
    ensures var q := Resumed(running, p);
            && q.running == running && q.process == p.(stack := p.stack[1..])
            && (q.reply.Some? <==> running && p.session != 0xffff_ffff)
            && (q.reply.Some? ==>
                  && |q.reply.value| >= 4 && q.reply.value[4..] == p.outcome.body
                  && WordAt(q.reply.value, 0) == (p.session + if p.outcome.Ok? then 0 else 0x8000_0000) % 0x1_0000_0000)
  {
    hide WordAt, ReplyBytes;
    ReplyFields(ReplyWord(p.session, p.outcome), p.outcome.body);
  }

  /** After a success a poll in a running server calls its callable again, with
      the same index and parameter; after an error, and in a stopped server, it
      ends without an answer of its own. */
  lemma PollGoesOn(running: bool, p: Process, later: bool)
    requires p.session < TWO32 && p.stack == [Check, After] && p.index >= 0
    ensures var q := Resumed(running, p);
            && q.running == running && q.reply == None
            && if running && p.outcome.Ok? then
                 AtCall(q.process) && q.process == p.(outcome := Ok([]), stack := [Calling, Check, After])
               else
                 && CanRun(q.process)
                 && var e := Resumed(later, q.process); e.process.stack == [] && e.reply == None && e.running == later
  {
    hide Reply, IntAt;
    if p.outcome.Ok? {
      var a := p.(stack := [Loop, After]);
      assert Advance(running, p).process == a;
      if running {
        var b := a.(outcome := Ok([]), stack := [Begin, Check, After]);
        assert Advance(running, a).process == b;
        assert Advance(running, b).process == b.(stack := [Calling, Check, After]);
        ToAwaitStep(running, a);
        ToAwaitStep(running, b);
        ToAwaitDone(running, b.(stack := [Calling, Check, After]));
      } else {
        assert Advance(running, a).process == a.(index := CLOSE_INDEX, stack := [After]);
        ToAwaitStep(running, a);
        ToAwaitDone(running, a.(index := CLOSE_INDEX, stack := [After]));
      }
    } else {
      assert Advance(running, p).process == p.(index := CLOSE_INDEX, stack := [After]);
    }
  }

  /** A request taken up at its start, or after an await, goes on to the next. */
  function Resumed(running: bool, p: Process): (q: Progress)
    requires CanRun(p)
    ensures !Goes(q.process)
  {
    var t := Advance(running, p);
    ToAwait(t.running, t.process).(reply := t.reply)
  }

  function Sent(reply: Option<seq<byte>>): seq<seq<byte>> {
    if reply.Some? then [reply.value] else []
  }

  lemma ToAwaitStep(running: bool, p: Process)
    requires Goes(p)
    ensures var t := Advance(running, p);
            && ToAwait(running, p) == ToAwait(t.running, t.process) && t.reply == None
            && t.process.session == p.session
            && TurnShrinks(running, p)
  {
    hide Rank, IntAt, TurnShrinks;
    TurnDescends(running, p);
  }

  /** `u` is `s` after `n` turns of request `tag`. */
  ghost predicate Turns(s: System, tag: nat, u: System, n: nat)
    decreases n
  {
    if n == 0 then u == s else Enabled(s, Run(tag)) && Turns(Ran(s, tag), tag, u, n - 1)
  }

  function BytesOf(ps: seq<Packet>): (bs: seq<seq<byte>>)
    ensures |bs| == |ps| && forall k :: 0 <= k < |bs| ==> bs[k] == ps[k].bytes
  {
    seq(|ps|, k requires 0 <= k < |ps| => ps[k].bytes)
  }

  lemma RanIs(s: System, tag: nat)
    requires Enabled(s, Run(tag))
    ensures var t, v := Advance(s.server.running, s.server.inflight[tag]), Ran(s, tag);
            && v.server == Server(t.running, Settle(s.server.inflight, tag, t.process))
            && BytesOf(v.toClient) == BytesOf(s.toClient) + Sent(t.reply) && tag in v.answered
            && t.process.session == s.server.inflight[tag].session
  {
    hide Reply, IntAt;
  }

  /** `u` is `s` when request `tag` has come to `q` and sent its reply. */
  ghost predicate At(s: System, tag: nat, q: Progress, u: System) {
    && u.server == Server(q.running, Settle(s.server.inflight, tag, q.process))
    && BytesOf(u.toClient) == BytesOf(s.toClient) + Sent(q.reply)
  }

  /** Direct calls are a number of turns in a row. */
  lemma {:induction false} CallsAreTurns(s: System, tag: nat)
    requires tag in s.server.inflight && tag in s.answered && s.server.inflight[tag].stack != []
    ensures exists u, n: nat ::
              Turns(s, tag, u, n) && At(s, tag, ToAwait(s.server.running, s.server.inflight[tag]), u)
    decreases s.server.running, |s.server.inflight[tag].param|, Rank(s.server.running, s.server.inflight[tag])
  {
    hide Advance, Rank, Ran, Settle;
    var p := s.server.inflight[tag];
    if !Goes(p) {
      SettleSame(s.server.inflight, tag);
      assert Turns(s, tag, s, 0) && At(s, tag, ToAwait(s.server.running, p), s);
    } else {
      var t, v := Advance(s.server.running, p), Ran(s, tag);
      RanIs(s, tag);
      ToAwaitStep(s.server.running, p);
      var q := ToAwait(t.running, t.process);
      SettleTwice(s.server.inflight, tag, t.process, q.process);
      if t.process.stack == [] {
        SettleGone(s.server.inflight, tag, t.process);
        assert Turns(v, tag, v, 0) && Turns(s, tag, v, 1) && At(s, tag, q, v);
      } else {
        CallsAreTurns(v, tag);
        var u, n: nat :| Turns(v, tag, u, n) && At(v, tag, q, u);
        assert Turns(s, tag, u, n + 1) && At(s, tag, q, u);
      }
    }
  }

  /** What the server does from one await to the next is a number of turns in a
      row, so whatever holds in every run of the protocol holds of it; and it
      sends at most one reply, in the first of them. */
  lemma AwaitIsTurns(s: System, tag: nat)
    requires Enabled(s, Run(tag))
    ensures exists u, n: nat ::
              Turns(Ran(s, tag), tag, u, n) && At(s, tag, Resumed(s.server.running, s.server.inflight[tag]), u)
  {
    hide Advance, Ran, Settle, ToAwait;
    var p := s.server.inflight[tag];
    var t, v := Advance(s.server.running, p), Ran(s, tag);
    RanIs(s, tag);
    var q := ToAwait(t.running, t.process);
    SettleTwice(s.server.inflight, tag, t.process, q.process);
    if t.process.stack == [] {
      SettleGone(s.server.inflight, tag, t.process);
      ToAwaitDone(t.running, t.process);
      assert Turns(v, tag, v, 0) && At(s, tag, q.(reply := t.reply), v);
    } else {
      CallsAreTurns(v, tag);
      var u, n: nat :| Turns(v, tag, u, n) && At(v, tag, q, u);
      assert At(s, tag, q.(reply := t.reply), u);
    }
  }

  lemma SettleTwice(inflight: map<nat, Process>, tag: nat, p: Process, q: Process)
    ensures Settle(inflight[tag := p], tag, q) == Settle(inflight, tag, q)
    ensures p.stack != [] ==> Settle(inflight, tag, p) == inflight[tag := p]
  {
  }

  lemma SettleSame(inflight: map<nat, Process>, tag: nat)
    requires tag in inflight && inflight[tag].stack != []
    ensures Settle(inflight, tag, inflight[tag]) == inflight
  {
  }

  lemma SettleGone(inflight: map<nat, Process>, tag: nat, p: Process)
    requires p.stack == []
    ensures Settle(inflight, tag, p) == inflight - {tag}
  {
  }

  /** `PxpRequest`, with the activations of `processRequest` and `poll` at work
      on it. */
  class PxpRequest {
    const session: nat
    var callableIndex: int
    var parameter: seq<byte>
    var result: seq<byte>
    var rejected: Option<seq<byte>>
    var stack: seq<Pc>

    constructor (buf: seq<byte>)
      requires |buf| >= 8
      ensures Value() == ProcessOf(buf)
    {
      hide WordAt, IntAt;
      session, callableIndex, parameter := WordAt(buf, 0), IntAt(buf, 4), buf[8..];
      result, rejected, stack := [], None, [Begin];
    }

    function Value(): Process
      reads this
    {
      Process(session, callableIndex, parameter, if rejected.Some? then Err(rejected.value) else Ok(result), stack)
    }

    /** The callable sets what it returns or throws away, and its promise is
        resolved. */
    method Return(outcome: Outcome)
      requires AtCall(Value())
      modifies this
      ensures Value() == Returned(old(Value()), outcome)
    {
      if outcome.Ok? {
        result, rejected := outcome.body, None;
      } else {
        rejected := Some(outcome.body);
      }
      stack := [After] + stack[1..];
    }

    method Throw()
      requires AtCall(Value())
      modifies this
      ensures Value() == Thrown(old(Value()))
    {
      stack := stack[1..];
    }
  }

  /** `Server`, without its reference pool. */
  class ServerEndpoint {
    var running: bool
    var inflight: map<nat, PxpRequest>
    var sent: seq<seq<byte>>

    ghost predicate Valid()
      reads this
    {
      && (forall t, u :: t in inflight && u in inflight && t != u ==> inflight[t] != inflight[u])
      && forall t :: t in inflight ==> inflight[t].session < TWO32
    }

    /** The object is in state `v` of the protocol's server. */
    ghost predicate Is(v: Server)
      reads this, inflight.Values
    {
      && Valid() && running == v.running && inflight.Keys == v.inflight.Keys
      && forall t :: t in inflight ==> inflight[t].Value() == v.inflight[t]
    }

    constructor ()
      ensures Is(Server(false, map[])) && sent == []
    {
      running, inflight, sent := false, map[], [];
    }

    /** One turn of the innermost function at work on request `r`. */
    method TakeTurn(r: PxpRequest)
      requires CanRun(r.Value())
      modifies this`running, this`sent, r
      ensures var t := Advance(old(running), old(r.Value()));
              running == t.running && r.Value() == t.process && sent == old(sent) + Sent(t.reply)
    {
      hide IntAt, LE;
      var top, rest := r.stack[0], r.stack[1..];
      match top {
        case Begin =>
          if r.callableIndex == POLL_INDEX {
            r.stack := [Entry, After] + rest;
          } else if r.callableIndex == CLOSE_INDEX {
            running := false;
            r.stack := [After] + rest;
          } else if r.callableIndex < POLL_INDEX {
            running := false;
            r.stack := rest;
          } else {
            r.stack := [Calling] + rest;
          }
        case After =>
          if r.callableIndex != CLOSE_INDEX && r.session != SIGNAL && running {
            if r.rejected.None? {
              sent := sent + [ReplyBytes(r.session, r.result)];
            } else {
              sent := sent + [ReplyBytes(FlipTop(r.session), r.rejected.value)];
            }
          }
          r.stack := rest;
        case Entry =>
          if |r.parameter| < 4 {
            running := false;
            r.stack := if rest == [] then [] else rest[1..];
          } else {
            r.callableIndex := IntAt(r.parameter, 0);
            r.parameter := r.parameter[4..];
            r.stack := [Loop] + rest;
          }
        case Loop =>
          if running {
            r.rejected := None;
            r.result := [];
            r.stack := [Begin, Check] + rest;
          } else {
            r.callableIndex := CLOSE_INDEX;
            r.stack := rest;
          }
        case Check =>
          if r.rejected.Some? {
            r.callableIndex := CLOSE_INDEX;
            r.stack := rest;
          } else {
            r.stack := [Loop] + rest;
          }
      }
    }

    /** Request `r` goes on to its next await. */
    method GoOn(r: PxpRequest)
      requires CanRun(r.Value())
      modifies this`running, this`sent, r
      ensures var q := Resumed(old(running), old(r.Value()));
              running == q.running && r.Value() == q.process && sent == old(sent) + Sent(q.reply)
    {
      hide Advance, Rank, ToAwait;
      TakeTurn(r);
      ghost var now := sent;
      ghost var all := ToAwait(running, r.Value());
      while r.stack != [] && r.stack[0] in {Begin, Entry, Loop}
        invariant r.session < TWO32 && ToAwait(running, r.Value()) == all && sent == now
        decreases running, |r.parameter|, Rank(running, r.Value())
      {
        ghost var p := r.Value();
        GoesIs(p);
        ToAwaitStep(running, p);
        TakeTurn(r);
      }
      GoesIs(r.Value());
      ToAwaitDone(running, r.Value());
    }

    /** Request `tag` is taken up again, when the callable, the send or the
        function it awaits is done, and goes on to its next await; one that has
        returned is dropped. */
    method Resume(tag: nat, ghost v: Server)
      requires Is(v) && tag in inflight && CanRun(inflight[tag].Value())
      modifies this, inflight[tag]
      ensures var q := Resumed(v.running, v.inflight[tag]);
              Is(Server(q.running, Settle(v.inflight, tag, q.process))) && sent == old(sent) + Sent(q.reply)
    {
      hide Resumed;
      var r := inflight[tag];
      GoOn(r);
      Settled(tag, v);
    }

    /** A request that has returned is dropped. */
    method Settled(tag: nat, ghost v: Server)
      requires Valid() && tag in inflight && inflight.Keys == v.inflight.Keys
      requires forall t :: t in inflight && t != tag ==> inflight[t].Value() == v.inflight[t]
      modifies this`inflight
      ensures Is(Server(running, Settle(v.inflight, tag, old(inflight[tag].Value()))))
    {
      if inflight[tag].stack == [] {
        inflight := inflight - {tag};
      }
    }

    /** One turn of `serve`: a request object is made and processing begins. */
    method OnPacket(tag: nat, buf: seq<byte>, ghost v: Server)
      requires Is(v) && |buf| >= 8 && tag !in inflight
      modifies this
      ensures var q := Resumed(v.running, ProcessOf(buf));
              Is(Server(q.running, Settle(v.inflight, tag, q.process))) && sent == old(sent)
      ensures IntAt(buf, 4) == -3 ==> !running
    {
      hide Resumed, Is;
      ghost var p := ProcessOf(buf);
      PacketCalls(v.running, buf);
      if IntAt(buf, 4) == -3 {
        ClosePacket(v.running, buf, false);
      }
      Accepted(tag, buf, v);
      Resume(tag, v.(inflight := v.inflight[tag := p]));
      SettleTwice(v.inflight, tag, p, Resumed(v.running, p).process);
      Stopped(Server(Resumed(v.running, p).running, Settle(v.inflight, tag, Resumed(v.running, p).process)));
    }

    lemma Stopped(v: Server)
      requires Is(v)
      ensures running == v.running
    {
    }

    /** The request object of a packet joins those in progress. */
    method Accepted(tag: nat, buf: seq<byte>, ghost v: Server)
      requires Is(v) && |buf| >= 8 && tag !in inflight
      modifies this`inflight
      ensures Is(v.(inflight := v.inflight[tag := ProcessOf(buf)])) && tag in inflight && fresh(inflight[tag])
      ensures CanRun(inflight[tag].Value()) && sent == old(sent)
    {
      hide IntAt, FromLE;
      var r := new PxpRequest(buf);
      inflight := inflight[tag := r];
    }

    /** The callable of request `tag` has set the outcome and its promise is
        resolved; the request is taken up later. */
    method OnReturn(tag: nat, outcome: Outcome, ghost v: Server)
      requires Is(v) && tag in inflight && AtCall(inflight[tag].Value())
      modifies inflight[tag]
      ensures Is(v.(inflight := v.inflight[tag := Returned(v.inflight[tag], outcome)]))
      ensures CanRun(inflight[tag].Value())
    {
      hide Returned;
      inflight[tag].Return(outcome);
      ReturnedRuns(v.inflight[tag], outcome);
    }

    /** The callable of request `tag` has thrown: its `processRequest` closes
        the server and returns. */
    method OnThrow(tag: nat, ghost v: Server)
      requires Is(v) && tag in inflight && AtCall(inflight[tag].Value())
      modifies this, inflight[tag]
      ensures Is(Server(false, Settle(v.inflight, tag, Thrown(v.inflight[tag])))) && sent == old(sent)
    {
      inflight[tag].Throw();
      running := false;
      Settled(tag, v);
    }
  }

  lemma GoesIs(p: Process)
    requires p.session < TWO32
    ensures Goes(p) <==> p.stack != [] && p.stack[0] in {Begin, Entry, Loop}
    ensures Goes(p) ==> CanRun(p)
  {
  }

  lemma ToAwaitDone(running: bool, p: Process)
    requires !Goes(p)
    ensures ToAwait(running, p) == Progress(running, p, None)
  {
  }

  lemma ReturnedRuns(p: Process, o: Outcome)
    requires AtCall(p) && p.session < TWO32
    ensures CanRun(Returned(p, o))
  {
  }
}

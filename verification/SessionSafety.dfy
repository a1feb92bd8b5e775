/** Safety of the session protocol: the ownership invariant and what follows
    from it for every run. */
module SessionSafety {
  import opened Prelude
  import opened Wire
  import opened SidAllocator
  import opened Session

  // ---------- changes that keep requests what they are ----------

  predicate SameRequest(r: Rec, q: Rec) {
    r.kind == q.kind && r.sid == q.sid && r.index == q.index && r.param == q.param
  }

  ghost predicate SameRequests(a: Recs, b: Recs) {
    a.Keys == b.Keys && forall t :: t in a ==> SameRequest(a[t], b[t])
  }

  lemma RequestsFrame(
    a: Recs, b: Recs, computed: History, answered: History, toServer: seq<Packet>, inflight: map<nat, Process>)
    requires SameRequests(a, b) && RequestsOk(a, computed, answered, toServer, inflight)
    ensures RequestsOk(b, computed, answered, toServer, inflight)
  {
    forall k | 0 <= k < |toServer| ensures WireOf(b[toServer[k].tag]) == WireOf(a[toServer[k].tag]) {
      assert SameRequest(a[toServer[k].tag], b[toServer[k].tag]);
    }
  }

  lemma InflightFrame(a: Recs, b: Recs, computed: History, answered: History, server: Server)
    requires SameRequests(a, b) && InflightOk(a, computed, answered, server)
    ensures InflightOk(b, computed, answered, server)
  {
    forall t | t in server.inflight
      ensures ProcessOk(b[t], computed[t], answered[t], server.inflight[t], server.running)
    {
      assert SameRequest(a[t], b[t]);
    }
  }

  lemma RepliedFrame(a: Recs, b: Recs, computed: History, answered: History, server: Server)
    requires SameRequests(a, b) && RepliedAll(a, computed, answered, server)
    ensures RepliedAll(b, computed, answered, server)
  {
    hide Replied;
  }

  /** A change to what requests have seen leaves the server's side alone. */
  lemma ServerFrame(s: System, u: System)
    requires SameRequests(s.client.recs, u.client.recs)
    requires u.computed == s.computed && u.answered == s.answered && u.toServer == s.toServer && u.server == s.server
    requires RequestsOk(s.client.recs, s.computed, s.answered, s.toServer, s.server.inflight)
    requires InflightOk(s.client.recs, s.computed, s.answered, s.server)
    requires RepliedAll(s.client.recs, s.computed, s.answered, s.server)
    ensures RequestsOk(u.client.recs, u.computed, u.answered, u.toServer, u.server.inflight)
    ensures InflightOk(u.client.recs, u.computed, u.answered, u.server)
    ensures RepliedAll(u.client.recs, u.computed, u.answered, u.server)
  {
    hide RequestsOk, InflightOk, RepliedAll, SameRequests;
    RequestsFrame(s.client.recs, u.client.recs, s.computed, s.answered, s.toServer, s.server.inflight);
    InflightFrame(s.client.recs, u.client.recs, s.computed, s.answered, s.server);
    RepliedFrame(s.client.recs, u.client.recs, s.computed, s.answered, s.server);
  }

  lemma GenuineFrame(a: Recs, b: Recs, toClient: seq<Packet>)
    requires SameRequests(a, b) && Genuine(a, toClient)
    ensures Genuine(b, toClient)
  {
    hide Reply, OutcomeOf;
    forall k | 0 <= k < |toClient| ensures GenuineReply(b[toClient[k].tag], toClient[k].bytes) {
      assert SameRequest(a[toClient[k].tag], b[toClient[k].tag]);
    }
  }

  // ---------- every step keeps the invariant ----------

  lemma StartRequests(s: System, r: Rec, sids: Sids)
    requires TagsOk(s) && RequestsOk(s.client.recs, s.computed, s.answered, s.toServer, s.server.inflight)
    requires InflightOk(s.client.recs, s.computed, s.answered, s.server)
    ensures var u := Started(s, r, sids);
            RequestsOk(u.client.recs, u.computed, u.answered, u.toServer, u.server.inflight)
  {
    hide WireOf, ProcessOk;
    var n, u := s.nextTag, Started(s, r, sids);
    assert n !in s.client.recs;
    assert forall k :: 0 <= k < |s.toServer| ==> u.toServer[k] == s.toServer[k];
  }

  lemma StartInflight(s: System, r: Rec, sids: Sids)
    requires TagsOk(s) && InflightOk(s.client.recs, s.computed, s.answered, s.server)
    ensures var u := Started(s, r, sids); InflightOk(u.client.recs, u.computed, u.answered, u.server)
  {
    hide WireOf, ProcessOk;
    assert s.nextTag !in s.client.recs;
  }

  lemma StartReplied(s: System, r: Rec, sids: Sids)
    requires TagsOk(s) && InflightOk(s.client.recs, s.computed, s.answered, s.server)
    requires RepliedAll(s.client.recs, s.computed, s.answered, s.server)
    ensures var u := Started(s, r, sids); RepliedAll(u.client.recs, u.computed, u.answered, u.server)
  {
    hide WireOf, ProcessOk, Replied;
    assert s.nextTag !in s.client.recs && s.nextTag !in s.server.inflight;
    assert Replied(r.kind, [], [], Unsent(s.server.inflight, s.nextTag), s.server.running) by {
      NothingReplied(r.kind, s.server.running);
    }
  }

  lemma NothingReplied(kind: Kind, running: bool)
    ensures Replied(kind, [], [], [], running)
  {
  }

  lemma StartReplies(s: System, r: Rec, sids: Sids)
    requires TagsOk(s) && Genuine(s.client.recs, s.toClient) && Conserved(s.client.recs, s.answered, s.toClient)
    requires r.seen == []
    ensures var u := Started(s, r, sids);
            Genuine(u.client.recs, u.toClient) && Conserved(u.client.recs, u.answered, u.toClient)
  {
    hide WireOf, GenuineReply, OnTheWay;
    var n, u := s.nextTag, Started(s, r, sids);
    assert n !in s.client.recs;
    NothingOnTheWay(s.toClient, n);
  }

  lemma StartOwners(c: Client, tag: nat, r: Rec, sids: Sids)
    requires OwnersOk(c) && c.sids.Valid() && tag !in c.recs
    requires if Silent(r.kind) then sids == c.sids && r.phase == Done
             else r.phase == Waiting && r.sid !in c.sids.used && sids.used == c.sids.used + {r.sid}
    ensures OwnersOk(Registered(c, tag, r, sids))
  {
  }

  lemma StartTags(s: System, r: Rec, sids: Sids)
    requires TagsOk(s) && sids.Valid()
    ensures TagsOk(Started(s, r, sids))
  {
    hide WireOf;
  }

  lemma StartRecs(recs: Recs, answered: History, running: bool, tag: nat, r: Rec)
    requires RecsOk(recs, answered, running) && RecOk(r, [], running)
    ensures RecsOk(recs[tag := r], answered[tag := []], running)
  {
    hide RecOk;
  }

  lemma StartedKeeps(s: System, r: Rec, sids: Sids)
    requires Inv(s) && s.client.running && sids.Valid() && RecOk(r, [], true) && r.seen == []
    requires if Silent(r.kind) then sids == s.client.sids && r.phase == Done
             else r.phase == Waiting && r.sid !in s.client.sids.used && sids.used == s.client.sids.used + {r.sid}
    ensures Inv(Started(s, r, sids))
  {
    hide WireOf, OnTheWay, RequestsOk, InflightOk, RepliedAll, Genuine, Conserved, RecsOk, OwnersOk, RecOk;
    StartTags(s, r, sids);
    StartRecs(s.client.recs, s.answered, true, s.nextTag, r);
    StartRequests(s, r, sids);
    StartInflight(s, r, sids);
    StartReplied(s, r, sids);
    StartReplies(s, r, sids);
    StartOwners(s.client, s.nextTag, r, sids);
  }

  lemma CursorOwners(c: Client, sids: Sids)
    requires OwnersOk(c) && sids.used == c.sids.used
    ensures OwnersOk(c.(sids := sids))
  {
  }

  lemma StartKeeps(s: System, kind: Kind, index: int, param: seq<byte>, sid: Option<nat>, sids: Sids)
    requires Inv(s) && Enabled(s, Start(kind, index, param, sid, sids))
    ensures Inv(Apply(s, Start(kind, index, param, sid, sids)))
  {
    hide OnTheWay, RequestsOk, InflightOk, RepliedAll, Genuine, Conserved, RecsOk, OwnersOk, Started;
    if !Silent(kind) {
      AllocatesKeeps(s.client.sids, sid, sids);
    }
    if sid.Some? {
      StartedKeeps(s, NewRec(kind, sid.value, index, param), sids);
    } else if !Silent(kind) {
      CursorOwners(s.client, sids);
    }
  }

  lemma FinishOwners(c: Client, tag: nat)
    requires OwnersOk(c) && tag in c.recs && c.recs[tag].kind == Call && c.recs[tag].phase == Settled
    requires ClientSid(c.recs[tag].sid) && (c.running ==> !c.recs[tag].broken)
    ensures OwnersOk(Finished(c, tag))
  {
    assert LowBits(c.recs[tag].sid) == c.recs[tag].sid;
  }

  lemma FinishRecs(c: Client, tag: nat, answered: History)
    requires RecsOk(c.recs, answered, c.running) && tag in c.recs
    requires c.recs[tag].kind == Call && c.recs[tag].phase == Settled
    ensures RecsOk(Finished(c, tag).recs, answered, c.running) && SameRequests(c.recs, Finished(c, tag).recs)
    ensures forall t :: t in c.recs ==> Finished(c, tag).recs[t].seen == c.recs[t].seen
  {
    assert RecOk(c.recs[tag], answered[tag], c.running);
  }

  lemma FinishKeeps(s: System, tag: nat)
    requires Inv(s) && Enabled(s, Finish(tag))
    ensures Inv(Apply(s, Finish(tag)))
  {
    hide OnTheWay, RequestsOk, InflightOk, RepliedAll, Genuine, OwnersOk, RecsOk, SameRequests;
    var u := s.(client := Finished(s.client, tag));
    FinishRecs(s.client, tag, s.answered);
    ServerFrame(s, u);
    GenuineFrame(s.client.recs, u.client.recs, s.toClient);
    RecSid(s, tag);
    FinishOwners(s.client, tag);
  }

  lemma BrokenRecOk(r: Rec, answered: seq<Outcome>)
    requires RecOk(r, answered, true)
    ensures (Live(r) ==> RecOk(BrokenRec(r), answered, false)) && RecOk(r, answered, false)
    ensures SameRequest(r, BrokenRec(r)) && BrokenRec(r).seen == r.seen
  {
  }

  lemma BrokenRecs(c: Client, answered: History)
    requires RecsOk(c.recs, answered, true) && OwnersOk(c) && c.running
    ensures RecsOk(Broken(c).recs, answered, false) && SameRequests(c.recs, Broken(c).recs)
    ensures forall t :: t in c.recs ==> Broken(c).recs[t].seen == c.recs[t].seen
  {
    hide RecOk, BrokenRec;
    forall t | t in c.recs
      ensures RecOk(Broken(c).recs[t], answered[t], false) && SameRequest(c.recs[t], Broken(c).recs[t])
      ensures Broken(c).recs[t].seen == c.recs[t].seen
    {
      BrokenRecOk(c.recs[t], answered[t]);
    }
  }

  lemma BrokenOwners(c: Client)
    requires OwnersOk(c) && c.running
    requires forall t :: t in c.recs ==> !c.recs[t].broken && (c.recs[t].kind == Poll ==> c.recs[t].phase != Settled)
    ensures OwnersOk(Broken(c))
  {
    var d := Broken(c);
    forall t | t in d.recs && Live(d.recs[t]) ensures d.recs[t].sid in d.waiting && d.waiting[d.recs[t].sid] == t {
      assert Live(c.recs[t]);
    }
    forall i ensures i in d.sids.used <==> i in d.waiting && Owned(d, i) {
      if i in c.waiting {
        assert Owned(c, i) && Pending(c, c.waiting[i]);
      }
    }
  }

  lemma BreakKeeps(s: System)
    requires Inv(s) && s.client.running
    ensures Inv(s.(client := Broken(s.client)))
  {
    hide WireOf, OnTheWay, GenuineReply, RequestsOk, InflightOk, RepliedAll, Genuine;
    hide OwnersOk, RecOk, BrokenRec, RecsOk;
    var a, b := s.client.recs, Broken(s.client).recs;
    BrokenRecs(s.client, s.answered);
    ServerFrame(s, s.(client := Broken(s.client)));
    GenuineFrame(a, b, s.toClient);
    forall t | t in a ensures !a[t].broken && (a[t].kind == Poll ==> a[t].phase != Settled) {
      LiveOk(s, t);
    }
    BrokenOwners(s.client);
  }

  lemma LiveOk(s: System, t: nat)
    requires RecsOk(s.client.recs, s.answered, true) && t in s.client.recs
    ensures !s.client.recs[t].broken && (s.client.recs[t].kind == Poll ==> s.client.recs[t].phase != Settled)
  {
    assert RecOk(s.client.recs[t], s.answered[t], true);
  }

  lemma QuitKeeps(s: System)
    requires Inv(s)
    ensures Inv(s.(client := s.client.(running := false)))
  {
    hide OnTheWay, RequestsOk, InflightOk, RepliedAll, Genuine, Conserved;
    assert RecsOk(s.client.recs, s.answered, false);
  }

  // ---------- the steps of the server ----------

  lemma AcceptRequests(s: System, p: Process)
    requires RequestsOk(s.client.recs, s.computed, s.answered, s.toServer, s.server.inflight) && s.toServer != []
    ensures var rest, inflight := s.toServer[1..], s.server.inflight[s.toServer[0].tag := p];
            RequestsOk(s.client.recs, s.computed, s.answered, rest, inflight)
  {
  }

  lemma FreshOk(r: Rec, running: bool)
    requires Callable(r.kind, r.index)
    ensures ProcessOk(r, [], [], Fresh(r), running)
  {
  }

  lemma AcceptKeeps(s: System)
    requires Inv(s) && Enabled(s, Accept)
    ensures Inv(Apply(s, Accept))
  {
    hide ProcessOf, OnTheWay, Genuine, Conserved, OwnersOk, ProcessOk, Replied, WireOf, Fresh;
    var p := s.toServer[0];
    var r := s.client.recs[p.tag];
    assert p.bytes == WireOf(r) && RecOk(r, s.answered[p.tag], s.client.running);
    WireReads(r);
    AcceptRequests(s, Fresh(r));
    FreshOk(r, true);
    AcceptReplied(s, p.tag, Fresh(r));
  }

  lemma AcceptReplied(s: System, tag: nat, p: Process)
    requires RepliedAll(s.client.recs, s.computed, s.answered, s.server)
    requires tag in s.client.recs && tag !in s.server.inflight && p == Fresh(s.client.recs[tag])
    ensures RepliedAll(s.client.recs, s.computed, s.answered, s.server.(inflight := s.server.inflight[tag := p]))
  {
    hide Replied;
  }

  lemma AnsweredGenuine(recs: Recs, toClient: seq<Packet>, tag: nat, o: Outcome)
    requires Genuine(recs, toClient) && tag in recs && !Silent(recs[tag].kind) && ClientSid(recs[tag].sid)
    ensures Genuine(recs, toClient + [Packet(Reply(recs[tag].sid, o), tag)])
  {
    ReplyIs(recs[tag].sid, o);
    hide Reply, OutcomeOf;
  }

  lemma AnsweredConserved(recs: Recs, answered: History, toClient: seq<Packet>, p: Packet, o: Outcome)
    requires Words(toClient) && Conserved(recs, answered, toClient) && p.tag in recs
    requires |p.bytes| >= 4 && OutcomeOf(p.bytes) == o
    ensures Words(toClient + [p])
    ensures Conserved(recs, answered[p.tag := answered[p.tag] + [o]], toClient + [p])
  {
    hide OutcomeOf, OnTheWay;
    forall t | t in recs
      ensures OnTheWay(toClient + [p], t) == OnTheWay(toClient, t) + if t == p.tag then [o] else []
    {
      OnTheWayAppend(toClient, p, t);
    }
  }

  lemma AnsweredReplies(s: System, tag: nat, o: Outcome)
    requires Genuine(s.client.recs, s.toClient) && Words(s.toClient)
    requires Conserved(s.client.recs, s.answered, s.toClient)
    requires tag in s.client.recs && !Silent(s.client.recs[tag].kind) && ClientSid(s.client.recs[tag].sid)
    ensures var ps := s.toClient + [Packet(Reply(s.client.recs[tag].sid, o), tag)];
            && Genuine(s.client.recs, ps) && Words(ps) && tag in s.answered
            && Conserved(s.client.recs, s.answered[tag := s.answered[tag] + [o]], ps)
  {
    hide Genuine, Reply, OutcomeOf, Conserved, Words;
    var p := Packet(Reply(s.client.recs[tag].sid, o), tag);
    ReplyIs(s.client.recs[tag].sid, o);
    AnsweredGenuine(s.client.recs, s.toClient, tag, o);
    Known(s, tag);
    AnsweredConserved(s.client.recs, s.answered, s.toClient, p, o);
  }

  lemma Known(s: System, tag: nat)
    requires Words(s.toClient) && Conserved(s.client.recs, s.answered, s.toClient) && tag in s.client.recs
    ensures tag in s.answered
  {
  }

  lemma AnsweredRecs(recs: Recs, answered: History, running: bool, tag: nat, o: Outcome)
    requires RecsOk(recs, answered, running) && tag in recs && !Silent(recs[tag].kind)
    requires if recs[tag].kind == Poll then AllOk(answered[tag]) else answered[tag] == []
    ensures RecsOk(recs, answered[tag := answered[tag] + [o]], running)
  {
  }

  /** Histories of requests in the server and what is at work on them may change
      without touching the requests not yet accepted. */
  lemma ServedRequests(s: System, u: System, tag: nat)
    requires RequestsOk(s.client.recs, s.computed, s.answered, s.toServer, s.server.inflight)
    requires tag in s.server.inflight
    requires u.client.recs == s.client.recs && u.toServer == s.toServer
    requires u.server.inflight.Keys <= s.server.inflight.Keys
    requires u.computed.Keys == s.computed.Keys && u.answered.Keys == s.answered.Keys
    requires forall t :: t in s.computed && t != tag ==> u.computed[t] == s.computed[t]
    requires forall t :: t in s.answered && t != tag ==> u.answered[t] == s.answered[t]
    ensures RequestsOk(u.client.recs, u.computed, u.answered, u.toServer, u.server.inflight)
  {
    hide WireOf;
  }

  /** Only request `tag` changes in the server, to process `p`. */
  ghost predicate OnlyChanges(s: System, u: System, tag: nat, p: Process) {
    && tag in s.server.inflight && u.client.recs == s.client.recs && u.toServer == s.toServer
    && u.server.inflight == Settle(s.server.inflight, tag, p)
    && (u.server.running ==> s.server.running)
    && u.computed.Keys == s.computed.Keys && u.answered.Keys == s.answered.Keys
    && (forall t :: t in s.computed && t != tag ==> u.computed[t] == s.computed[t])
    && (forall t :: t in s.answered && t != tag ==> u.answered[t] == s.answered[t])
  }

  lemma StoppedOk(r: Rec, computed: seq<Outcome>, answered: seq<Outcome>, p: Process)
    requires ProcessOk(r, computed, answered, p, true)
    ensures ProcessOk(r, computed, answered, p, false)
  {
  }

  lemma ServedInflight(s: System, u: System, tag: nat, p: Process)
    requires InflightOk(s.client.recs, s.computed, s.answered, s.server) && OnlyChanges(s, u, tag, p)
    requires p.stack != [] ==> ProcessOk(s.client.recs[tag], u.computed[tag], u.answered[tag], p, u.server.running)
    ensures InflightOk(u.client.recs, u.computed, u.answered, u.server)
  {
    hide ProcessOk;
    forall t | t in u.server.inflight && t != tag
      ensures ProcessOk(u.client.recs[t], u.computed[t], u.answered[t], u.server.inflight[t], u.server.running)
    {
      if s.server.running && !u.server.running {
        StoppedOk(s.client.recs[t], s.computed[t], s.answered[t], s.server.inflight[t]);
      }
    }
  }

  lemma ServedReplied(s: System, u: System, tag: nat, p: Process)
    requires RepliedAll(s.client.recs, s.computed, s.answered, s.server) && OnlyChanges(s, u, tag, p)
    requires tag in u.client.recs && tag in u.computed && tag in u.answered
    requires Replied(s.client.recs[tag].kind, u.computed[tag], u.answered[tag], Unsent(u.server.inflight, tag),
                     u.server.running)
    ensures RepliedAll(u.client.recs, u.computed, u.answered, u.server)
  {
    forall t | t in u.client.recs && t != tag
      ensures Unsent(u.server.inflight, t) == Unsent(s.server.inflight, t)
      ensures Replied(u.client.recs[t].kind, u.computed[t], u.answered[t], Unsent(u.server.inflight, t),
                      u.server.running)
    {
      assert Replied(s.client.recs[t].kind, s.computed[t], s.answered[t], Unsent(s.server.inflight, t),
                     s.server.running);
    }
  }

  lemma ServedKeeps(s: System, u: System, tag: nat, p: Process)
    requires RequestsOk(s.client.recs, s.computed, s.answered, s.toServer, s.server.inflight)
    requires InflightOk(s.client.recs, s.computed, s.answered, s.server)
    requires RepliedAll(s.client.recs, s.computed, s.answered, s.server)
    requires OnlyChanges(s, u, tag, p)
    requires p.stack != [] ==> ProcessOk(s.client.recs[tag], u.computed[tag], u.answered[tag], p, u.server.running)
    requires Replied(s.client.recs[tag].kind, u.computed[tag], u.answered[tag], Unsent(u.server.inflight, tag),
                     u.server.running)
    ensures RequestsOk(u.client.recs, u.computed, u.answered, u.toServer, u.server.inflight)
    ensures InflightOk(u.client.recs, u.computed, u.answered, u.server)
    ensures RepliedAll(u.client.recs, u.computed, u.answered, u.server)
  {
    hide ProcessOk, RequestsOk, RepliedAll, Replied, Unsent;
    ServedRequests(s, u, tag);
    ServedInflight(s, u, tag, p);
    ServedReplied(s, u, tag, p);
  }

  /** The session word of a request. */
  predicate SidOk(r: Rec) {
    r.sid < TWO32 && (r.kind == Signal ==> r.sid == SIGNAL) && (!Silent(r.kind) ==> ClientSid(r.sid))
  }

  /** The next turn is the first of a request to close. */
  predicate Closing(r: Rec, p: Process) { r.kind == Close && p.stack == [Begin] }

  /** What one turn of a request in order does: the request stays in order and
      the server as it is, but that a request to close closes it; a reply goes out exactly when an outcome was waiting
      to be sent to somebody, and its word is right. */
  ghost predicate TurnOk(
    r: Rec, computed: seq<Outcome>, answered: seq<Outcome>, p: Process, running: bool)
    requires CanRun(p) && r.sid < TWO32
  {
    var t := Advance(running, p);
    var now := if t.reply.Some? then answered + [p.outcome] else answered;
    && t.running == (running && !Closing(r, p))
    && (t.process.stack != [] ==> ProcessOk(r, computed, now, t.process, t.running))
    && Replied(r.kind, computed, now, Unsent(Settle(map[0 := p], 0, t.process), 0), t.running)
    && (t.reply.Some? ==>
          && t.reply == Some(Reply(r.sid, p.outcome)) && !Silent(r.kind)
          && if r.kind == Poll then AllOk(answered) else answered == [])
  }

  lemma SingleTurn(r: Rec, computed: seq<Outcome>, answered: seq<Outcome>, p: Process, running: bool)
    requires SingleOk(r, computed, answered, p) && CanRun(p) && r.kind != Poll
    requires Callable(r.kind, r.index) && SidOk(r)
    requires Replied(r.kind, computed, answered, Unsent(map[0 := p], 0), running)
    ensures TurnOk(r, computed, answered, p, running)
  {
    hide Reply;
  }

  /** The turns of a poll before its loop begins. */
  lemma PollEnters(r: Rec, computed: seq<Outcome>, answered: seq<Outcome>, p: Process, running: bool)
    requires PollOk(r, computed, answered, p, running) && r.kind == Poll && CanRun(p) && r.sid < TWO32
    requires p.stack == [Begin] || p.stack == [Entry, After]
    requires Callable(r.kind, r.index) && Replied(r.kind, computed, answered, [], running)
    ensures TurnOk(r, computed, answered, p, running)
  {
    hide EncInt, IntAt;
    EntryReads(r.index, r.param);
    var q := Advance(running, p).process;
    assert q.stack == if p.stack == [Begin] then [Entry, After] else [Loop, After];
  }

  /** The turns of a poll in its loop that send nothing. */
  lemma PollLoops(r: Rec, computed: seq<Outcome>, answered: seq<Outcome>, p: Process, running: bool)
    requires PollOk(r, computed, answered, p, running) && r.kind == Poll && CanRun(p) && r.sid < TWO32
    requires p.stack == [Loop, After] || p.stack == [Begin] + POLLING || p.stack == POLLING
    requires Callable(r.kind, r.index) && Replied(r.kind, computed, answered, [], running)
    ensures TurnOk(r, computed, answered, p, running)
  {
    hide EncInt, IntAt;
    var q := Advance(running, p).process;
    assert q.stack ==
      if p.stack == [Loop, After] then (if running then [Begin] + POLLING else [After])
      else if p.stack == POLLING then (if p.outcome.Err? then [After] else [Loop, After])
      else [Calling] + POLLING;
  }

  /** The inner call of a poll answers. */
  lemma PollAnswers(r: Rec, computed: seq<Outcome>, answered: seq<Outcome>, p: Process, running: bool)
    requires PollOk(r, computed, answered, p, running) && r.kind == Poll && CanRun(p) && ClientSid(r.sid)
    requires p.stack == [After] + POLLING
    requires Callable(r.kind, r.index) && Replied(r.kind, computed, answered, Unsent(map[0 := p], 0), running)
    ensures TurnOk(r, computed, answered, p, running)
  {
    hide Reply, EncInt, IntAt;
    var t := Advance(running, p);
    var init := computed[..|computed| - 1];
    assert computed == init + [p.outcome];
    assert p.index == r.index >= 0 && p.session != SIGNAL;
    assert t == Turn(running, p.(stack := POLLING), if running then Some(Reply(p.session, p.outcome)) else None);
    assert AllOk(init) && (p.outcome.Ok? ==> AllOk(computed));
  }

  /** The poll itself does not. */
  lemma PollEnds(r: Rec, computed: seq<Outcome>, answered: seq<Outcome>, p: Process, running: bool)
    requires PollOk(r, computed, answered, p, running) && r.kind == Poll && CanRun(p) && r.sid < TWO32
    requires p.stack == [After]
    requires Replied(r.kind, computed, answered, Unsent(map[0 := p], 0), running)
    ensures TurnOk(r, computed, answered, p, running)
  {
    hide Reply, EncInt, IntAt;
    assert Advance(running, p) == Turn(running, p.(stack := []), None);
  }

  lemma TurnKeeps(r: Rec, computed: seq<Outcome>, answered: seq<Outcome>, p: Process, running: bool)
    requires ProcessOk(r, computed, answered, p, running) && CanRun(p)
    requires Callable(r.kind, r.index) && SidOk(r)
    requires Replied(r.kind, computed, answered, Unsent(map[0 := p], 0), running)
    ensures TurnOk(r, computed, answered, p, running)
  {
    hide TurnOk, Replied;
    if r.kind != Poll {
      SingleTurn(r, computed, answered, p, running);
    } else if p.stack == [Begin] || p.stack == [Entry, After] {
      PollEnters(r, computed, answered, p, running);
    } else if p.stack == [Loop, After] || p.stack == [Begin] + POLLING || p.stack == POLLING {
      PollLoops(r, computed, answered, p, running);
    } else if p.stack == [After] + POLLING {
      PollAnswers(r, computed, answered, p, running);
    } else {
      PollEnds(r, computed, answered, p, running);
    }
  }

  lemma RunKeeps(s: System, tag: nat)
    requires Inv(s) && Enabled(s, Run(tag))
    ensures Inv(Apply(s, Run(tag)))
  {
    hide Reply, Genuine, Conserved, OwnersOk, RecsOk, RequestsOk, InflightOk, RepliedAll;
    hide RecOk, ProcessOk, Replied, Advance;
    InflightFacts(s, tag);
    var r, p, u := s.client.recs[tag], s.server.inflight[tag], Ran(s, tag);
    assert Unsent(map[0 := p], 0) == Unsent(s.server.inflight, tag);
    TurnKeeps(r, s.computed[tag], s.answered[tag], p, s.server.running);
    var t := Advance(s.server.running, p);
    assert Unsent(Settle(map[0 := p], 0, t.process), 0) == Unsent(u.server.inflight, tag);
    ServedKeeps(s, u, tag, t.process);
    if t.reply.Some? {
      GenuineWords(s.client.recs, s.toClient);
      AnsweredReplies(s, tag, p.outcome);
      AnsweredRecs(s.client.recs, s.answered, s.client.running, tag, p.outcome);
    }
  }

  /** The outcome of a callable becomes the one waiting to be sent. */
  lemma ReturnedKeeps(r: Rec, computed: seq<Outcome>, answered: seq<Outcome>, p: Process, running: bool, o: Outcome)
    requires ProcessOk(r, computed, answered, p, running) && AtCall(p) && Callable(r.kind, r.index)
    requires Replied(r.kind, computed, answered, [], running)
    ensures var q := Returned(p, o);
            && ProcessOk(r, computed + [o], answered, q, running)
            && Replied(r.kind, computed + [o], answered, Unsent(map[0 := q], 0), running)
  {
    if r.kind == Poll {
      PollReturned(r, computed, answered, p, running, o);
    }
  }

  lemma PollReturned(r: Rec, computed: seq<Outcome>, answered: seq<Outcome>, p: Process, running: bool, o: Outcome)
    requires PollOk(r, computed, answered, p, running) && AtCall(p) && r.kind == Poll && Callable(r.kind, r.index)
    requires Replied(r.kind, computed, answered, [], running)
    ensures PollOk(r, computed + [o], answered, Returned(p, o), running)
    ensures Replied(r.kind, computed + [o], answered, Unsent(map[0 := Returned(p, o)], 0), running)
  {
    hide PollOk, AllOk, OkThenErr;
    CallingFacts(r, computed, answered, p, running);
    var q, all := Returned(p, o), computed + [o];
    assert all[..|computed|] == computed;
    assert q.stack == [After] + POLLING;
    AllOkThen(computed, o);
    AnsweringOk(r, all, answered, q, running);
  }

  lemma AllOkThen(os: seq<Outcome>, o: Outcome)
    requires AllOk(os)
    ensures OkThenErr(os + [o])
  {
  }

  /** A poll whose callable is at work. */
  lemma CallingFacts(r: Rec, computed: seq<Outcome>, answered: seq<Outcome>, p: Process, running: bool)
    requires PollOk(r, computed, answered, p, running) && AtCall(p)
    ensures p.stack == [Calling] + POLLING && AsMade(r, p)
    ensures AllOk(computed) && answered <= computed && (running ==> answered == computed)
  {
    hide AllOk, OkThenErr;
  }

  /** A poll with an answer to send. */
  lemma AnsweringOk(r: Rec, computed: seq<Outcome>, answered: seq<Outcome>, p: Process, running: bool)
    requires p.stack == [After] + POLLING && AsMade(r, p) && OkThenErr(computed) && computed != []
    requires computed[|computed| - 1] == p.outcome && answered <= computed[..|computed| - 1] <= computed
    requires running ==> answered == computed[..|computed| - 1]
    ensures PollOk(r, computed, answered, p, running)
  {
    hide AllOk, OkThenErr;
    assert p.stack[0] == After && |p.stack| == 3;
  }

  lemma CompleteKeeps(s: System, tag: nat, o: Outcome)
    requires Inv(s) && Enabled(s, Complete(tag, o))
    ensures Inv(Apply(s, Complete(tag, o)))
  {
    hide Genuine, Conserved, OwnersOk, RecsOk, RequestsOk, InflightOk, RepliedAll, RecOk, ProcessOk, Replied;
    InflightFacts(s, tag);
    var p, u := s.server.inflight[tag], Apply(s, Complete(tag, o));
    var q := Returned(p, o);
    ReturnedKeeps(s.client.recs[tag], s.computed[tag], s.answered[tag], p, s.server.running, o);
    assert Unsent(map[0 := q], 0) == Unsent(u.server.inflight, tag);
    ServedKeeps(s, u, tag, q);
  }

  lemma InflightFacts(s: System, tag: nat)
    requires Inv(s) && tag in s.server.inflight
    ensures tag in s.client.recs && tag in s.computed && tag in s.answered
    ensures var r := s.client.recs[tag];
            && ProcessOk(r, s.computed[tag], s.answered[tag], s.server.inflight[tag], s.server.running)
            && Replied(r.kind, s.computed[tag], s.answered[tag], Unsent(s.server.inflight, tag), s.server.running)
            && Callable(r.kind, r.index)
            && SidOk(r)
  {
    hide ProcessOk, Replied;
    assert RecOk(s.client.recs[tag], s.answered[tag], s.client.running);
  }

  lemma ThrownKeeps(r: Rec, computed: seq<Outcome>, answered: seq<Outcome>, p: Process, running: bool)
    requires ProcessOk(r, computed, answered, p, running) && AtCall(p)
    requires Replied(r.kind, computed, answered, [], running)
    ensures Thrown(p).stack != [] ==> ProcessOk(r, computed, answered, Thrown(p), false)
    ensures Replied(r.kind, computed, answered, Unsent(Settle(map[0 := p], 0, Thrown(p)), 0), false)
  {
  }

  lemma ThrowKeeps(s: System, tag: nat)
    requires Inv(s) && Enabled(s, Throw(tag))
    ensures Inv(Apply(s, Throw(tag)))
  {
    hide Genuine, Conserved, OwnersOk, RecsOk, RequestsOk, InflightOk, RepliedAll, RecOk, ProcessOk, Replied;
    InflightFacts(s, tag);
    var p, u := s.server.inflight[tag], Apply(s, Throw(tag));
    ThrownKeeps(s.client.recs[tag], s.computed[tag], s.answered[tag], p, s.server.running);
    assert Unsent(Settle(map[0 := p], 0, Thrown(p)), 0) == Unsent(u.server.inflight, tag);
    ServedKeeps(s, u, tag, Thrown(p));
  }

  lemma ShutKeeps(s: System)
    requires Inv(s)
    ensures Inv(s.(server := s.server.(running := false)))
  {
    hide Genuine, Conserved, OwnersOk, RecsOk, RequestsOk, ProcessOk;
    forall t | t in s.server.inflight && s.server.running
      ensures ProcessOk(s.client.recs[t], s.computed[t], s.answered[t], s.server.inflight[t], false)
    {
      StoppedOk(s.client.recs[t], s.computed[t], s.answered[t], s.server.inflight[t]);
    }
  }

  // ---------- delivering a reply ----------

  /** A request with an outcome still to be seen is waiting for it. */
  lemma MoreToCome(r: Rec, answered: seq<Outcome>, rest: seq<Outcome>)
    requires RecOk(r, answered, true) && !Silent(r.kind)
    requires answered == r.seen + rest && rest != []
    ensures r.phase == Waiting
  {
    if r.kind == Poll && r.seen != [] {
      assert answered[|r.seen| - 1] == r.seen[|r.seen| - 1];
    }
  }

  /** The first reply under way finds the callback of its own request, which
      is still waiting, and carries one of its session words. */
  lemma HeadRouted(s: System)
    requires Inv(s) && s.client.running && s.toClient != []
    ensures var p := s.toClient[0]; var r := s.client.recs[p.tag]; var word := WordAt(p.bytes, 0);
            && p.tag in s.client.recs && r.phase == Waiting && !Silent(r.kind)
            && word != SIGNAL && LowBits(word) == r.sid
            && r.sid in s.client.waiting && s.client.waiting[r.sid] == p.tag
            && OutcomeOf(p.bytes) == (if word == r.sid then Ok(p.bytes[4..]) else Err(p.bytes[4..]))
  {
    hide RequestsOk, InflightOk, RepliedAll, RecOk, OnTheWay, Reply, OutcomeOf, WordAt;
    var p := s.toClient[0];
    var r, o := s.client.recs[p.tag], OutcomeOf(p.bytes);
    assert GenuineReply(r, p.bytes);
    ReplyIs(r.sid, o);
    OnTheWayHead(s.toClient, p.tag);
    assert s.answered[p.tag] == r.seen + OnTheWay(s.toClient, p.tag);
    MoreToCome(r, s.answered[p.tag], OnTheWay(s.toClient, p.tag));
  }

  lemma DeliverGenuine(recs: Recs, ps: seq<Packet>, q: Rec)
    requires ps != [] && Genuine(recs, ps) && SameRequest(recs[ps[0].tag], q)
    ensures var after := recs[ps[0].tag := q]; SameRequests(recs, after) && Genuine(after, ps[1..])
  {
    hide GenuineReply;
    var after := recs[ps[0].tag := q];
    assert SameRequests(recs, after);
    GenuineFrame(recs, after, ps);
  }

  lemma DeliverConserved(recs: Recs, answered: History, ps: seq<Packet>, q: Rec)
    requires ps != [] && Words(ps) && ps[0].tag in recs && Conserved(recs, answered, ps)
    requires q.seen == recs[ps[0].tag].seen + [OutcomeOf(ps[0].bytes)]
    ensures Words(ps[1..]) && Conserved(recs[ps[0].tag := q], answered, ps[1..])
  {
    hide OutcomeOf, OnTheWay;
    var after := recs[ps[0].tag := q];
    forall t | t in recs ensures t in answered && answered[t] == after[t].seen + OnTheWay(ps[1..], t) {
      OnTheWayHead(ps, t);
    }
  }

  lemma DeliverOwners(c: Client, tag: nat, word: nat, body: seq<byte>)
    requires OwnersOk(c) && tag in c.recs && c.recs[tag].phase == Waiting && !Silent(c.recs[tag].kind)
    requires ClientSid(c.recs[tag].sid)
    ensures var r := c.recs[tag]; var q := Received(r, word, body); var recs := c.recs[tag := q];
            if r.kind == Poll && word != r.sid
            then OwnersOk(c.(recs := recs, waiting := c.waiting - {LowBits(r.sid)}, sids := c.sids.Free(r.sid)))
            else OwnersOk(c.(recs := recs))
  {
    assert LowBits(c.recs[tag].sid) == c.recs[tag].sid;
  }

  lemma ReceivedOk(r: Rec, word: nat, o: Outcome, answered: seq<Outcome>)
    requires RecOk(r, answered, true) && r.phase == Waiting && !Silent(r.kind)
    requires o == if word == r.sid then Ok(o.body) else Err(o.body)
    ensures var q := Received(r, word, o.body);
            && RecOk(q, answered, true) && SameRequest(r, q) && q.seen == r.seen + [o]
            && (q.phase == Done <==> r.kind == Poll && word != r.sid)
  {
  }

  /** The state after the first reply is delivered, spelt out. */
  function Delivered(s: System): System
    requires s.toClient != [] && |s.toClient[0].bytes| >= 4 && s.toClient[0].tag in s.client.recs
  {
    var p := s.toClient[0];
    var r, word := s.client.recs[p.tag], WordAt(p.bytes, 0);
    var c := s.client.(recs := s.client.recs[p.tag := Received(r, word, p.bytes[4..])]);
    s.(client := if r.kind == Poll && word != r.sid
                 then c.(waiting := c.waiting - {LowBits(r.sid)}, sids := c.sids.Free(r.sid)) else c,
       toClient := s.toClient[1..])
  }

  lemma DeliverIs(s: System)
    requires Inv(s) && Enabled(s, Deliver)
    ensures s.toClient[0].tag in s.client.recs && Apply(s, Deliver) == Delivered(s)
  {
    hide Inv, WordAt;
    HeadRouted(s);
  }

  lemma DeliverKeeps(s: System)
    requires Inv(s) && Enabled(s, Deliver)
    ensures Inv(Apply(s, Deliver))
  {
    hide Genuine, Conserved, OwnersOk, RecOk, RequestsOk, InflightOk, RepliedAll;
    hide WordAt, Received, OutcomeOf, SameRequests;
    DeliverIs(s);
    HeadRouted(s);
    var p := s.toClient[0];
    var r, word, o := s.client.recs[p.tag], WordAt(p.bytes, 0), OutcomeOf(p.bytes);
    assert RecOk(r, s.answered[p.tag], true) && ClientSid(r.sid) by { RecSid(s, p.tag); }
    ReceivedOk(r, word, o, s.answered[p.tag]);
    var q := Received(r, word, o.body);
    var after := s.client.recs[p.tag := q];
    assert Words(s.toClient) by { GenuineWords(s.client.recs, s.toClient); }
    DeliverGenuine(s.client.recs, s.toClient, q);
    DeliverConserved(s.client.recs, s.answered, s.toClient, q);
    DeliverOwners(s.client, p.tag, word, o.body);
    ServerFrame(s, Apply(s, Deliver));
  }

  lemma RecSid(s: System, tag: nat)
    requires Inv(s) && tag in s.client.recs && !Silent(s.client.recs[tag].kind)
    ensures tag in s.computed && tag in s.answered && RecOk(s.client.recs[tag], s.answered[tag], s.client.running)
    ensures ClientSid(s.client.recs[tag].sid) && (s.client.running ==> !s.client.recs[tag].broken)
  {
  }

  lemma GenuineWords(recs: Recs, ps: seq<Packet>)
    requires Genuine(recs, ps)
    ensures Words(ps)
  {
  }

  lemma StepKeeps(s: System, step: Step)
    requires Inv(s) && Enabled(s, step)
    ensures Inv(Apply(s, step))
  {
    match step
    case Start(kind, index, param, sid, sids) => StartKeeps(s, kind, index, param, sid, sids);
    case Deliver => DeliverKeeps(s);
    case Finish(tag) => FinishKeeps(s, tag);
    case Break => BreakKeeps(s);
    case Quit => QuitKeeps(s);
    case Accept => AcceptKeeps(s);
    case Run(tag) => RunKeeps(s, tag);
    case Complete(tag, o) => CompleteKeeps(s, tag, o);
    case Throw(tag) => ThrowKeeps(s, tag);
    case Shut => ShutKeeps(s);
  }
}

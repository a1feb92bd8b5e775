/** What the session invariant means for every run, and that no request is
    lost while both sides run. */
module SessionRuns {
  import opened Prelude
  import opened Wire
  import opened SidAllocator
  import opened Session
  import opened SessionSafety

  // ---------- where an unanswered request is ----------

  /** `os` is not all there will be of request `r`. */
  predicate Unfinished(r: Rec, os: seq<Outcome>) {
    match r.kind
    case Signal => false
    case Close => false
    case Call => os == []
    case Poll => AllOk(os)
  }

  predicate OnTheWire(toServer: seq<Packet>, tag: nat) {
    exists k :: 0 <= k < |toServer| && toServer[k].tag == tag
  }

  /** While the server runs, a request it still owes an answer to is on the
      wire to it or being worked on. */
  ghost predicate Located(s: System) {
    s.server.running ==>
      forall t :: t in s.client.recs && t in s.answered && Unfinished(s.client.recs[t], s.answered[t]) ==>
        OnTheWire(s.toServer, t) || t in s.server.inflight
  }

  ghost predicate Safe(s: System) { Inv(s) && Located(s) }

  lemma SameRequestsLocated(s: System, u: System)
    requires Located(s) && SameRequests(s.client.recs, u.client.recs)
    requires u.answered == s.answered && u.toServer == s.toServer
    requires u.server.inflight.Keys == s.server.inflight.Keys && (u.server.running ==> s.server.running)
    ensures Located(u)
  {
    forall t | t in u.client.recs && t in u.answered && Unfinished(u.client.recs[t], u.answered[t])
      ensures Unfinished(s.client.recs[t], s.answered[t])
    {
      assert SameRequest(s.client.recs[t], u.client.recs[t]);
    }
  }

  lemma StartLocated(s: System, r: Rec, sids: Sids)
    requires Located(s) && TagsOk(s)
    ensures Located(Started(s, r, sids))
  {
    hide WireOf;
    var u := Started(s, r, sids);
    if s.server.running {
      forall t | t in u.client.recs && t in u.answered && Unfinished(u.client.recs[t], u.answered[t])
        ensures OnTheWire(u.toServer, t) || t in u.server.inflight
      {
        if t == s.nextTag {
          assert u.toServer[|s.toServer|].tag == t;
        } else if OnTheWire(s.toServer, t) {
          var k :| 0 <= k < |s.toServer| && s.toServer[k].tag == t;
          assert u.toServer[k].tag == t;
        }
      }
    }
  }

  lemma AcceptLocated(s: System)
    requires Located(s) && Enabled(s, Accept)
    ensures Located(Apply(s, Accept))
  {
    hide ProcessOf;
    var u := Apply(s, Accept);
    forall t | t in u.client.recs && t in u.answered && Unfinished(u.client.recs[t], u.answered[t])
      ensures OnTheWire(u.toServer, t) || t in u.server.inflight
    {
      if OnTheWire(s.toServer, t) {
        var k :| 0 <= k < |s.toServer| && s.toServer[k].tag == t;
        if k > 0 {
          assert u.toServer[k - 1].tag == t;
        }
      }
    }
  }

  /** A request the server is done with has been answered for good. */
  lemma TurnEnds(r: Rec, computed: seq<Outcome>, answered: seq<Outcome>, p: Process)
    requires ProcessOk(r, computed, answered, p, true) && CanRun(p) && !Silent(r.kind) && r.sid != SIGNAL
    requires Replied(r.kind, computed, answered, Unsent(map[0 := p], 0), true)
    requires Callable(r.kind, r.index) && Advance(true, p).process.stack == []
    ensures Advance(true, p).reply.Some? ==> !Unfinished(r, answered + [p.outcome])
    ensures Advance(true, p).reply.None? ==> !Unfinished(r, answered)
  {
    hide Reply, EncInt, IntAt;
    if r.kind == Poll {
      assert p.stack != [Loop, After] && p.stack != POLLING && p.stack != [After] + POLLING;
      assert p.stack == [After];
    }
  }

  lemma RunLocated(s: System, tag: nat)
    requires Safe(s) && Enabled(s, Run(tag))
    ensures Located(Apply(s, Run(tag)))
  {
    hide Inv, Reply, RecOk, ProcessOk, Replied, Advance;
    InflightFacts(s, tag);
    var r, p, u := s.client.recs[tag], s.server.inflight[tag], Ran(s, tag);
    assert Unsent(map[0 := p], 0) == Unsent(s.server.inflight, tag);
    TurnKeeps(r, s.computed[tag], s.answered[tag], p, s.server.running);
    if s.server.running && !Silent(r.kind) {
      if Advance(true, p).process.stack == [] {
        TurnEnds(r, s.computed[tag], s.answered[tag], p);
      }
    }
    forall t | u.server.running && t in u.client.recs && t in u.answered && Unfinished(u.client.recs[t], u.answered[t])
      ensures OnTheWire(u.toServer, t) || t in u.server.inflight
    {
      if t != tag {
        assert u.answered[t] == s.answered[t];
      }
    }
  }

  lemma DeliverLocated(s: System)
    requires Safe(s) && Enabled(s, Deliver)
    ensures Located(Apply(s, Deliver))
  {
    hide Genuine, Conserved, OwnersOk, RecOk, RequestsOk, InflightOk, RepliedAll;
    hide WordAt, Received, OutcomeOf, SameRequests;
    DeliverIs(s);
    HeadRouted(s);
    var p := s.toClient[0];
    RecSid(s, p.tag);
    ReceivedOk(s.client.recs[p.tag], WordAt(p.bytes, 0), OutcomeOf(p.bytes), s.answered[p.tag]);
    DeliverGenuine(s.client.recs, s.toClient, Received(s.client.recs[p.tag], WordAt(p.bytes, 0), p.bytes[4..]));
    SameRequestsLocated(s, Apply(s, Deliver));
  }

  lemma FinishLocated(s: System, tag: nat)
    requires Located(s) && Enabled(s, Finish(tag))
    ensures Located(Apply(s, Finish(tag)))
  {
    hide Located;
    SameRequestsLocated(s, Apply(s, Finish(tag)));
  }

  lemma BreakLocated(s: System)
    requires Located(s)
    ensures Located(s.(client := Broken(s.client)))
  {
    hide Located;
    SameRequestsLocated(s, s.(client := Broken(s.client)));
  }

  lemma StepLocated(s: System, step: Step)
    requires Safe(s) && Enabled(s, step)
    ensures Located(Apply(s, step))
  {
    hide Inv, Broken, Ran, Started, Finished, OnReply;
    match step
    case Start(kind, index, param, sid, sids) =>
      InvTags(s);
      if sid.Some? {
        StartLocated(s, NewRec(kind, sid.value, index, param), sids);
      }
    case Deliver => DeliverLocated(s);
    case Finish(tag) => FinishLocated(s, tag);
    case Break => BreakLocated(s);
    case Quit => SameRequestsLocated(s, Apply(s, step));
    case Accept => AcceptLocated(s);
    case Run(tag) => RunLocated(s, tag);
    case Complete(tag, o) => SameRequestsLocated(s, Apply(s, step));
    case Throw(tag) =>
    case Shut =>
  }

  lemma StepSafe(s: System, step: Step)
    requires Safe(s) && Enabled(s, step)
    ensures Safe(Apply(s, step))
  {
    hide Inv, Located, Enabled, Apply;
    StepKeeps(s, step);
    StepLocated(s, step);
  }

  lemma InvTags(s: System)
    requires Inv(s)
    ensures TagsOk(s)
  {
  }

  // ---------- every run ----------

  lemma {:induction false} RunSafe(states: seq<System>, steps: seq<Step>, n: nat)
    requires IsRun(states, steps) && n < |states|
    ensures Safe(states[n])
  {
    hide Enabled, Apply, Inv, Located;
    if n == 0 {
      StartSafe();
    } else {
      RunSafe(states, steps, n - 1);
      StepSafe(states[n - 1], steps[n - 1]);
    }
  }

  lemma StartSafe()
    ensures Safe(START)
  {
  }

  /** In every run, a reply that arrives while the client runs finds a callback
      registered under its id, and it is the callback of the very request the
      server answered. */
  lemma RepliesRouted(states: seq<System>, steps: seq<Step>, n: nat)
    requires IsRun(states, steps) && n < |states|
    requires states[n].client.running && states[n].toClient != []
    ensures var s := states[n]; var p := s.toClient[0];
            && |p.bytes| >= 4 && WordAt(p.bytes, 0) != SIGNAL
            && LowBits(WordAt(p.bytes, 0)) in s.client.waiting
            && s.client.waiting[LowBits(WordAt(p.bytes, 0))] == p.tag
            && p.tag in s.client.recs && s.client.recs[p.tag].phase == Waiting
            && OnReply(s.client, p.bytes).Some?
  {
    RunSafe(states, steps, n);
    HeadRouted(states[n]);
  }

  /** In every run, a call is resolved at most once: by the one outcome the
      server answered for it, or by the end of the connection. */
  lemma CallsResolveOnce(states: seq<System>, steps: seq<Step>, n: nat, tag: nat)
    requires IsRun(states, steps) && n < |states|
    requires tag in states[n].client.recs && states[n].client.recs[tag].kind == Call
    ensures var s := states[n]; var r := s.client.recs[tag];
            && tag in s.computed && |s.computed[tag]| <= 1 && r.seen <= s.computed[tag]
            && |r.seen| + (if r.broken then 1 else 0) == (if r.phase == Waiting then 0 else 1)
  {
    hide Located, GenuineReply, RequestsOk, InflightOk, OwnersOk;
    RunSafe(states, steps, n);
    var s := states[n];
    RecSid(s, tag);
    assert Replied(Call, s.computed[tag], s.answered[tag], Unsent(s.server.inflight, tag), s.server.running);
    assert s.answered[tag] == s.client.recs[tag].seen + OnTheWay(s.toClient, tag);
  }

  /** In every run, what a poll's caller has seen is a prefix, in order, of what
      the server answered for it: successes, then at most one error; and once
      the error is seen it has seen everything. */
  lemma PollsInOrder(states: seq<System>, steps: seq<Step>, n: nat, tag: nat)
    requires IsRun(states, steps) && n < |states|
    requires tag in states[n].client.recs && states[n].client.recs[tag].kind == Poll
    ensures var s := states[n]; var r := s.client.recs[tag];
            && tag in s.computed && OkThenErr(s.computed[tag]) && r.seen <= s.computed[tag]
            && (r.phase == Done && !r.broken <==> !AllOk(r.seen))
            && (!AllOk(r.seen) ==> r.seen == s.computed[tag])
  {
    RunSafe(states, steps, n);
    PollSeen(states[n], tag);
  }

  lemma PollSeen(s: System, tag: nat)
    requires Inv(s) && tag in s.client.recs && s.client.recs[tag].kind == Poll
    ensures var r := s.client.recs[tag];
            && tag in s.computed && OkThenErr(s.computed[tag]) && r.seen <= s.computed[tag]
            && (r.phase == Done && !r.broken <==> !AllOk(r.seen))
            && (!AllOk(r.seen) ==> r.seen == s.computed[tag])
  {
    hide GenuineReply, RequestsOk, InflightOk, OwnersOk, OnTheWay;
    RecSid(s, tag);
    var r := s.client.recs[tag];
    assert s.answered[tag] == r.seen + OnTheWay(s.toClient, tag);
    assert Replied(Poll, s.computed[tag], s.answered[tag], Unsent(s.server.inflight, tag), s.server.running);
    ErrorLast(r.seen, s.computed[tag]);
  }

  /** A prefix of successes and at most one error that has the error is all. */
  lemma ErrorLast(seen: seq<Outcome>, all: seq<Outcome>)
    requires seen <= all && OkThenErr(all)
    ensures !AllOk(seen) ==> seen == all
  {
    if !AllOk(seen) {
      var k :| 0 <= k < |seen| && seen[k].Err?;
      assert all[k] == seen[k];
    }
  }

  /** In every run, no two requests that still hold a session id hold the same
      one, each holds it in the used set, and an id is used only while some
      request holds it; also once the client has stopped. */
  lemma IdsExclusive(states: seq<System>, steps: seq<Step>, n: nat)
    requires IsRun(states, steps) && n < |states|
    ensures var c := states[n].client;
            && (forall t :: t in c.recs && Live(c.recs[t]) ==> c.recs[t].sid in c.sids.used)
            && (forall t, u :: t in c.recs && u in c.recs && Live(c.recs[t]) && Live(c.recs[u]) && t != u ==>
                  c.recs[t].sid != c.recs[u].sid)
            && (forall i :: i in c.sids.used ==> exists t :: t in c.recs && Live(c.recs[t]) && c.recs[t].sid == i)
  {
    RunSafe(states, steps, n);
    var c := states[n].client;
    assert OwnersOk(c);
    forall i | i in c.sids.used ensures exists t :: t in c.recs && Live(c.recs[t]) && c.recs[t].sid == i {
      assert Owned(c, i);
    }
  }

  /** In every run, an id is not given to another request while its holder still
      waits: a poll's id is not reissued before its error has been seen. */
  lemma IdsNotReissued(states: seq<System>, steps: seq<Step>, n: nat, tag: nat)
    requires IsRun(states, steps) && n < |steps|
    requires tag in states[n].client.recs && Live(states[n].client.recs[tag])
    requires steps[n].Start? && !Silent(steps[n].kind)
    ensures steps[n].sid != Some(states[n].client.recs[tag].sid)
  {
    IdsExclusive(states, steps, n);
    AllocatesKeeps(states[n].client.sids, steps[n].sid, steps[n].sids) by {
      RunSafe(states, steps, n);
    }
  }

  /** In every run, a callable is invoked on exactly the index and parameter the
      caller gave, in every round of a poll, and a signal is answered with
      nothing. */
  lemma ServedAsMade(states: seq<System>, steps: seq<Step>, n: nat, tag: nat)
    requires IsRun(states, steps) && n < |states|
    ensures var s := states[n];
            && (tag in s.server.inflight ==> tag in s.client.recs)
            && (tag in s.server.inflight && AtCall(s.server.inflight[tag]) ==>
                  AsMade(s.client.recs[tag], s.server.inflight[tag]))
            && (tag in s.client.recs && Silent(s.client.recs[tag].kind) ==>
                  Words(s.toClient) && tag in s.answered && s.answered[tag] == [] && OnTheWay(s.toClient, tag) == [])
  {
    hide Inv, Located, OnTheWay, Replied;
    RunSafe(states, steps, n);
    var s := states[n];
    if tag in s.server.inflight {
      InflightFacts(s, tag);
    }
    if tag in s.client.recs && Silent(s.client.recs[tag].kind) {
      SignalSilent(s, tag);
    }
  }

  lemma SignalSilent(s: System, tag: nat)
    requires Inv(s) && tag in s.client.recs && Silent(s.client.recs[tag].kind)
    ensures Words(s.toClient) && tag in s.answered && s.answered[tag] == [] && OnTheWay(s.toClient, tag) == []
  {
    hide GenuineReply, RequestsOk, InflightOk, RepliedAll, OwnersOk, OnTheWay;
    GenuineWords(s.client.recs, s.toClient);
    assert RecOk(s.client.recs[tag], s.answered[tag], s.client.running);
    assert s.answered[tag] == s.client.recs[tag].seen + OnTheWay(s.toClient, tag);
  }

  /** In every run, the replies sent for a request are the outcomes of its
      callable's invocations, one each and in order; while the server runs none
      is missing but the one about to be sent.  A poll request itself is thus
      answered with nothing. */
  lemma OneReplyEach(states: seq<System>, steps: seq<Step>, n: nat, tag: nat)
    requires IsRun(states, steps) && n < |states|
    requires tag in states[n].client.recs && !Silent(states[n].client.recs[tag].kind)
    ensures var s := states[n];
            && tag in s.computed && tag in s.answered && s.answered[tag] <= s.computed[tag]
            && (s.server.running ==> s.computed[tag] == s.answered[tag] + Unsent(s.server.inflight, tag))
  {
    hide Located, GenuineReply, RequestsOk, InflightOk, OwnersOk;
    RunSafe(states, steps, n);
    var s := states[n];
    assert Replied(s.client.recs[tag].kind, s.computed[tag], s.answered[tag], Unsent(s.server.inflight, tag),
                   s.server.running);
  }

  /** In every run, while the server runs, a call its caller waits for is in
      exactly one place: on the wire to the server, in the server, or answered
      with the answer on the wire back. */
  lemma WaitingCallLocated(states: seq<System>, steps: seq<Step>, n: nat, tag: nat)
    requires IsRun(states, steps) && n < |states| && states[n].server.running
    requires tag in states[n].client.recs
    requires states[n].client.recs[tag].kind == Call && states[n].client.recs[tag].phase == Waiting
    ensures Words(states[n].toClient)
    ensures var s := states[n];
            var wire, served := OnTheWire(s.toServer, tag), tag in s.server.inflight;
            var answered := OnTheWay(s.toClient, tag) != [];
            && (wire || served || answered)
            && !(wire && served) && !(wire && answered) && !(served && answered)
  {
    RunSafe(states, steps, n);
    hide OnTheWay;
    var s := states[n];
    RecSid(s, tag);
    assert s.answered[tag] == s.client.recs[tag].seen + OnTheWay(s.toClient, tag);
    if OnTheWire(s.toServer, tag) {
      var k :| 0 <= k < |s.toServer| && s.toServer[k].tag == tag;
    }
    if tag in s.server.inflight {
      InflightFacts(s, tag);
    }
  }

  // ---------- what stops the client ----------

  /** In every run the receive loop ends only with an exception or because the
      client was closed, not because of any reply; and in the second case no
      caller is told. */
  lemma ClientStops(states: seq<System>, steps: seq<Step>, n: nat)
    requires IsRun(states, steps) && n < |steps| && states[n].client.running
    ensures !states[n + 1].client.running <==> steps[n] == Break || steps[n] == Quit
    ensures steps[n] == Quit ==> states[n + 1].client == states[n].client.(running := false)
  {
    hide Inv, Located, OnReply, Ran, WireOf, Finished, ProcessOf;
    RunSafe(states, steps, n);
    var s, step := states[n], steps[n];
    assert Enabled(s, step) && states[n + 1] == Apply(s, step);
    if step == Deliver {
      DeliverIs(s);
    } else if step.Run? {
      RanClient(s, step.tag);
    } else if step.Finish? {
      FinishEffect(s.client, step.tag);
    }
  }

  lemma RanClient(s: System, tag: nat)
    requires Enabled(s, Run(tag))
    ensures Ran(s, tag).client == s.client
  {
  }

  // ---------- what stops the server ----------

  /** In every run, a step stops the server exactly if its serve loop ends, a
      callable throws, or it is the first turn of a request to close. */
  lemma ServerStops(states: seq<System>, steps: seq<Step>, n: nat)
    requires IsRun(states, steps) && n < |steps| && states[n].server.running
    ensures !states[n + 1].server.running <==>
              || steps[n] == Shut
              || steps[n].Throw?
              || (&& steps[n].Run? && steps[n].tag in states[n].client.recs && steps[n].tag in states[n].server.inflight
                  && states[n].client.recs[steps[n].tag].kind == Close
                  && states[n].server.inflight[steps[n].tag].stack == [Begin])
  {
    hide Inv, OnReply, Broken, Finished, Ran, WireOf, Located;
    RunSafe(states, steps, n);
    var s, step := states[n], steps[n];
    assert Enabled(s, step) && states[n + 1] == Apply(s, step);
    if step.Run? {
      TurnRunning(s, step.tag);
    } else {
      assert step.Deliver? ==> Apply(s, step).server == s.server;
      assert step.Start? ==> Apply(s, step).server == s.server;
      assert step.Complete? ==> Apply(s, step).server.running == s.server.running;
      assert step.Finish? || step.Quit? || step.Break? ==> Apply(s, step).server == s.server;
    }
  }

  /** The server has stopped, and request `tag` is gone without an answer. */
  predicate ClosedBy(u: System, tag: nat) {
    && !u.server.running && tag !in u.server.inflight
    && tag in u.answered && u.answered[tag] == [] && tag in u.computed && u.computed[tag] == []
  }

  ghost predicate CanClose(s: System, tag: nat) {
    exists u, n: nat :: Leads(s, u, n) && ClosedBy(u, tag)
  }

  lemma CanCloseStep(s: System, step: Step, tag: nat)
    requires Carries(step) && Enabled(s, step) && CanClose(Apply(s, step), tag)
    ensures CanClose(s, tag)
  {
    hide Enabled, Apply, ClosedBy;
    var u, n: nat :| Leads(Apply(s, step), u, n) && ClosedBy(u, tag);
    assert Leads(s, u, n + 1);
  }

  /** A request to close that the server has accepted is two turns from its end. */
  lemma CloseTurns(s: System, tag: nat)
    requires Safe(s) && tag in s.server.inflight && tag in s.client.recs && s.client.recs[tag].kind == Close
    requires s.server.running ==> s.server.inflight[tag].stack == [Begin]
    ensures CanClose(s, tag)
    decreases |s.server.inflight[tag].stack|, s.server.inflight[tag].stack == [Begin]
  {
    hide Inv, Located, CanClose, Reply, Replied, IntAt;
    InflightFacts(s, tag);
    var p := s.server.inflight[tag];
    StepSafe(s, Run(tag));
    var u := Apply(s, Run(tag));
    if p.stack == [Begin] {
      assert u.server.inflight[tag].stack == [After];
      CloseTurns(u, tag);
    } else {
      CloseEnds(s, tag);
      ClosedNow(u, tag);
    }
    CanCloseStep(s, Run(tag), tag);
  }

  lemma CloseEnds(s: System, tag: nat)
    requires Safe(s) && tag in s.server.inflight && tag in s.client.recs && s.client.recs[tag].kind == Close
    requires s.server.inflight[tag].stack == [After]
    requires !s.server.running
    ensures Enabled(s, Run(tag)) && ClosedBy(Apply(s, Run(tag)), tag)
  {
    hide Inv, Located, Reply, ProcessOk, Replied, IntAt;
    InflightFacts(s, tag);
    var p, r := s.server.inflight[tag], s.client.recs[tag];
    CloseSilent(r, s, tag);
  }

  lemma CloseSilent(r: Rec, s: System, tag: nat)
    requires tag in s.server.inflight && tag in s.computed && tag in s.answered && r.kind == Close
    requires ProcessOk(r, s.computed[tag], s.answered[tag], s.server.inflight[tag], s.server.running)
    requires Callable(r.kind, r.index)
    ensures s.computed[tag] == [] && s.answered[tag] == [] && s.server.inflight[tag].index == CLOSE_INDEX
    ensures s.server.inflight[tag].session == r.sid
  {
  }

  lemma ClosedNow(u: System, tag: nat)
    requires ClosedBy(u, tag)
    ensures CanClose(u, tag)
  {
    assert Leads(u, u, 0);
  }

  /** A request to close takes effect: from every state of every run in which
      the server still runs, once it is under way it can be carried along until
      the server has stopped; and it is never answered. */
  lemma CloseNotLost(states: seq<System>, steps: seq<Step>, n: nat, tag: nat)
    requires IsRun(states, steps) && n < |states| && states[n].server.running
    requires tag in states[n].client.recs && states[n].client.recs[tag].kind == Close
    requires OnTheWire(states[n].toServer, tag)
    ensures CanClose(states[n], tag)
  {
    hide Safe, CanClose;
    RunSafe(states, steps, n);
    var k :| 0 <= k < |states[n].toServer| && states[n].toServer[k].tag == tag;
    CloseTakesEffect(states[n], tag, k);
  }

  lemma {:induction false} CloseTakesEffect(s: System, tag: nat, k: nat)
    requires Safe(s) && s.server.running && tag in s.client.recs && s.client.recs[tag].kind == Close
    requires k < |s.toServer| && s.toServer[k].tag == tag
    ensures CanClose(s, tag)
    decreases k
  {
    hide Inv, Located, IntAt, CanClose;
    AcceptEnabled(s);
    StepSafe(s, Accept);
    var u := Apply(s, Accept);
    if k == 0 {
      CloseTurns(u, tag);
    } else {
      assert u.toServer[k - 1] == s.toServer[k];
      CloseTakesEffect(u, tag, k - 1);
    }
    CanCloseStep(s, Accept, tag);
  }

  // ---------- what never changes back ----------

  /** A request keeps its identity, and what its caller has seen and what the
      server computed and sent for it only grow. */
  ghost predicate Grows(s: System, u: System) {
    && (forall t :: t in s.client.recs ==>
          t in u.client.recs && SameRequest(s.client.recs[t], u.client.recs[t])
          && s.client.recs[t].seen <= u.client.recs[t].seen
          && (s.client.recs[t].broken ==> u.client.recs[t].broken))
    && (forall t :: t in s.answered ==> t in u.answered && s.answered[t] <= u.answered[t])
    && (forall t :: t in s.computed ==> t in u.computed && s.computed[t] <= u.computed[t])
  }

  lemma BrokenGrows(s: System)
    ensures Grows(s, s.(client := Broken(s.client)))
  {
  }

  lemma RunStepGrows(s: System, tag: nat)
    requires Enabled(s, Run(tag))
    ensures Grows(s, Apply(s, Run(tag)))
  {
    hide Advance;
  }

  lemma DeliverGrows(s: System)
    requires Safe(s) && Enabled(s, Deliver)
    ensures Grows(s, Apply(s, Deliver))
  {
    hide Inv, WordAt, Located;
    DeliverIs(s);
    HeadRouted(s);
    RecSid(s, s.toClient[0].tag);
  }

  lemma StartGrows(s: System, r: Rec, sids: Sids)
    requires TagsOk(s)
    ensures Grows(s, Started(s, r, sids))
  {
    hide WireOf;
  }

  lemma FinishGrows(s: System, tag: nat)
    requires Enabled(s, Finish(tag))
    ensures Grows(s, Apply(s, Finish(tag)))
  {
  }

  lemma StepGrows(s: System, step: Step)
    requires Safe(s) && Enabled(s, step)
    ensures Grows(s, Apply(s, step))
  {
    hide Inv, Located, Broken, Ran, Started, OnReply, ProcessOf, Finished;
    match step
    case Start(kind, index, param, sid, sids) =>
      InvTags(s);
      if sid.Some? {
        StartGrows(s, NewRec(kind, sid.value, index, param), sids);
      }
    case Deliver => DeliverGrows(s);
    case Break => BrokenGrows(s);
    case Run(tag) => RunStepGrows(s, tag);
    case Finish(tag) => FinishGrows(s, tag);
    case _ =>
  }

  lemma {:induction false} RunGrows(states: seq<System>, steps: seq<Step>, m: nat, n: nat)
    requires IsRun(states, steps) && m <= n < |states|
    ensures Grows(states[m], states[n])
    decreases n
  {
    hide Enabled, Apply, Safe, SameRequest;
    if m < n {
      RunGrows(states, steps, m, n - 1);
      RunSafe(states, steps, n - 1);
      StepGrows(states[n - 1], steps[n - 1]);
      assert forall t :: t in states[m].client.recs ==> t in states[n].client.recs;
      GrowsTransitive(states[m], states[n - 1], states[n]);
    } else {
      assert Grows(states[m], states[m]) by { GrowsReflexive(states[m]); }
    }
  }

  lemma GrowsReflexive(s: System)
    ensures Grows(s, s)
  {
  }

  lemma GrowsTransitive(s: System, u: System, v: System)
    requires Grows(s, u) && Grows(u, v)
    ensures Grows(s, v)
  {
  }

  /** In every run, an error outcome of a poll is final: its callable is never
      invoked again, and once the error is sent nothing is, not even for the
      poll request itself. */
  lemma ErrorIsFinal(states: seq<System>, steps: seq<Step>, m: nat, n: nat, tag: nat)
    requires IsRun(states, steps) && m <= n < |states|
    requires tag in states[m].client.recs && states[m].client.recs[tag].kind == Poll
    requires tag in states[m].computed && tag in states[m].answered && !AllOk(states[m].computed[tag])
    ensures tag in states[n].computed && states[n].computed[tag] == states[m].computed[tag]
    ensures tag in states[n].answered
    ensures !AllOk(states[m].answered[tag]) ==> states[n].answered[tag] == states[m].answered[tag]
  {
    RunGrows(states, steps, m, n);
    assert SameRequest(states[m].client.recs[tag], states[n].client.recs[tag]);
    PollsInOrder(states, steps, n, tag);
    OneReplyEach(states, steps, m, tag);
    OneReplyEach(states, steps, n, tag);
    var os, later := states[m].computed[tag], states[n].computed[tag];
    var k :| 0 <= k < |os| && os[k].Err?;
    assert later[k] == os[k];
    if !AllOk(states[m].answered[tag]) {
      var j :| 0 <= j < |states[m].answered[tag]| && states[m].answered[tag][j].Err?;
      assert os[j].Err? && later[j].Err?;
    }
  }

  /** The end of the receive loop leaves nobody waiting: each request not yet
      settled is given the connection's error, exactly then. */
  lemma BreakSettlesAll(states: seq<System>, steps: seq<Step>, n: nat, tag: nat)
    requires IsRun(states, steps) && n < |steps| && steps[n] == Break && tag in states[n].client.recs
    ensures var r, q := states[n].client.recs[tag], states[n + 1].client.recs[tag];
            && q.phase != Waiting && q.seen == r.seen && (q.broken <==> r.phase == Waiting)
  {
    hide Inv, Located, Broken;
    RunSafe(states, steps, n);
    BrokenSettles(states[n], tag);
  }

  lemma BrokenSettles(s: System, tag: nat)
    requires Inv(s) && s.client.running && tag in s.client.recs
    ensures var r, q := s.client.recs[tag], Broken(s.client).recs[tag];
            && q.phase != Waiting && q.seen == r.seen && (q.broken <==> r.phase == Waiting)
  {
    hide ProcessOk, Genuine, Conserved, RequestsOk, InflightOk, RepliedAll;
    assert RecOk(s.client.recs[tag], s.answered[tag], s.client.running) && OwnersOk(s.client);
  }

  // ---------- progress ----------

  /** The steps that carry requests and replies along.  None of them ends the
      connection or stops a side. */
  predicate Carries(step: Step) { step.Deliver? || step.Accept? || step.Run? || step.Complete? }

  ghost predicate Leads(s: System, u: System, n: nat)
    decreases n
  {
    if n == 0 then u == s else exists step :: Carries(step) && Enabled(s, step) && Leads(Apply(s, step), u, n - 1)
  }

  predicate BothRun(s: System) { s.client.running && s.server.running }

  /** A request whose caller has not stopped listening. */
  predicate Listening(s: System, tag: nat) {
    && tag in s.client.recs && tag in s.computed && tag in s.answered
    && !Silent(s.client.recs[tag].kind) && (s.client.recs[tag].kind == Call ==> s.client.recs[tag].phase != Done)
  }

  /** Its caller has seen exactly `os`, from the server. */
  predicate Shown(u: System, tag: nat, os: seq<Outcome>) {
    && tag in u.client.recs && u.client.recs[tag].seen == os && !u.client.recs[tag].broken
    && (u.client.recs[tag].kind == Call && os != [] ==> u.client.recs[tag].phase == Settled)
  }

  /** Requests and replies can be carried along until the caller has seen
      exactly `os`. */
  ghost predicate CanSee(s: System, tag: nat, os: seq<Outcome>) {
    exists u, n: nat :: Leads(s, u, n) && Shown(u, tag, os)
  }

  lemma CanSeeStep(s: System, step: Step, tag: nat, os: seq<Outcome>)
    requires Carries(step) && Enabled(s, step) && CanSee(Apply(s, step), tag, os)
    ensures CanSee(s, tag, os)
  {
    hide Enabled, Apply, Shown;
    var u, n: nat :| Leads(Apply(s, step), u, n) && Shown(u, tag, os);
    assert Leads(s, u, n + 1);
  }

  lemma AcceptEnabled(s: System)
    requires Inv(s) && s.server.running && s.toServer != []
    ensures Enabled(s, Accept)
  {
    var r := s.client.recs[s.toServer[0].tag];
    assert RecOk(r, s.answered[s.toServer[0].tag], s.client.running);
    WireReads(r);
  }

  lemma DeliverListens(s: System, tag: nat)
    requires Safe(s) && BothRun(s) && Listening(s, tag) && s.toClient != []
    ensures Enabled(s, Deliver)
    ensures var u := Apply(s, Deliver);
            && Safe(u) && BothRun(u) && Listening(u, tag) && u.toClient == s.toClient[1..] && u.answered == s.answered
  {
    hide RecOk, Genuine, Conserved, OwnersOk, RequestsOk, InflightOk, RepliedAll;
    hide WordAt, OutcomeOf, Located, SameRequest, SameRequests;
    HeadRouted(s);
    assert Enabled(s, Deliver) by { HeadWords(s); }
    StepSafe(s, Deliver);
    DeliverIs(s);
  }

  lemma HeadWords(s: System)
    requires Inv(s) && s.toClient != []
    ensures |s.toClient[0].bytes| >= 4
  {
  }

  lemma AllDelivered(s: System, tag: nat)
    requires Inv(s) && s.client.running && Listening(s, tag) && s.toClient == []
    ensures Shown(s, tag, s.answered[tag])
  {
    assert RecOk(s.client.recs[tag], s.answered[tag], true);
    assert s.answered[tag] == s.client.recs[tag].seen + OnTheWay(s.toClient, tag);
  }

  /** Everything sent can be delivered. */
  lemma {:induction false} SeesAnswers(s: System, tag: nat)
    requires Safe(s) && BothRun(s) && Listening(s, tag)
    ensures CanSee(s, tag, s.answered[tag])
    decreases |s.toClient|
  {
    hide Inv, Located, Apply, Enabled, Shown;
    if s.toClient == [] {
      AllDelivered(s, tag);
      assert Leads(s, s, 0);
    } else {
      DeliverListens(s, tag);
      SeesAnswers(Apply(s, Deliver), tag);
      CanSeeStep(s, Deliver, tag, s.answered[tag]);
    }
  }

  /** An outcome about to be sent can be delivered with all before it. */
  lemma SeesUnsent(s: System, tag: nat)
    requires Safe(s) && BothRun(s) && Listening(s, tag) && Unsent(s.server.inflight, tag) != []
    ensures CanSee(s, tag, s.computed[tag])
  {
    hide Inv, Located, Reply, CanSee, ProcessOk;
    InflightFacts(s, tag);
    SessionIs(s, tag);
    StepSafe(s, Run(tag));
    SeesAnswers(Apply(s, Run(tag)), tag);
    CanSeeStep(s, Run(tag), tag, s.computed[tag]);
  }

  lemma SessionIs(s: System, tag: nat)
    requires Inv(s) && tag in s.server.inflight && tag in s.client.recs
    ensures s.server.inflight[tag].session == s.client.recs[tag].sid
  {
    InflightFacts(s, tag);
  }

  /** Everything computed can be delivered. */
  lemma SeesComputed(s: System, tag: nat)
    requires Safe(s) && BothRun(s) && Listening(s, tag)
    ensures CanSee(s, tag, s.computed[tag])
  {
    hide CanSee;
    if Unsent(s.server.inflight, tag) != [] {
      SeesUnsent(s, tag);
    } else {
      assert Replied(s.client.recs[tag].kind, s.computed[tag], s.answered[tag], [], true);
      assert s.computed[tag] == s.answered[tag];
      SeesAnswers(s, tag);
    }
  }

  /** How many turns a request is at most from its next invocation. */
  function ToCall(p: Process): nat {
    if p.stack == [] then 0 else
      match p.stack[0]
      case Begin => if |p.stack| == 1 then 7 else 2
      case Entry => 6
      case After => 5
      case Check => 4
      case Loop => 3
      case Calling => 1
  }

  lemma NearerToCall(r: Rec, computed: seq<Outcome>, answered: seq<Outcome>, p: Process)
    requires ProcessOk(r, computed, answered, p, true) && Unfinished(r, computed) && !AtCall(p) && r.sid < TWO32
    requires Callable(r.kind, r.index)
    ensures CanRun(p) && Advance(true, p).process.stack != [] && ToCall(Advance(true, p).process) < ToCall(p)
  {
    hide Reply, EncInt;
    if r.kind == Poll {
      assert |p.stack| >= 2 || p.stack == [Begin];
      if p.stack == POLLING {
        assert Advance(true, p).process.stack == [Loop, After];
      } else if p.stack == [Loop, After] {
        assert Advance(true, p).process.stack == [Begin] + POLLING;
      }
    }
  }

  /** The next outcome of a request in the server can be delivered. */
  lemma {:induction false} SeesNext(s: System, tag: nat, o: Outcome)
    requires Safe(s) && BothRun(s) && Listening(s, tag) && tag in s.server.inflight
    requires Unfinished(s.client.recs[tag], s.computed[tag])
    ensures CanSee(s, tag, s.computed[tag] + [o])
    decreases ToCall(s.server.inflight[tag])
  {
    hide Inv, Located, Reply, CanSee, ProcessOk, Replied, Unfinished, Advance, ToCall;
    InflightFacts(s, tag);
    var p := s.server.inflight[tag];
    if AtCall(p) {
      var u := Apply(s, Complete(tag, o));
      StepSafe(s, Complete(tag, o));
      SeesComputed(u, tag);
      CanSeeStep(s, Complete(tag, o), tag, u.computed[tag]);
    } else {
      SessionIs(s, tag);
      NearerToCall(s.client.recs[tag], s.computed[tag], s.answered[tag], p);
      StepSafe(s, Run(tag));
      TurnRunning(s, tag);
      SeesNext(Apply(s, Run(tag)), tag, o);
      CanSeeStep(s, Run(tag), tag, s.computed[tag] + [o]);
    }
  }

  lemma TurnRunning(s: System, tag: nat)
    requires Inv(s) && Enabled(s, Run(tag))
    ensures tag in s.client.recs
    ensures Apply(s, Run(tag)).server.running
        <==> s.server.running && !Closing(s.client.recs[tag], s.server.inflight[tag])
  {
    hide Inv, ProcessOk, Replied, Advance, Reply;
    InflightFacts(s, tag);
    var p := s.server.inflight[tag];
    assert Unsent(map[0 := p], 0) == Unsent(s.server.inflight, tag);
    TurnKeeps(s.client.recs[tag], s.computed[tag], s.answered[tag], p, s.server.running);
  }

  /** The next outcome of a request on its way to the server can be delivered. */
  lemma {:induction false} SeesFromWire(s: System, tag: nat, k: nat, o: Outcome)
    requires Safe(s) && BothRun(s) && Listening(s, tag) && Unfinished(s.client.recs[tag], s.computed[tag])
    requires k < |s.toServer| && s.toServer[k].tag == tag
    ensures CanSee(s, tag, s.computed[tag] + [o])
    decreases k
  {
    hide Inv, Located, ProcessOf, CanSee, Unfinished;
    AcceptEnabled(s);
    StepSafe(s, Accept);
    var u := Apply(s, Accept);
    if k == 0 {
      SeesNext(u, tag, o);
    } else {
      assert u.toServer[k - 1] == s.toServer[k];
      SeesFromWire(u, tag, k - 1, o);
    }
    CanSeeStep(s, Accept, tag, s.computed[tag] + [o]);
  }

  lemma SeesOwed(s: System, tag: nat, o: Outcome)
    requires Safe(s) && BothRun(s) && Listening(s, tag) && Unfinished(s.client.recs[tag], s.computed[tag])
    ensures CanSee(s, tag, s.computed[tag] + [o])
  {
    hide CanSee, ProcessOk;
    assert Replied(s.client.recs[tag].kind, s.computed[tag], s.answered[tag], Unsent(s.server.inflight, tag), true);
    assert Unfinished(s.client.recs[tag], s.answered[tag]);
    if tag in s.server.inflight {
      SeesNext(s, tag, o);
    } else {
      var k :| 0 <= k < |s.toServer| && s.toServer[k].tag == tag;
      SeesFromWire(s, tag, k, o);
    }
  }

  predicate WaitingFor(s: System, tag: nat, kind: Kind) {
    tag in s.client.recs && s.client.recs[tag].kind == kind && s.client.recs[tag].phase == Waiting
  }

  /** No call is lost: from every state of every run in which both sides run,
      requests and replies can be carried along until a waiting call is resolved
      by the server: with the outcome already computed for it, or with whatever
      outcome its callable produces. */
  lemma NoCallLost(states: seq<System>, steps: seq<Step>, n: nat, tag: nat, o: Outcome)
    requires IsRun(states, steps) && n < |states|
    requires BothRun(states[n]) && WaitingFor(states[n], tag, Call)
    ensures tag in states[n].computed
    ensures CanSee(states[n], tag, if states[n].computed[tag] == [] then [o] else states[n].computed[tag])
  {
    hide CanSee, Inv;
    RunSafe(states, steps, n);
    var s := states[n];
    RecSid(s, tag);
    if s.computed[tag] == [] {
      SeesOwed(s, tag, o);
      assert s.computed[tag] + [o] == [o];
    } else {
      SeesComputed(s, tag);
    }
  }

  /** No outcome of a poll is lost: from every state of every run in which both
      sides run, a waiting poll's caller can still be shown everything computed
      for it, and if none of that is an error, whatever its callable produces
      next as well. */
  lemma NoOutcomeLost(states: seq<System>, steps: seq<Step>, n: nat, tag: nat, o: Outcome)
    requires IsRun(states, steps) && n < |states|
    requires BothRun(states[n]) && WaitingFor(states[n], tag, Poll)
    ensures tag in states[n].computed && CanSee(states[n], tag, states[n].computed[tag])
    ensures AllOk(states[n].computed[tag]) ==> CanSee(states[n], tag, states[n].computed[tag] + [o])
  {
    hide CanSee, Inv;
    RunSafe(states, steps, n);
    var s := states[n];
    RecSid(s, tag);
    SeesComputed(s, tag);
    if AllOk(s.computed[tag]) {
      SeesOwed(s, tag, o);
    }
  }
}

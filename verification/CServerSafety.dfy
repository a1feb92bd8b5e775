/** Lifetime, buffer and finisher safety of the C server for every run. */
module CServerSafety {
  import opened Prelude
  import opened Wire
  import opened CServer

  // ---------- changes to one request ----------

  /** Finishers depend only on which live request has which. */
  lemma SameHooks(s: Ctx, u: Ctx)
    requires HooksOk(s) && u.live.Keys == s.live.Keys && u.ran == s.ran && u.hooked == s.hooked
    requires forall k :: k in u.live ==> u.live[k].onFinish == s.live[k].onFinish
    ensures HooksOk(u)
  {
    forall h | 0 <= h < u.hooked ensures Accounted(h, u.ran, u.live) {
      assert Accounted(h, s.ran, s.live);
      if h !in s.ran {
        var k :| k in s.live && s.live[k].onFinish == Some(h);
        assert u.live[k].onFinish == Some(h);
      }
    }
  }

  /** Only the io, the receive or the error of a send differ, or the context has
      been closed. */
  predicate SameBooks(s: Ctx, u: Ctx) {
    && u.live == s.live && u.taken == s.taken && u.freed == s.freed && u.received == s.received
    && u.ran == s.ran && u.hooked == s.hooked
    && u.refCount == s.refCount && u.owned == s.owned && u.released == s.released && (s.closed ==> u.closed)
  }

  lemma SameBooksKeep(s: Ctx, u: Ctx)
    requires Core(s) && SameBooks(s, u)
    ensures Core(u)
  {
    hide HooksOk, BuffersOk;
    SameHooks(s, u);
    BuffersSame(s, u);
  }

  lemma CloseKeeps(s: Ctx)
    requires Core(s)
    ensures Core(ServerClose(s))
  {
    hide Core;
    SameBooksKeep(s, ServerClose(s));
  }

  lemma UseIoKeeps(s: Ctx)
    requires Core(s)
    ensures Core(UseIo(s))
  {
    hide Core;
    SameBooksKeep(s, UseIo(s));
  }

  lemma SendErrorKeeps(s: Ctx, e: bool)
    requires Core(s)
    ensures Core(s.(sendError := e)) && Core(CloseOnError(s.(sendError := e)))
  {
    hide Core, UseIo, ServerClose;
    var a := s.(sendError := e);
    SameBooksKeep(s, a);
    UseIoKeeps(a);
    CloseKeeps(UseIo(a));
  }

  /** A request whose callable has just returned: its finisher is the new one
      and its buffer may have been kept. */
  lemma ReturnedKeeps(s: Ctx, id: nat, r: Req, hooks: bool, takes: bool)
    requires Core(s) && id in s.live && s.live[id].onFinish == None
    requires r.onFinish == (if hooks then Some(s.hooked) else None)
    requires ReqOk(id, r, if takes then s.taken[id := IsPoll(r)] else s.taken, s.closed)
    ensures Core(Put(s.(hooked := if hooks then s.hooked + 1 else s.hooked,
                       taken := if takes then s.taken[id := IsPoll(r)] else s.taken), id, r))
  {
    hide ReqOk, HooksOk, ReqsOk, BuffersOk;
    var u := Put(s.(hooked := if hooks then s.hooked + 1 else s.hooked,
                    taken := if takes then s.taken[id := IsPoll(r)] else s.taken), id, r);
    Facts(s);
    assert u.live.Keys == s.live.Keys;
    ReturnedHooks(s, u, id, hooks);
    ReturnedReqs(s, u, id);
    ReturnedBuffers(s, u, id);
  }

  lemma ReturnedReqs(s: Ctx, u: Ctx, id: nat)
    requires ReqsOk(s) && id in s.live && id in u.live && u.live == s.live[id := u.live[id]]
    requires u.taken == s.taken || u.taken == s.taken[id := IsPoll(u.live[id])]
    requires u.closed == s.closed && u.received == s.received && ReqOk(id, u.live[id], u.taken, u.closed)
    ensures ReqsOk(u)
  {
    forall k | k in u.live ensures k < u.received && ReqOk(k, u.live[k], u.taken, u.closed) {
      assert k != id ==> ReqOk(k, s.live[k], s.taken, s.closed);
    }
  }

  lemma ReturnedBuffers(s: Ctx, u: Ctx, id: nat)
    requires BuffersOk(s) && id in s.live && id < s.received && u.live.Keys == s.live.Keys
    requires u.taken == s.taken || (id in u.taken && u.taken == s.taken[id := u.taken[id]])
    requires u.freed == s.freed && u.received == s.received
    ensures BuffersOk(u)
  {
    assert EndedKept(u) == EndedKept(s);
  }

  lemma ReturnedHooks(s: Ctx, u: Ctx, id: nat, hooks: bool)
    requires HooksOk(s) && id in s.live && s.live[id].onFinish == None && id in u.live
    requires u.ran == s.ran && u.hooked == (if hooks then s.hooked + 1 else s.hooked)
    requires u.live == s.live[id := u.live[id]] && u.live[id].onFinish == (if hooks then Some(s.hooked) else None)
    ensures HooksOk(u)
  {
    forall h | 0 <= h < u.hooked ensures Accounted(h, u.ran, u.live) {
      assert h < s.hooked ==> Accounted(h, s.ran, s.live);
      if h == s.hooked {
        assert u.live[id].onFinish == Some(h);
      } else if h !in s.ran {
        var k :| k in s.live && s.live[k].onFinish == Some(h);
        assert u.live[k].onFinish == Some(h);
      }
    }
  }

  lemma RanAccounted(h: nat, ran: seq<nat>, all: seq<nat>, live: map<nat, Req>, after: map<nat, Req>, id: nat)
    requires Accounted(h, ran, live) && id in live
    requires ran <= all && (live[id].onFinish.Some? ==> live[id].onFinish.value in all)
    requires forall k :: k in live && k != id ==> k in after && after[k].onFinish == live[k].onFinish
    ensures Accounted(h, all, after)
  {
    if h !in ran {
      var k :| k in live && live[k].onFinish == Some(h);
      assert k != id ==> after[k].onFinish == Some(h);
    }
  }

  function RanAfter(ran: seq<nat>, hook: Option<nat>): seq<nat> {
    if hook.Some? then ran + [hook.value] else ran
  }

  lemma RanStays(ran: seq<nat>, hook: Option<nat>, hooked: nat)
    requires RanOk(ran, hooked) && (hook.Some? ==> hook.value !in ran && hook.value < hooked)
    ensures RanOk(RanAfter(ran, hook), hooked)
  {
  }

  lemma OwnStays(live: map<nat, Req>, after: map<nat, Req>, ran: seq<nat>, hooked: nat, id: nat)
    requires OwnHooks(live, ran, hooked) && id in live && after.Keys <= live.Keys
    requires forall k :: k in after && k != id ==> after[k].onFinish == live[k].onFinish
    requires id in after ==> after[id].onFinish == None
    ensures OwnHooks(after, RanAfter(ran, live[id].onFinish), hooked)
  {
  }

  /** A request whose finisher has just been run. */
  lemma RanHooks(s: Ctx, u: Ctx, id: nat)
    requires HooksOk(s) && id in s.live
    requires u.hooked == s.hooked && u.ran == RunFinish(s, s.live[id]).ran
    requires u.live.Keys <= s.live.Keys && s.live.Keys <= u.live.Keys + {id}
    requires forall k :: k in u.live && k != id ==> u.live[k] == s.live[k]
    requires id in u.live ==> u.live[id].onFinish == None
    ensures HooksOk(u)
  {
    assert u.ran == RanAfter(s.ran, s.live[id].onFinish);
    RanStays(s.ran, s.live[id].onFinish, s.hooked);
    OwnStays(s.live, u.live, s.ran, s.hooked, id);
    hide RunFinish, RanOk, OwnHooks;
    forall h | 0 <= h < u.hooked ensures Accounted(h, u.ran, u.live) {
      RanAccounted(h, s.ran, u.ran, s.live, u.live, id);
    }
  }

  lemma InvokeKeeps(s: Ctx, id: nat, r: Req)
    requires Core(s) && id in s.live && r == s.live[id]
    requires r.waits == Sending && r.next == Poll3 && !r.rejected
    ensures Core(Invoke(RunFinish(s, r), id, r, Poll2))
  {
    hide HooksOk, BuffersOk, ReqsOk, ReqOk, Counted;
    var u := Invoke(RunFinish(s, r), id, r, Poll2);
    Facts(s);
    InvokedIs(s, id, r);
    InvokedOk(id, r, s.taken, s.closed);
    CountSame(s, u);
    RanHooks(s, u, id);
    ReqsPut(s, u, id);
    BuffersSame(s, u);
  }

  /** What a further round of a poll changes, and what it does not. */
  lemma InvokedIs(s: Ctx, id: nat, r: Req)
    requires id in s.live && r == s.live[id]
    ensures var u := Invoke(RunFinish(s, r), id, r, Poll2);
            && u.live == s.live[id := r.(rejected := false, onFinish := None, next := Poll2, waits := Callable)]
            && u.live.Keys == s.live.Keys && u.ran == RunFinish(s, r).ran
            && u.(live := s.live, ran := s.ran) == s
  {
  }

  lemma CountSame(s: Ctx, u: Ctx)
    requires Counted(s) && u.live.Keys == s.live.Keys && u.owned == s.owned && (s.closed ==> u.closed)
    requires u.refCount == s.refCount && u.released == s.released
    ensures Counted(u)
  {
    assert |u.live| == |u.live.Keys| && |s.live| == |s.live.Keys|;
  }

  lemma InvokedOk(id: nat, r: Req, taken: map<nat, bool>, closed: bool)
    requires ReqOk(id, r, taken, closed) && r.waits == Sending && r.next == Poll3 && !r.rejected
    ensures ReqOk(id, r.(rejected := false, onFinish := None, next := Poll2, waits := Callable), taken, closed)
  {
  }

  lemma ReqsPut(s: Ctx, u: Ctx, id: nat)
    requires ReqsOk(s) && id in u.live && id < u.received
    requires u.live == s.live[id := u.live[id]] && u.taken == s.taken && u.closed == s.closed
    requires s.received <= u.received
    requires ReqOk(id, u.live[id], u.taken, u.closed)
    ensures ReqsOk(u)
  {
    forall k | k in u.live ensures k < u.received && ReqOk(k, u.live[k], u.taken, u.closed) {
      assert k != id ==> ReqOk(k, s.live[k], s.taken, s.closed);
    }
  }

  lemma BuffersSame(s: Ctx, u: Ctx)
    requires BuffersOk(s) && u.live.Keys == s.live.Keys
    requires u.freed == s.freed && u.taken == s.taken && u.received == s.received
    ensures BuffersOk(u)
  {
  }

  // ---------- the end of a request ----------

  /** A request about to end holds the address it received, or null, moved by
      what a poll puts back. */
  predicate Finishable(id: nat, r: Req, taken: map<nat, bool>) {
    r.base == if id !in taken then Ptr(id, 8) else if taken[id] then Stray(-4) else NULL
  }

  lemma FreedKeeps(s: Ctx, id: nat, r: Req)
    requires Core(s) && id in s.live && Finishable(id, r, s.taken)
    ensures BuffersOk(s.(live := s.live - {id}, freed := s.freed + BufferOf(r)))
  {
    hide ReqOk, HooksOk, Counted, Finishable;
    FreedFrees(s, s.(live := s.live - {id}, freed := s.freed + BufferOf(r)), id, r);
  }

  lemma FreedFrees(s: Ctx, u: Ctx, id: nat, r: Req)
    requires BuffersOk(s) && id in s.live && id < s.received && Finishable(id, r, s.taken)
    requires u.live.Keys == s.live.Keys - {id} && u.freed == s.freed + BufferOf(r)
    requires u.taken == s.taken && u.received == s.received
    ensures BuffersOk(u)
  {
    hide Strays, EndedKept;
    forall k | 0 <= k < u.received ensures k in u.live || k in u.taken || Ptr(k, 0) in u.freed {
      if Ptr(k, 0) in s.freed {
        var j :| 0 <= j < |s.freed| && s.freed[j] == Ptr(k, 0);
        assert u.freed[j] == Ptr(k, 0);
      } else if k == id && id !in s.taken {
        assert u.freed[|s.freed|] == Ptr(k, 0);
      }
    }
    assert Strays(u.freed) == |EndedKept(u)| by {
      StraysAdd(s.freed, BufferOf(r));
      KeptAfter(s, u, id);
    }
  }

  lemma KeptAfter(s: Ctx, u: Ctx, id: nat)
    requires id in s.live && u.live.Keys == s.live.Keys - {id} && u.taken == s.taken
    ensures |EndedKept(u)| == |EndedKept(s)| + if id in s.taken && s.taken[id] then 1 else 0
  {
    assert EndedKept(u) == EndedKept(s) + if id in s.taken && s.taken[id] then {id} else {};
  }

  lemma StraysAdd(ps: seq<Ptr>, qs: seq<Ptr>)
    requires |qs| <= 1
    ensures Strays(ps + qs) == Strays(ps) + if qs != [] && qs[0].Stray? then 1 else 0
  {
    if qs == [] {
      assert ps + qs == ps;
    } else {
      assert (ps + qs)[..|ps|] == ps;
    }
  }

  lemma ReqsRemove(s: Ctx, u: Ctx, id: nat)
    requires ReqsOk(s) && u.live == s.live - {id}
    requires u.taken == s.taken && u.closed == s.closed && u.received == s.received
    ensures ReqsOk(u)
  {
    hide ReqOk;
  }

  lemma CountRemove(s: Ctx, u: Ctx, id: nat)
    requires Counted(s) && id in s.live && u.live == s.live - {id}
    requires u.owned == s.owned && u.closed == s.closed && u.refCount == s.refCount - 1
    requires u.released == if u.refCount == 0 then s.released + 1 else s.released
    ensures Counted(u)
  {
    assert u.live.Keys == s.live.Keys - {id};
    assert |u.live| == |u.live.Keys| && |s.live| == |s.live.Keys|;
  }

  /** The context after a request that held, or did not hold, the buffer it
      received has ended. */
  function Ended(a: Ctx, id: nat, r: Req): Ctx {
    var b := RunFinish(a, r);
    RefAdd(b.(freed := b.freed + BufferOf(r), live := b.live - {id}), -1)
  }

  /** What the end of a request changes, and what it does not. */
  lemma EndedIs(a: Ctx, id: nat, r: Req)
    requires id in a.live && r.onFinish == a.live[id].onFinish
    ensures var u := Ended(a, id, r);
            && u.live == a.live - {id} && u.live.Keys == a.live.Keys - {id}
            && u.ran == RunFinish(a, a.live[id]).ran && u.hooked == a.hooked
            && u.freed == a.freed + BufferOf(r)
            && u.taken == a.taken && u.received == a.received && u.closed == a.closed && u.owned == a.owned
            && u.refCount == a.refCount - 1 && u.released == if u.refCount == 0 then a.released + 1 else a.released
  {
  }

  lemma EndedKeeps(a: Ctx, id: nat, r: Req)
    requires Core(a) && id in a.live && r.onFinish == a.live[id].onFinish && Finishable(id, r, a.taken)
    ensures Core(Ended(a, id, r))
  {
    hide ReqOk, HooksOk, BuffersOk, ReqsOk, Counted, Ended, RunFinish, Finishable;
    var u := Ended(a, id, r);
    EndedIs(a, id, r);
    FreedKeeps(a, id, r);
    var b := a.(live := a.live - {id}, freed := a.freed + BufferOf(r));
    BuffersSame(b, u);
    RanHooks(a, u, id);
    ReqsRemove(a, u, id);
    CountRemove(a, u, id);
  }

  lemma FinishKeeps(s: Ctx, id: nat, r: Req)
    requires Core(s) && id in s.live && r.onFinish == s.live[id].onFinish && Finishable(id, r, s.taken)
    ensures Core(FinishRequest(Put(s, id, r), id))
  {
    hide Core, FinishRequest, Ended;
    SendErrorKeeps(s, s.sendError);
    assert s.(sendError := s.sendError) == s;
    EndedKeeps(CloseOnError(s), id, r);
    FinishIs(s, id, r);
  }

  lemma UseIoPut(s: Ctx, id: nat, r: Req)
    ensures UseIo(Put(s, id, r)) == Put(UseIo(s), id, r)
    ensures UseIo(s).live == s.live && Put(s, id, r).sendError == s.sendError
  {
  }

  lemma ClosePut(s: Ctx, id: nat, r: Req)
    ensures ServerClose(Put(s, id, r)) == Put(ServerClose(s), id, r)
    ensures ServerClose(s).live == s.live
  {
  }

  lemma CloseOnErrorPut(s: Ctx, id: nat, r: Req)
    ensures CloseOnError(Put(s, id, r)) == Put(CloseOnError(s), id, r)
    ensures CloseOnError(s).live == s.live
  {
    hide UseIo, ServerClose, Put;
    UseIoPut(s, id, r);
    ClosePut(UseIo(s), id, r);
  }

  lemma RunFinishPut(s: Ctx, id: nat, r: Req)
    ensures RunFinish(Put(s, id, r), r) == Put(RunFinish(s, r), id, r)
    ensures RunFinish(s, r).live == s.live && RunFinish(s, r).freed == s.freed
  {
  }

  lemma PutRemove(s: Ctx, id: nat, r: Req)
    ensures Put(s, id, r).live - {id} == s.live - {id} && id in Put(s, id, r).live && Put(s, id, r).live[id] == r
    ensures Put(s, id, r).freed == s.freed
  {
  }

  lemma FinishIs(s: Ctx, id: nat, r: Req)
    requires id in s.live
    ensures FinishRequest(Put(s, id, r), id) == Ended(CloseOnError(s), id, r)
  {
    hide RefAdd, Put, RunFinish, CloseOnError;
    var c := CloseOnError(s);
    CloseOnErrorPut(s, id, r);
    RunFinishPut(c, id, r);
    PutRemove(s, id, r);
    PutGone(RunFinish(c, r), id, r, c.freed + BufferOf(r));
  }

  lemma PutGone(s: Ctx, id: nat, r: Req, freed: seq<Ptr>)
    ensures var u := Put(s, id, r);
            u.(freed := freed, live := u.live - {id}) == s.(freed := freed, live := s.live - {id})
    ensures Put(s, id, r).freed == s.freed
  {
    assert Put(s, id, r).live - {id} == s.live - {id};
  }

  /** A poll put back is as it was received: its finisher finds the index and the
      parameter of the packet, or null moved back by a kept one. */
  lemma PutBackAsReceived(id: nat, r: Req, taken: map<nat, bool>, closed: bool)
    requires ReqOk(id, r, taken, closed) && IsPoll(r)
    ensures var q := PutBack(r);
            && q.index == -5 && q.length == r.size && q.onFinish == r.onFinish
            && q.base == if id in taken then Stray(-4) else Ptr(id, 8)
  {
  }

  lemma FinishSelfKeeps(s: Ctx, id: nat)
    requires Core(s) && id in s.live && Finishable(id, s.live[id], s.taken)
    ensures Core(FinishRequest(s, id))
  {
    assert Put(s, id, s.live[id]) == s;
    FinishKeeps(s, id, s.live[id]);
  }

  // ---------- the steps ----------

  lemma NewKeeps(s: Ctx, r: Req)
    requires Core(s) && s.refCount > 0 && r.onFinish == None
    requires ReqOk(s.received, r, s.taken, s.closed)
    ensures Core(Began(s, r))
  {
    hide ReqOk, HooksOk, ReqsOk, BuffersOk, Began, Counted;
    var u := Began(s, r);
    Facts(s);
    BeganIs(s, r);
    NewHooks(s, u, s.received);
    ReqsPut(s, u, s.received);
    NewBuffers(s, u);
    assert Counted(u) by { CountAdd(s, u, s.received); }
  }

  /** What a new request changes, and what it does not. */
  lemma BeganIs(s: Ctx, r: Req)
    requires s.refCount > 0
    ensures var u := Began(s, r);
            && u.live == s.live[s.received := r] && u.live.Keys == s.live.Keys + {s.received}
            && u.ran == s.ran && u.hooked == s.hooked && u.freed == s.freed && u.taken == s.taken
            && u.closed == s.closed && u.owned == s.owned && u.received == s.received + 1
            && u.refCount == s.refCount + 1 && u.released == s.released
  {
  }

  lemma CountAdd(s: Ctx, u: Ctx, id: nat)
    requires Counted(s) && s.refCount > 0 && id !in s.live && u.live.Keys == s.live.Keys + {id}
    requires u.owned == s.owned && u.closed == s.closed && u.refCount == s.refCount + 1 && u.released == s.released
    ensures Counted(u)
  {
    assert |u.live| == |u.live.Keys| && |s.live| == |s.live.Keys|;
  }

  function Began(s: Ctx, r: Req): Ctx {
    RefAdd(Put(s, s.received, r).(received := s.received + 1), 1)
  }

  lemma NewBuffers(s: Ctx, u: Ctx)
    requires BuffersOk(s) && u.live.Keys == s.live.Keys + {s.received}
    requires u.freed == s.freed && u.taken == s.taken && u.received == s.received + 1
    ensures BuffersOk(u)
  {
    assert EndedKept(u) == EndedKept(s);
  }

  lemma NewHooks(s: Ctx, u: Ctx, id: nat)
    requires HooksOk(s) && id !in s.live && id in u.live && u.live[id].onFinish == None
    requires u.ran == s.ran && u.hooked == s.hooked && u.live == s.live[id := u.live[id]]
    ensures HooksOk(u)
  {
    forall h | 0 <= h < u.hooked ensures Accounted(h, u.ran, u.live) {
      assert Accounted(h, s.ran, s.live);
      if h !in s.ran {
        var k :| k in s.live && s.live[k].onFinish == Some(h);
        assert u.live[k].onFinish == Some(h);
      }
    }
  }

  /** A step other than the late completion of a receive and the io's own
      release finds the context unreleased. */
  lemma Untouched(s: Ctx, step: Step)
    requires Core(s) && Enabled(s, step) && step != ReceiveLate && step != IoFree
    ensures s.released == 0 && Touch(s) == s
  {
    hide ReqOk, HooksOk, BuffersOk;
    if step.CallableDone? || step.SendDone? {
      assert step.id in s.live.Keys && |s.live.Keys| == |s.live|;
    }
  }

  lemma ReceivingKeeps(s: Ctx, b: bool)
    requires Core(s)
    ensures Core(s.(receiving := b))
  {
    hide Core;
    SameBooksKeep(s, s.(receiving := b));
  }

  /** The request as the first jump leaves it. */
  function Begun(s: Ctx, step: Step): Req
    requires step.Receive?
  {
    var r := Made(s.received, step.session, step.index, step.length, step.first);
    if step.index >= 0 then r.(next := Call2, waits := Callable)
    else if step.index == -5 then
      r.(index := step.first, base := Ptr(s.received, 12), length := step.length - 4,
         next := Poll2, waits := Callable)
    else if step.index == -3 then r
    else r.(next := Finish, waits := Sending)
  }

  /** A signal to a built-in ends within its first jump. */
  predicate EndsAtOnce(step: Step) {
    step.Receive? && -5 < step.index < 0 && step.index != -3 && step.session == SIGNAL
  }

  function MadeBy(s: Ctx, step: Step): Req
    requires step.Receive?
  {
    Made(s.received, step.session, step.index, step.length, step.first)
  }

  /** The context a request just received ends up in, when it does not end. */
  function After(s: Ctx, step: Step): Ctx
    requires step.Receive?
  {
    Began(if step.index == -3 then ServerClose(s) else s, Begun(s, step))
  }

  lemma AfterKeeps(s: Ctx, step: Step)
    requires Core(s) && step.Receive? && !s.closed && step.session < TWO32
    ensures Core(After(s, step))
  {
    hide Core, ReqOk;
    Facts(s);
    var a := if step.index == -3 then ServerClose(s) else s;
    if step.index == -3 { CloseKeeps(s); }
    FreshOk(a, Begun(s, step));
    NewKeeps(a, Begun(s, step));
  }

  lemma GotoIs(s: Ctx, step: Step)
    requires step.Receive? && !s.closed && -5 <= step.index && !EndsAtOnce(step)
    ensures Goto(NewRequest(s, step.session, step.index, step.length, step.first), s.received) == After(s, step)
  {
    hide FinishRequest, RefAdd;
    var id, r, q := s.received, MadeBy(s, step), Begun(s, step);
    var a := NewRequest(s, step.session, step.index, step.length, step.first);
    RefAddKeeps(Put(s, id, r).(received := s.received + 1), 1);
    RefAddPut(s, id, r, q);
    if step.index == -3 {
      RefAddClose(s, id, r);
    } else if step.index >= 0 {
      assert Goto(a, id) == Put(a, id, q);
    } else if step.index == -5 {
      assert Goto(a, id) == Put(a, id, q);
    } else {
      assert Goto(a, id) == Put(a, id, q);
    }
  }

  lemma RefAddKeeps(s: Ctx, d: int)
    ensures RefAdd(s, d).live == s.live && RefAdd(s, d).closed == s.closed
  {
  }

  lemma RefAddPut(s: Ctx, id: nat, r: Req, q: Req)
    ensures Put(RefAdd(Put(s, id, r).(received := s.received + 1), 1), id, q)
         == RefAdd(Put(s, id, q).(received := s.received + 1), 1)
  {
    assert s.live[id := r][id := q] == s.live[id := q];
  }

  lemma RefAddClose(s: Ctx, id: nat, r: Req)
    ensures ServerClose(RefAdd(Put(s, id, r).(received := s.received + 1), 1))
         == RefAdd(Put(ServerClose(s), id, r).(received := s.received + 1), 1)
  {
  }

  lemma EndsKeeps(s: Ctx, step: Step)
    requires Core(s) && EndsAtOnce(step) && !s.closed
    ensures Core(Goto(NewRequest(s, step.session, step.index, step.length, step.first), s.received))
  {
    hide Core, FinishRequest, ReqOk;
    var id, r := s.received, MadeBy(s, step);
    Facts(s);
    AfterKeeps(s, step);
    FinishKeeps(After(s, step), id, r);
    assert s.live[id := Begun(s, step)][id := r] == s.live[id := r];
    assert Put(After(s, step), id, r) == NewRequest(s, step.session, step.index, step.length, step.first);
  }

  lemma ReceiveKeeps(s: Ctx, step: Step)
    requires Core(s) && step.Receive? && Enabled(s, step)
    ensures Core(Apply(s, step))
  {
    hide Core, Goto, After;
    Untouched(s, step);
    var b := s.(receiving := false);
    ReceivingKeeps(s, false);
    if EndsAtOnce(step) {
      EndsKeeps(b, step);
    } else {
      AfterKeeps(b, step);
      GotoIs(b, step);
    }
    var u := Goto(NewRequest(b, step.session, step.index, step.length, step.first), s.received);
    ReceivingKeeps(u, !u.closed);
  }

  lemma Facts(s: Ctx)
    requires Core(s)
    ensures !s.closed ==> s.refCount > 0
    ensures s.received !in s.taken && s.received !in s.live
    ensures forall id :: id in s.live ==> id < s.received && ReqOk(id, s.live[id], s.taken, s.closed)
  {
    hide ReqOk;
  }

  /** A request just made, in whatever it waits for, is in order. */
  lemma FreshOk(s: Ctx, r: Req)
    requires s.received !in s.taken && r.wire == r.session < TWO32 && !r.rejected && r.onFinish == None
    requires if r.next == Poll2 then r.base == Ptr(s.received, 12) && r.length == r.size - 4 && r.index == r.first
             else !IsPoll(r) && r.base == Ptr(s.received, 8) && r.length == r.size
    requires match r.waits
             case Callable => r.next == Call2 || r.next == Poll2
             case Sending => r.next == Finish
             case Nothing => s.closed
    ensures ReqOk(s.received, r, s.taken, s.closed)
  {
  }

  /** The request as its callable left it, as it is once its result is written,
      and the rest of the context then. */
  function Left(s: Ctx, step: Step): Req
    requires step.CallableDone? && step.id in s.live
  {
    var r := s.live[step.id];
    r.(rejected := step.rejected, onFinish := if step.hooks then Some(s.hooked) else r.onFinish,
       base := if step.takes then NULL else r.base)
  }

  function Written(s: Ctx, step: Step): Req
    requires step.CallableDone? && step.id in s.live
  {
    var q := Left(s, step);
    q.(session := if q.rejected then FlipTop(q.session) else q.session,
       next := if q.next == Poll2 then Poll3 else Finish,
       waits := if s.closed then Nothing else Sending)
  }

  function Rest(s: Ctx, step: Step): Ctx
    requires step.CallableDone? && step.id in s.live
  {
    s.(hooked := if step.hooks then s.hooked + 1 else s.hooked,
       taken := if step.takes && s.live[step.id].base != NULL
                then s.taken[step.id := IsPoll(s.live[step.id])] else s.taken)
  }

  lemma ResultIs(s: Ctx, step: Step)
    requires step.CallableDone? && Enabled(s, step)
    ensures CallableResult(s, step) == Put(Rest(s, step), step.id, Left(s, step))
    ensures Rest(s, step).live == s.live && Rest(s, step).closed == s.closed
  {
  }

  lemma CallableDoneIs(s: Ctx, step: Step)
    requires Core(s) && step.CallableDone? && Enabled(s, step)
    ensures Apply(s, step) ==
            if s.live[step.id].next == Call2 && s.live[step.id].session == SIGNAL
            then FinishRequest(Put(Put(Rest(s, step), step.id, Written(s, step)), step.id, Left(s, step)), step.id)
            else Put(Rest(s, step), step.id, Written(s, step))
  {
    hide FinishRequest, Core, FlipTop, CallableResult, Rest;
    Untouched(s, step);
    var id, q, sent := step.id, Left(s, step), Written(s, step);
    ResultIs(s, step);
    assert s.live[id := sent][id := q] == s.live[id := q];
    assert s.live[id := q][id := sent] == s.live[id := sent];
  }

  lemma WrittenKeeps(s: Ctx, step: Step)
    requires Core(s) && step.CallableDone? && Enabled(s, step)
    ensures var sent := Written(s, step);
            && Core(Put(Rest(s, step), step.id, sent))
            && (sent.next == Finish ==> Finishable(step.id, sent, Rest(s, step).taken))
  {
    hide Core, ReqOk;
    Facts(s);
    var id, r, sent := step.id, s.live[step.id], Written(s, step);
    SentOk(id, r, sent, s.taken, Rest(s, step).taken, s.closed, step.takes);
    ReturnedKeeps(s, id, sent, step.hooks, step.takes && r.base != NULL);
  }

  lemma CallableDoneKeeps(s: Ctx, step: Step)
    requires Core(s) && step.CallableDone? && Enabled(s, step)
    ensures Core(Apply(s, step))
  {
    hide Core, Apply, FinishRequest, FlipTop;
    WrittenKeeps(s, step);
    CallableDoneIs(s, step);
    if s.live[step.id].next == Call2 && s.live[step.id].session == SIGNAL {
      FinishKeeps(Put(Rest(s, step), step.id, Written(s, step)), step.id, Left(s, step));
    }
  }

  lemma SentOk(
    id: nat, r: Req, sent: Req, taken: map<nat, bool>, after: map<nat, bool>, closed: bool, takes: bool)
    requires ReqOk(id, r, taken, closed) && r.waits == Callable
    requires after == if takes && r.base != NULL then taken[id := IsPoll(r)] else taken
    requires sent == r.(rejected := sent.rejected, onFinish := sent.onFinish,
                        base := if takes then NULL else r.base,
                        session := if sent.rejected then FlipTop(r.session) else r.session,
                        next := if r.next == Poll2 then Poll3 else Finish,
                        waits := if closed then Nothing else Sending)
    ensures ReqOk(id, sent, after, closed) && r.onFinish == None && (r.next == Call2 || r.next == Poll2)
    ensures sent.next == Finish ==> Finishable(id, sent, after)
  {
  }

  lemma Poll3Keeps(s: Ctx, id: nat)
    requires Core(s) && Core(CloseOnError(s)) && id in s.live && s.live[id].waits == Sending && s.live[id].next == Poll3
    ensures Core(StepPoll3(s, id))
  {
    hide Core, FinishRequest, Invoke, RunFinish, CloseOnError;
    Facts(s);
    CloseReceives(s);
    var b := CloseOnError(s);
    Facts(b);
    var r := b.live[id];
    if r.rejected || b.closed {
      FinishKeeps(b, id, PutBack(r));
    } else {
      InvokeKeeps(b, id, r);
    }
  }

  lemma SendDoneKeeps(s: Ctx, id: nat, error: bool)
    requires Core(s) && Enabled(s, SendDone(id, error))
    ensures Core(Apply(s, SendDone(id, error)))
  {
    hide Core, StepPoll3, FinishRequest, CloseOnError;
    Facts(s);
    Untouched(s, SendDone(id, error));
    var a := s.(sendError := error);
    SendErrorKeeps(s, error);
    if s.live[id].next == Poll3 {
      Poll3Keeps(a, id);
    } else {
      FinishSelfKeeps(a, id);
    }
  }

  lemma DeleteKeeps(s: Ctx)
    requires Core(s) && s.owned
    ensures Core(Apply(s, Delete))
  {
    hide ReqOk, HooksOk, BuffersOk;
    CloseKeeps(s);
    Untouched(s, Delete);
    var a := ServerClose(s);
    var u := Apply(s, Delete);
    assert u.live == a.live;
    SameHooks(a, u);
    BuffersSame(a, u);
  }

  lemma CoreKeeps(s: Ctx, step: Step)
    requires Core(s) && Enabled(s, step)
    ensures Core(Apply(s, step))
  {
    hide Core;
    match step
    case Receive(_, _, _, _) => ReceiveKeeps(s, step);
    case ReceiveError =>
      Untouched(s, step);
      ReceivingKeeps(s, false);
      CloseKeeps(s.(receiving := false));
    case ReceiveLate => SameBooksKeep(s, Apply(s, step));
    case CallableDone(id, _, _, _) => CallableDoneKeeps(s, step);
    case SendDone(id, error) => SendDoneKeeps(s, id, error);
    case Delete => DeleteKeeps(s);
    case IoFree => SameBooksKeep(s, Apply(s, step));
  }

  // ---------- the outstanding receive ----------

  /** What a jump does to the receive: nothing, unless it closes the context. */
  predicate ReceiveFrame(s: Ctx, u: Ctx) {
    && (u.io == s.io || (s.io == Released && u.io == Misused)) && u.sendError == s.sendError
    && u.prompt == s.prompt && u.touched == s.touched && (s.closed ==> u.closed)
    && u.receiving == (s.receiving && !(!s.closed && u.closed && s.prompt))
  }

  lemma FinishReceives(s: Ctx, id: nat)
    requires id in s.live
    ensures ReceiveFrame(s, FinishRequest(s, id))
  {
    hide CloseOnError, RefAdd, BufferOf, ReceiveFrame, RunFinish;
    var r := s.live[id];
    CloseReceives(s);
    EndReceives(CloseOnError(s), id, r);
    FrameThen(s, CloseOnError(s), FinishRequest(s, id));
  }

  lemma EndReceives(c: Ctx, id: nat, r: Req)
    ensures var a := RunFinish(c, r);
            ReceiveFrame(c, RefAdd(a.(freed := a.freed + BufferOf(r), live := a.live - {id}), -1))
  {
    hide RefAdd, BufferOf;
    var a := RunFinish(c, r);
    CountReceives(a.(freed := a.freed + BufferOf(r), live := a.live - {id}));
  }

  lemma CloseReceives(s: Ctx)
    ensures ReceiveFrame(s, CloseOnError(s)) && ReceiveFrame(s, ServerClose(s)) && CloseOnError(s).live == s.live
    ensures CloseOnError(s).io == UseIo(s).io
  {
    hide UseIo, ServerClose, ReceiveFrame;
    UseIoFrame(s);
    CloseFrame(s);
    CloseFrame(UseIo(s));
    FrameThen(s, UseIo(s), ServerClose(UseIo(s)));
  }

  lemma UseIoFrame(s: Ctx)
    ensures ReceiveFrame(s, UseIo(s)) && UseIo(s).live == s.live
  {
  }

  lemma CloseFrame(s: Ctx)
    ensures ReceiveFrame(s, ServerClose(s)) && ServerClose(s).live == s.live && ServerClose(s).io == s.io
  {
  }

  lemma CountReceives(s: Ctx)
    ensures var u := RefAdd(s, -1);
            && u.io == s.io && u.receiving == s.receiving && u.closed == s.closed && u.prompt == s.prompt
            && u.touched == s.touched && u.sendError == s.sendError
  {
  }

  lemma FrameThen(s: Ctx, u: Ctx, v: Ctx)
    requires ReceiveFrame(s, u) && ReceiveFrame(u, v)
    ensures ReceiveFrame(s, v)
  {
  }

  lemma Poll3Receives(s: Ctx, id: nat)
    requires id in s.live
    ensures ReceiveFrame(s, StepPoll3(s, id))
  {
    hide FinishRequest, CloseOnError, ReceiveFrame;
    var a := CloseOnError(s);
    CloseReceives(s);
    var r := a.live[id];
    var q := PutBack(r);
    PutReceives(a, id, q);
    FinishReceives(Put(a, id, q), id);
    InvokeReceives(a, id, r);
    FrameThen(a, Put(a, id, q), FinishRequest(Put(a, id, q), id));
    FrameThen(s, a, StepPoll3(s, id));
  }

  lemma PutReceives(s: Ctx, id: nat, r: Req)
    ensures ReceiveFrame(s, Put(s, id, r))
  {
  }

  lemma InvokeReceives(s: Ctx, id: nat, r: Req)
    ensures ReceiveFrame(s, Invoke(RunFinish(s, r), id, r, Poll2)) && ReceiveFrame(s, Invoke(s, id, r, Call2))
  {
  }

  lemma GotoReceives(s: Ctx, id: nat)
    requires id in s.live
    ensures ReceiveFrame(s, Goto(s, id))
  {
    hide FinishRequest, StepPoll3;
    FinishReceives(s, id);
    if s.live[id].next == Poll3 {
      Poll3Receives(s, id);
    }
  }

  lemma ReceivesKeep(s: Ctx, step: Step)
    requires Inv(s) && Enabled(s, step)
    ensures ReceivesOk(Apply(s, step))
  {
    hide Core, Goto;
    if step != ReceiveLate && step != IoFree { Untouched(s, step); } else { LateReleased(s); }
    match step
    case Receive(session, index, length, first) =>
      GotoReceives(NewRequest(s.(receiving := false), session, index, length, first), s.received);
    case CallableDone(id, _, _, _) => GotoReceives(CallableResult(s, step), id);
    case SendDone(id, error) => GotoReceives(s.(sendError := error), id);
    case _ =>
  }

  lemma LateReleased(s: Ctx)
    requires Core(s)
    ensures s.released <= 1
  {
    hide ReqsOk, HooksOk, BuffersOk;
  }

  // ---------- the io ----------

  /** The callable of signal `id` has not returned. */
  predicate SignalOut(s: Ctx, id: nat) {
    && id in s.live && s.live[id].waits == Callable
    && s.live[id].next == Call2 && s.live[id].session == SIGNAL
  }

  lemma FinishClosed(s: Ctx, id: nat)
    requires id in s.live && s.closed
    ensures var u := FinishRequest(s, id); u.closed && u.live == s.live - {id} && u.io == UseIo(s).io
  {
    hide CloseOnError, UseIo;
    CloseReceives(s);
    EndsClosed(CloseOnError(s), id, s.live[id]);
  }

  lemma EndsClosed(c: Ctx, id: nat, r: Req)
    ensures var a := RunFinish(c, r);
            var u := RefAdd(a.(freed := a.freed + BufferOf(r), live := a.live - {id}), -1);
            u.closed == c.closed && u.live == c.live - {id} && u.io == c.io
  {
    hide BufferOf;
  }

  /** On a closed context a jump sends nothing, and uses the io exactly if the
      request ends. */
  lemma ClosedGoto(s: Ctx, id: nat)
    requires id in s.live && s.closed && s.live[id].next in {Call2, Poll2}
    ensures var u, r := Goto(s, id), s.live[id];
            && u.closed
            && if r.next == Call2 && r.session == SIGNAL
               then u.live == s.live - {id} && u.io == UseIo(s).io
               else u.io == s.io && u.live.Keys == s.live.Keys && u.live[id].waits == Nothing
                    && u.live == s.live[id := u.live[id]]
  {
    hide FinishRequest, FlipTop;
    FinishClosed(s, id);
  }

  /** Once the io is released only callables return, and a signal's then uses
      it. */
  lemma IoStep(s: Ctx, step: Step)
    requires Core(s) && IoOk(s) && s.io != Usable && Enabled(s, step)
    ensures var u := Apply(s, step);
            && u.io != Usable && IoOk(u)
            && (u.io == Misused <==> s.io == Misused || s.live.Keys != u.live.Keys)
            && u.live.Keys <= s.live.Keys
            && (forall k :: k in u.live ==> (SignalOut(u, k) <==> SignalOut(s, k)))
            && forall k :: k in s.live && k !in u.live ==> SignalOut(s, k)
  {
    hide Core, Goto;
    Untouched(s, step);
    if step.CallableDone? {
      var id, a := step.id, CallableResult(s, step);
      assert a.live == s.live[id := a.live[id]] && a.closed && a.io == s.io && !a.receiving;
      ClosedGoto(a, id);
      GotoReceives(a, id);
    }
  }

  // ---------- what a jump does to its request ----------

  /** The jump ends the request unless a poll goes on. */
  predicate LastJump(r: Req, closed: bool) {
    match r.next
    case Finish => true
    case Poll3 => r.rejected || closed
    case Call1 => false
    case Close1 => false
    case Poll1 => false
    case Poll2 => false
    case _ => r.session == 0xffff_ffff
  }

  /** A jump changes its own request alone.  It closes the context if the request
      asks for that, or if it finds the error of a send when it ends a request or
      between two rounds of a poll. */
  predicate Jumped(s: Ctx, id: nat, u: Ctx)
    requires id in s.live
  {
    var r := s.live[id];
    && u.sendError == s.sendError && u.received == s.received
    && (u.closed <==> s.closed || r.next == Close1 || (s.sendError && (LastJump(r, s.closed) || r.next == Poll3)))
    && if LastJump(r, u.closed) then u.live == s.live - {id}
       else id in u.live && u.live == s.live[id := u.live[id]]
  }

  lemma JumpIs(s: Ctx, id: nat)
    requires id in s.live
    ensures Jumped(s, id, Goto(s, id))
  {
    hide FinishRequest, StepPoll3, WriteResult, Invoke, StepPoll1, ServerClose;
    FinishJump(s, id);
    match s.live[id].next {
      case Call1 => InvokeJump(s, id, s.live[id], Call2);
      case Close1 => CloseFrame(s); ClosedNow(s);
      case Poll1 => Poll1Jump(s, id);
      case Poll2 => WriteJump(s, id, Poll3);
      case Poll3 => Poll3Jump(s, id);
      case _ => WriteJump(s, id, Finish);
    }
  }

  lemma ClosedNow(s: Ctx)
    ensures var u := ServerClose(s);
            u.closed && u.received == s.received && u.live == s.live && u.sendError == s.sendError
  {
  }

  lemma InvokeJump(s: Ctx, id: nat, r: Req, next: Next)
    ensures var u := Invoke(s, id, r, next);
            && u.sendError == s.sendError && u.received == s.received && u.closed == s.closed
            && u.live == s.live[id := r.(rejected := false, onFinish := None, next := next, waits := Callable)]
  {
  }

  lemma Poll1Jump(s: Ctx, id: nat)
    requires id in s.live
    ensures var u, r := StepPoll1(s, id), s.live[id];
            && u.sendError == s.sendError && u.received == s.received && u.closed == s.closed
            && u.live == s.live[id := r.(index := r.first, base := Moved(r.base, 4), length := r.length - 4,
                                         rejected := false, onFinish := None, next := Poll2, waits := Callable)]
  {
  }

  lemma WriteJump(s: Ctx, id: nat, next: Next)
    requires id in s.live
    ensures var u, r := WriteResult(s, id, next), s.live[id];
            && u.sendError == s.sendError && u.received == s.received && u.closed == s.closed
            && u.live == s.live[id := r.(session := if r.rejected then FlipTop(r.session) else r.session, next := next,
                                         waits := if s.closed then Nothing else Sending)]
  {
    hide FlipTop;
  }

  lemma FinishJump(s: Ctx, id: nat)
    requires id in s.live
    ensures var u := FinishRequest(s, id);
            && u.sendError == s.sendError && u.received == s.received && u.live == s.live - {id}
            && (u.closed <==> s.closed || s.sendError)
  {
    hide RefAdd, Put, RunFinish, CloseOnError;
    assert Put(s, id, s.live[id]) == s by { PutSelf(s, id); }
    FinishIs(s, id, s.live[id]);
    CloseJump(s);
    EndedIs(CloseOnError(s), id, s.live[id]);
    EndedErrors(CloseOnError(s), id, s.live[id]);
  }

  lemma PutSelf(s: Ctx, id: nat)
    requires id in s.live
    ensures Put(s, id, s.live[id]) == s
  {
    assert s.live[id := s.live[id]] == s.live;
  }

  lemma EndedErrors(a: Ctx, id: nat, r: Req)
    ensures Ended(a, id, r).sendError == a.sendError
  {
  }

  lemma CloseJump(s: Ctx)
    ensures var u := CloseOnError(s);
            && u.sendError == s.sendError && u.received == s.received && u.live == s.live
            && (u.closed <==> s.closed || s.sendError)
  {
    hide UseIo, ServerClose;
    UseIoSame(s);
    ClosedNow(UseIo(s));
  }

  lemma UseIoSame(s: Ctx)
    ensures var u := UseIo(s);
            u.sendError == s.sendError && u.received == s.received && u.live == s.live && u.closed == s.closed
  {
  }

  lemma Poll3Jump(s: Ctx, id: nat)
    requires id in s.live && s.live[id].next == Poll3
    ensures var u, r := StepPoll3(s, id), s.live[id];
            && u.sendError == s.sendError && u.received == s.received
            && (u.closed <==> s.closed || s.sendError)
            && if r.rejected || u.closed then u.live == s.live - {id}
               else u.live == s.live[id := r.(rejected := false, onFinish := None, next := Poll2, waits := Callable)]
  {
    hide FinishRequest, CloseOnError, RefAdd;
    CloseJump(s);
    var a := CloseOnError(s);
    var r := a.live[id];
    if r.rejected || a.closed {
      FinishJump(Put(a, id, PutBack(r)), id);
      assert s.live[id := PutBack(r)] - {id} == s.live - {id};
    } else {
      RunFinishPut(a, id, r);
    }
  }

  /** A step closes the context exactly if it is the failure of the receive or of
      a send, the deletion, or the arrival of a request to close. */
  lemma StepCloses(s: Ctx, step: Step)
    requires Core(s) && IoOk(s) && Enabled(s, step)
    ensures var u := Apply(s, step);
            && (u.closed <==>
                  || s.closed || step == ReceiveError || step == Delete
                  || (step.SendDone? && step.error) || (step.Receive? && step.index == -3))
            && u.sendError == if step.SendDone? then step.error else s.sendError
  {
    hide Core, Goto;
    if step != ReceiveLate && step != IoFree { Untouched(s, step); }
    match step
    case Receive(session, index, length, first) =>
      JumpIs(NewRequest(s.(receiving := false), session, index, length, first), s.received);
    case CallableDone(id, _, _, _) => JumpIs(CallableResult(s, step), id);
    case SendDone(id, error) => JumpIs(s.(sendError := error), id);
    case _ =>
  }

  lemma IoKeeps(s: Ctx, step: Step)
    requires Inv(s) && Enabled(s, step)
    ensures IoOk(Apply(s, step))
  {
    hide Core, Goto, ReceivesOk, Apply, Enabled;
    StepCloses(s, step);
    if s.io == Usable {
      if step == IoFree {
        IoFreeIs(s);
      } else {
        StepFrame(s, step);
      }
    } else {
      IoStep(s, step);
    }
  }

  lemma IoFreeIs(s: Ctx)
    requires Enabled(s, IoFree)
    ensures IoOk(Apply(s, IoFree))
  {
  }

  lemma StepKeeps(s: Ctx, step: Step)
    requires Inv(s) && Enabled(s, step)
    ensures Inv(Apply(s, step))
  {
    hide Core, ReceivesOk, Apply, Enabled, IoOk;
    CoreKeeps(s, step);
    ReceivesKeep(s, step);
    IoKeeps(s, step);
  }

  // ---------- every run ----------

  ghost predicate IsRun(states: seq<Ctx>, steps: seq<Step>) {
    && |states| == |steps| + 1 && states[0] == Started(states[0].prompt)
    && forall n :: 0 <= n < |steps| ==> Enabled(states[n], steps[n]) && states[n + 1] == Apply(states[n], steps[n])
  }

  lemma {:induction false} RunKeeps(states: seq<Ctx>, steps: seq<Step>, n: nat)
    requires IsRun(states, steps) && n < |states|
    ensures Inv(states[n])
  {
    hide Inv, Enabled, Apply;
    if n == 0 {
      StartKeeps(states[0].prompt);
    } else {
      RunKeeps(states, steps, n - 1);
      StepKeeps(states[n - 1], steps[n - 1]);
    }
  }

  lemma StartKeeps(prompt: bool)
    ensures Inv(Started(prompt))
  {
  }

  /** In every run the reference count is one for an undeleted owner plus the
      live requests, and the context is released once, exactly when that sum is
      zero. */
  lemma ContextLifetime(states: seq<Ctx>, steps: seq<Step>, n: nat)
    requires IsRun(states, steps) && n < |states|
    ensures var s := states[n];
            && s.refCount == |s.live| + (if s.owned then 1 else 0)
            && s.released == (if |s.live| == 0 && !s.owned then 1 else 0)
            && (s.released == 1 ==> s.closed)
  {
    RunKeeps(states, steps, n);
    hide ReqOk, HooksOk, BuffersOk;
  }

  /** In every run the context is closed by the failure of the receive or of a
      send, by its deletion and by a request to close, and by nothing else. */
  lemma ClosesExactly(states: seq<Ctx>, steps: seq<Step>, n: nat)
    requires IsRun(states, steps) && n < |steps|
    ensures states[n + 1].closed <==>
              || states[n].closed || steps[n] == ReceiveError || steps[n] == Delete
              || (steps[n].SendDone? && steps[n].error) || (steps[n].Receive? && steps[n].index == -3)
  {
    hide Enabled, Apply, Core;
    RunKeeps(states, steps, n);
    StepCloses(states[n], steps[n]);
  }

  /** Only request `id` differs, and it has ended or not. */
  predicate OnlyRequest(s: Ctx, u: Ctx, id: nat, ended: bool) {
    if ended then u.live == s.live - {id} else id in u.live && u.live == s.live[id := u.live[id]]
  }

  /** In every run, when a send completes its request ends, unless it is a poll
      whose result was no error and the context is still open: then the callable
      is called again, with the same index and parameter.  A failed send has
      closed the context. */
  lemma SendDoneEnds(states: seq<Ctx>, steps: seq<Step>, n: nat)
    requires IsRun(states, steps) && n < |steps| && steps[n].SendDone?
    ensures steps[n].id in states[n].live
    ensures var s, u, r := states[n], states[n + 1], states[n].live[steps[n].id];
            && (u.closed <==> s.closed || steps[n].error)
            && OnlyRequest(s, u, steps[n].id, !(IsPoll(r) && !r.rejected && !u.closed))
            && (steps[n].id in u.live ==>
                  u.live[steps[n].id] == r.(onFinish := None, next := Poll2, waits := Callable))
  {
    hide Core, Apply;
    RunKeeps(states, steps, n);
    assert states[n + 1] == Apply(states[n], steps[n]);
    SendDoneStep(states[n], steps[n].id, steps[n].error);
  }

  lemma SendDoneStep(s: Ctx, id: nat, error: bool)
    requires Inv(s) && Enabled(s, SendDone(id, error))
    ensures var u, r := Apply(s, SendDone(id, error)), s.live[id];
            && (u.closed <==> s.closed || error)
            && OnlyRequest(s, u, id, !(IsPoll(r) && !r.rejected && !u.closed))
            && (id in u.live ==> u.live[id] == r.(onFinish := None, next := Poll2, waits := Callable))
  {
    hide Core;
    Untouched(s, SendDone(id, error));
    assert Apply(s, SendDone(id, error)) == Goto(s.(sendError := error), id);
    hide Goto, Apply;
    StepCloses(s, SendDone(id, error));
    JumpIs(s.(sendError := error), id);
    if s.live[id].next == Poll3 {
      Poll3Is(s.(sendError := error), id);
    }
  }

  lemma Poll3Is(s: Ctx, id: nat)
    requires id in s.live && s.live[id].next == Poll3
    ensures var u, r := Goto(s, id), s.live[id];
            id in u.live && !r.rejected && !u.closed ==>
              u.live[id] == r.(rejected := false, onFinish := None, next := Poll2, waits := Callable)
  {
    hide StepPoll3;
    Poll3Jump(s, id);
  }

  /** In every run, when a callable is done its result is sent, with the error
      bit exactly if it is rejected; on a closed context it is not, and the
      request waits for ever.  A call that is a signal ends at once. */
  lemma CallableDoneSends(states: seq<Ctx>, steps: seq<Step>, n: nat)
    requires IsRun(states, steps) && n < |steps| && steps[n].CallableDone?
    ensures steps[n].id in states[n].live
    ensures var s, u, r := states[n], states[n + 1], states[n].live[steps[n].id];
            var signal := !IsPoll(r) && r.wire == 0xffff_ffff;
            && u.closed == s.closed && OnlyRequest(s, u, steps[n].id, signal)
            && (!signal ==>
                  var q := u.live[steps[n].id];
                  && q.waits == (if s.closed then Nothing else Sending) && q.rejected == steps[n].rejected
                  && q.session == (if steps[n].rejected then FlipTop(r.wire) else r.wire)
                  && IsPoll(q) == IsPoll(r) && q.index == r.index
                  && q.base == if steps[n].takes then NULL else r.base)
  {
    hide Core, ReceivesOk, BuffersOk, HooksOk, Counted;
    RunKeeps(states, steps, n);
    var s, step := states[n], steps[n];
    assert ReqOk(step.id, s.live[step.id], s.taken, s.closed) by { Facts(s); }
    assert states[n + 1] == Apply(s, step);
    hide Apply, FlipTop;
    CallableDoneIs(s, step);
    StepCloses(s, step);
    SignalEnds(s, step);
  }

  lemma SignalEnds(s: Ctx, step: Step)
    requires step.CallableDone? && step.id in s.live
    ensures var a := Put(Put(Rest(s, step), step.id, Written(s, step)), step.id, Left(s, step));
            step.id in a.live && FinishRequest(a, step.id).live == s.live - {step.id}
  {
    hide FinishRequest, FlipTop;
    var a := Put(Put(Rest(s, step), step.id, Written(s, step)), step.id, Left(s, step));
    FinishJump(a, step.id);
    assert s.live[step.id := Written(s, step)][step.id := Left(s, step)] - {step.id} == s.live - {step.id};
  }

  /** In every run, a packet becomes a request of its own: a callable is called
      with the index and parameter of the packet, a poll's with those inside its
      parameter; a built-in's result is sent, or for a signal the request has
      ended; and a request to close has closed the context and stays. */
  lemma PacketStarts(states: seq<Ctx>, steps: seq<Step>, n: nat)
    requires IsRun(states, steps) && n < |steps| && steps[n].Receive?
    ensures var s, u, p, id := states[n], states[n + 1], steps[n], states[n].received;
            && id !in s.live && u.received == id + 1
            && OnlyRequest(s, u, id, p.index in {-1, -2, -4} && p.session == 0xffff_ffff)
            && (id in u.live ==>
                  var q := u.live[id];
                  && q.wire == q.session == p.session && !q.rejected
                  && (p.index >= 0 ==> q.waits == Callable && !IsPoll(q) && q.index == p.index
                                       && q.base == Ptr(id, 8) && q.length == p.length)
                  && (p.index == -5 ==> q.waits == Callable && IsPoll(q) && q.index == p.first
                                        && q.base == Ptr(id, 12) && q.length == p.length - 4)
                  && (p.index in {-1, -2, -4} ==> q.waits == Sending)
                  && (p.index == -3 ==> u.closed && q.waits == Nothing))
  {
    hide Core;
    RunKeeps(states, steps, n);
    var s, step := states[n], steps[n];
    Facts(s);
    Untouched(s, step);
    var b := s.(receiving := false);
    var a := NewRequest(b, step.session, step.index, step.length, step.first);
    assert states[n + 1] == Step1(Goto(a, s.received));
    NewIs(b, step);
    hide Goto, NewRequest;
    JumpIs(a, s.received);
    if !EndsAtOnce(step) {
      GotoIs(b, step);
      BegunLive(b, step);
    } else {
      assert s.live[s.received := MadeBy(b, step)] - {s.received} == s.live;
      assert s.live - {s.received} == s.live;
    }
  }

  lemma NewIs(s: Ctx, step: Step)
    requires step.Receive?
    ensures var a := NewRequest(s, step.session, step.index, step.length, step.first);
            a.live == s.live[s.received := MadeBy(s, step)] && a.received == s.received + 1 && a.closed == s.closed
  {
  }

  lemma BegunLive(s: Ctx, step: Step)
    requires step.Receive?
    ensures After(s, step).live == s.live[s.received := Begun(s, step)]
    ensures step.index == -3 ==> After(s, step).closed
  {
  }

  /** A released context is used again exactly if a receive was still
      outstanding when it was released: then the completion of that receive is
      the next step.  Apart from it, only the io can still be released. */
  lemma UsedAfterRelease(states: seq<Ctx>, steps: seq<Step>, m: nat, n: nat)
    requires IsRun(states, steps) && m <= n < |states|
    requires states[m].released == 1 && (m > 0 ==> states[m - 1].released == 0)
    ensures states[n].touched <==> states[m].receiving && m < n
    ensures states[m].receiving <==> exists step :: Enabled(states[m], step) && Apply(states[m], step).touched
    ensures n <= m + (if states[m].receiving then 1 else 0) + if states[m].io == Usable then 1 else 0
  {
    hide Enabled, Apply, Inv;
    RunKeeps(states, steps, m);
    NotYetTouched(states, steps, m);
    OnlyLateLeft(states[m]);
    LateTouches(states[m]);
    AfterRelease(states, steps, m, n);
    if step :| Enabled(states[m], step) && Apply(states[m], step).touched {
      LateStep(states[m], step);
    }
  }

  lemma {:induction false} AfterRelease(states: seq<Ctx>, steps: seq<Step>, m: nat, n: nat)
    requires IsRun(states, steps) && m <= n < |states| && states[m].released == 1 && !states[m].touched
    ensures states[n].released == 1
    ensures states[n].touched <==> states[m].receiving && m < n
    ensures states[n].receiving <==> states[m].receiving && m == n
    ensures states[m].io != Usable ==> states[n].io != Usable
    ensures n == m + (if states[n].touched then 1 else 0)
                   + if states[m].io == Usable && states[n].io != Usable then 1 else 0
  {
    hide Enabled, Apply, Inv;
    if m < n {
      AfterRelease(states, steps, m, n - 1);
      RunKeeps(states, steps, n - 1);
      LateStep(states[n - 1], steps[n - 1]);
    }
  }

  /** What can still happen once the context is released. */
  lemma LateStep(s: Ctx, step: Step)
    requires Inv(s) && s.released == 1 && Enabled(s, step)
    ensures var u := Apply(s, step);
            && u.released == 1 && !u.receiving
            && if s.receiving then u.touched && u.io == s.io
               else u.touched == s.touched && s.io == Usable && u.io == Released
  {
    hide Inv;
    OnlyLateLeft(s);
  }

  lemma LateTouches(s: Ctx)
    requires s.released == 1 && s.closed
    ensures Enabled(s, ReceiveLate) <==> s.receiving
    ensures s.receiving ==>
              var u := Apply(s, ReceiveLate); u.touched && u.released == 1 && !u.receiving
  {
  }

  lemma NotYetTouched(states: seq<Ctx>, steps: seq<Step>, m: nat)
    requires IsRun(states, steps) && m < |states|
    requires states[m].released == 1 && (m > 0 ==> states[m - 1].released == 0)
    ensures !states[m].touched
  {
    hide Core, Enabled, Apply;
    if m > 0 {
      RunKeeps(states, steps, m - 1);
      StepFrame(states[m - 1], steps[m - 1]);
    }
  }

  lemma OnlyLateLeft(s: Ctx)
    requires Inv(s) && s.released == 1
    ensures s.closed
    ensures forall step :: Enabled(s, step) ==>
              (step == ReceiveLate && s.receiving) || (step == IoFree && !s.receiving && s.io == Usable)
  {
    hide ReqOk, HooksOk, BuffersOk;
    assert s.live.Keys == {} by { assert |s.live.Keys| == |s.live| == 0; }
  }

  lemma StepFrame(s: Ctx, step: Step)
    requires Inv(s) && Enabled(s, step)
    ensures Apply(s, step).prompt == s.prompt
    ensures s.released == 0 ==> Apply(s, step).touched == s.touched
    ensures s.io == Usable && step != IoFree ==> Apply(s, step).io == Usable
  {
    hide Core, Goto;
    if step != ReceiveLate && step != IoFree { Untouched(s, step); }
    match step
    case Receive(session, index, length, first) =>
      GotoReceives(NewRequest(s.(receiving := false), session, index, length, first), s.received);
    case CallableDone(id, _, _, _) => GotoReceives(CallableResult(s, step), id);
    case SendDone(id, error) => GotoReceives(s.(sendError := error), id);
    case _ =>
  }

  /** With an io that completes the receive before its close returns, as the
      pipe does, no run uses the context after its release. */
  lemma PromptNeverTouched(states: seq<Ctx>, steps: seq<Step>, n: nat)
    requires IsRun(states, steps) && n < |states| && states[0].prompt
    ensures !states[n].touched
  {
    RunKeeps(states, steps, n);
    PromptStays(states, steps, n);
  }

  lemma {:induction false} PromptStays(states: seq<Ctx>, steps: seq<Step>, n: nat)
    requires IsRun(states, steps) && n < |states|
    ensures states[n].prompt == states[0].prompt
  {
    hide Enabled, Apply, Inv;
    if n > 0 {
      RunKeeps(states, steps, n - 1);
      PromptStays(states, steps, n - 1);
      StepFrame(states[n - 1], steps[n - 1]);
    }
  }

  /** With an io that does not, deleting an idle server is enough: the receive
      it waits for completes on freed memory. */
  lemma IdleDeleteTouched()
    ensures exists states: seq<Ctx>, steps: seq<Step> ::
              IsRun(states, steps) && steps == [Delete, ReceiveLate] && states[1].released == 1 && states[2].touched
  {
    var s := Started(false);
    var steps := [Delete, ReceiveLate];
    var states := [s, Apply(s, Delete), Apply(Apply(s, Delete), ReceiveLate)];
    assert IsRun(states, steps);
  }

  /** In every run `buf_free` has been given exactly the addresses received of
      the requests that have ended without their callable keeping the buffer,
      each once, for any number of poll rounds; and besides them an address that
      lies in no buffer, once for each poll that has ended although its callable
      kept the buffer, so never exactly if there is no such poll. */
  lemma BuffersFreedOnce(states: seq<Ctx>, steps: seq<Step>, n: nat)
    requires IsRun(states, steps) && n < |states|
    ensures var s := states[n];
            && (forall k :: 0 <= k < |s.freed| ==> Freeable(s, s.freed[k]))
            && (forall j, k :: 0 <= j < k < |s.freed| && s.freed[j].Ptr? ==> s.freed[j] != s.freed[k])
            && (forall id :: 0 <= id < s.received ==>
                  (Ptr(id, 0) in s.freed <==> id !in s.live && id !in s.taken))
            && Strays(s.freed) == |EndedKept(s)|
            && ((forall k :: 0 <= k < |s.freed| ==> s.freed[k].Ptr?) <==>
                  forall id :: id in s.taken && s.taken[id] ==> id in s.live)
  {
    RunKeeps(states, steps, n);
    hide ReqsOk, HooksOk, Counted;
    NoStrays(states[n].freed);
    NoneKept(states[n]);
  }

  lemma {:induction false} NoStrays(ps: seq<Ptr>)
    ensures Strays(ps) == 0 <==> forall k :: 0 <= k < |ps| ==> ps[k].Ptr?
  {
    if ps != [] {
      NoStrays(ps[..|ps| - 1]);
    }
  }

  lemma NoneKept(s: Ctx)
    ensures |EndedKept(s)| == 0 <==> forall id :: id in s.taken && s.taken[id] ==> id in s.live
  {
    if |EndedKept(s)| == 0 {
      forall id | id in s.taken && s.taken[id] ensures id in s.live {
        assert id !in EndedKept(s);
      }
    } else {
      assert EndedKept(s) != {};
    }
  }

  function PollMade(next: Next, waits: Waits, session: nat, base: Ptr, taken: map<nat, bool>): Ctx {
    Ctx(2, true, false, 0, false, true, true, false, Usable,
        map[0 := Req(1, session, 0, 0, base, 0, 4, waits == Sending, None, next, waits)], 1, 0, [], [], taken)
  }

  lemma PollReceived()
    ensures var step := Receive(1, -5, 4, 0);
            && Enabled(Started(true), step)
            && Apply(Started(true), step) == PollMade(Poll2, Callable, 1, Ptr(0, 12), map[])
  {
    hide FinishRequest, WriteResult;
  }

  lemma PollKeeps()
    ensures var s, step := PollMade(Poll2, Callable, 1, Ptr(0, 12), map[]), CallableDone(0, true, false, true);
            Enabled(s, step) && Apply(s, step) == PollMade(Poll3, Sending, FlipTop(1), NULL, map[0 := true])
  {
    hide FinishRequest, FlipTop;
  }

  lemma PollEnds()
    ensures var s, step := PollMade(Poll3, Sending, FlipTop(1), NULL, map[0 := true]), SendDone(0, false);
            Enabled(s, step) && Apply(s, step).freed == [Stray(-12)]
  {
    hide FlipTop;
  }

  /** A poll whose callable keeps the buffer and fails: null, moved by the poll's
      four bytes and the header's eight, is given to `buf_free`. */
  lemma StrayExample()
    ensures exists states: seq<Ctx>, steps: seq<Step> ::
              && IsRun(states, steps) && |steps| == 3
              && steps[1] == CallableDone(0, true, false, true) && states[3].freed == [Stray(-12)]
  {
    hide Enabled, Apply, PollMade, FlipTop;
    PollReceived();
    PollKeeps();
    PollEnds();
    var steps := [Receive(1, -5, 4, 0), CallableDone(0, true, false, true), SendDone(0, false)];
    var a := Apply(Started(true), steps[0]);
    var b := Apply(a, steps[1]);
    assert IsRun([Started(true), a, b, Apply(b, steps[2])], steps);
  }

  // ---------- the io after its release ----------

  lemma {:induction false} SignalsLeft(states: seq<Ctx>, steps: seq<Step>, m: nat, n: nat)
    requires IsRun(states, steps) && m <= n < |states| && states[m].io == Released
    ensures states[n].io != Usable && states[n].live.Keys <= states[m].live.Keys
    ensures forall k :: k in states[n].live ==> (SignalOut(states[n], k) <==> SignalOut(states[m], k))
    ensures forall k :: k in states[m].live && k !in states[n].live ==> SignalOut(states[m], k)
    ensures states[n].io == Misused <==> states[m].live.Keys != states[n].live.Keys
  {
    hide Enabled, Apply, Core, ReceivesOk, IoOk, SignalOut;
    if m < n {
      SignalsLeft(states, steps, m, n - 1);
      RunKeeps(states, steps, n - 1);
      IoStep(states[n - 1], steps[n - 1]);
    }
  }

  /** From any state in which the io is released and has not been used since, it
      is used exactly when the callable of a signal returns that has not yet:
      by nothing else, and it can be at once if there is one. */
  lemma IoUsedAfterRelease(states: seq<Ctx>, steps: seq<Step>, m: nat, n: nat)
    requires IsRun(states, steps) && m <= n < |states| && states[m].io == Released
    ensures states[n].io == Misused <==> exists id :: SignalOut(states[m], id) && id !in states[n].live
    ensures (exists id :: SignalOut(states[m], id)) <==>
              exists step :: Enabled(states[m], step) && Apply(states[m], step).io == Misused
  {
    hide Enabled, Apply, Inv;
    SignalsLeft(states, steps, m, n);
    NoSignal(states[m], states[n]);
    RunKeeps(states, steps, m);
    CanMisuse(states[m]);
  }

  lemma NoSignal(s: Ctx, u: Ctx)
    requires forall k :: k in s.live && k !in u.live ==> SignalOut(s, k)
    requires u.live.Keys <= s.live.Keys
    ensures s.live.Keys != u.live.Keys <==> exists id :: SignalOut(s, id) && id !in u.live
  {
    if forall k: nat :: k in s.live ==> k in u.live {
      assert s.live.Keys == u.live.Keys;
    }
  }

  lemma CanMisuse(s: Ctx)
    requires Inv(s) && s.io == Released
    ensures (exists id :: SignalOut(s, id)) <==> exists step :: Enabled(s, step) && Apply(s, step).io == Misused
  {
    hide Enabled, Apply, Core, ReceivesOk, IoOk;
    if step :| Enabled(s, step) && Apply(s, step).io == Misused {
      IoStep(s, step);
      NoSignal(s, Apply(s, step));
    }
    if id :| SignalOut(s, id) {
      var step := CallableDone(id, false, false, false);
      Returns(s, id);
      IoStep(s, step);
    }
  }

  lemma Returns(s: Ctx, id: nat)
    requires Inv(s) && s.io == Released && SignalOut(s, id)
    ensures var step := CallableDone(id, false, false, false); Enabled(s, step) && id !in Apply(s, step).live
  {
    hide Core, Goto, FinishRequest;
    var step := CallableDone(id, false, false, false);
    Untouched(s, step);
    ClosedGoto(CallableResult(s, step), id);
  }

  function SignalMade(closed: bool, io: Io): Ctx {
    Ctx(2, true, closed, 0, false, true, !closed, false, io,
        map[0 := Req(SIGNAL, SIGNAL, 0, 0, Ptr(0, 8), 0, 0, false, None, Call2, Callable)], 1, 0, [], [], map[])
  }

  lemma SignalReceived()
    ensures var step := Receive(SIGNAL, 0, 0, 0);
            Enabled(Started(true), step) && Apply(Started(true), step) == SignalMade(false, Usable)
  {
    hide FinishRequest, WriteResult;
  }

  lemma SignalCloses()
    ensures var s := SignalMade(false, Usable);
            Enabled(s, ReceiveError) && Apply(s, ReceiveError) == SignalMade(true, Usable)
    ensures var s := SignalMade(true, Usable); Enabled(s, IoFree) && Apply(s, IoFree) == SignalMade(true, Released)
  {
  }

  lemma SignalUses()
    ensures var s, step := SignalMade(true, Released), CallableDone(0, false, false, false);
            Enabled(s, step) && Apply(s, step).io == Misused
  {
    hide RunFinish, BufferOf;
    var s := SignalMade(true, Released);
    var a := CallableResult(s, CallableDone(0, false, false, false));
    assert a.io == Released && a.closed && 0 in a.live;
    FinishClosed(a, 0);
  }

  /** A signal's callable outlives the connection and its io. */
  lemma SignalExample()
    ensures exists states: seq<Ctx>, steps: seq<Step> ::
              && IsRun(states, steps) && |steps| == 4 && steps[1] == ReceiveError && steps[2] == IoFree
              && states[3].io == Released && states[4].io == Misused
  {
    hide Enabled, Apply, SignalMade;
    SignalReceived();
    SignalCloses();
    SignalUses();
    var steps := [Receive(SIGNAL, 0, 0, 0), ReceiveError, IoFree, CallableDone(0, false, false, false)];
    var a, b, c := SignalMade(false, Usable), SignalMade(true, Usable), SignalMade(true, Released);
    ReleasedIs();
    assert IsRun([Started(true), a, b, c, Apply(c, steps[3])], steps);
  }

  lemma ReleasedIs()
    ensures SignalMade(true, Released).io == Released && Started(true).prompt
  {
  }

  /** In every run every finisher a callable set runs at most once, has run by
      the time its request ends, and has run before the callable is next
      invoked on that request. */
  lemma FinishersRunOnce(states: seq<Ctx>, steps: seq<Step>, n: nat)
    requires IsRun(states, steps) && n < |states|
    ensures var s := states[n];
            && NoDup(s.ran)
            && (forall h :: 0 <= h < s.hooked ==> Accounted(h, s.ran, s.live))
            && forall id :: id in s.live && s.live[id].waits == Callable ==> s.live[id].onFinish == None
  {
    RunKeeps(states, steps, n);
    var s := states[n];
    assert forall h :: 0 <= h < s.hooked ==> Accounted(h, s.ran, s.live);
    forall id | id in s.live && s.live[id].waits == Callable ensures s.live[id].onFinish == None {
      assert ReqOk(id, s.live[id], s.taken, s.closed);
    }
  }

  /** In every run the session word of a live request is the one received, with
      the error bit flipped at most once, exactly when its result is rejected. */
  lemma ErrorBitOnce(states: seq<Ctx>, steps: seq<Step>, n: nat, id: nat)
    requires IsRun(states, steps) && n < |states| && id in states[n].live
    ensures var r := states[n].live[id]; r.session == if r.rejected then FlipTop(r.wire) else r.wire
    ensures var r := states[n].live[id]; r.waits == Callable ==> r.session == r.wire
  {
    RunKeeps(states, steps, n);
    assert ReqOk(id, states[n].live[id], states[n].taken, states[n].closed);
  }
}

/** The C server's functions as they are: request objects on the heap, left
    through the function their `next_step` points to, and freed at their end.

    Every method takes the state of the model it starts in and is proved to end
    in the one the model gives.  A method may use a request only while it is
    live, so a freed one is never touched again; and it modifies nothing but the
    context and the one request it is given. */
module CServerObject {
  import opened Prelude
  import opened Wire
  import opened CServer
  import opened CServerSafety

  /** `pxprpc_request`.  `first` is the word its parameter begins with; `freed`
      says that its memory has been given back. */
  class Request {
    ghost const id: nat
    ghost const wire: nat
    ghost const size: nat
    const first: int
    var session: nat
    var callableIndex: int
    var base: Ptr
    var length: int
    var rejected: bool
    var onFinish: Option<nat>
    var nextStep: Next
    ghost var waits: Waits
    ghost var freed: bool

    ghost function Value(): Req
      reads this
    {
      Req(wire, session, callableIndex, first, base, length, size, rejected, onFinish, nextStep, waits)
    }

    constructor (ghost id: nat, ghost size: nat, session: nat, first: int)
      ensures this.id == id && this.size == size && wire == this.session == session && this.first == first
      ensures base == NULL && length == 0 && !rejected && onFinish == None && waits == Nothing && !freed
    {
      this.id, this.size, wire, this.session, this.first := id, size, session, session, first;
      callableIndex, base, length, rejected, onFinish, nextStep := 0, NULL, 0, false, None, Finish;
      waits, freed := Nothing, false;
    }

    /** `prepareRequest`. */
    method Prepare()
      modifies this`rejected, this`onFinish, this`nextStep
      ensures Value() == old(Value()).(
                rejected := false, onFinish := None,
                next := if callableIndex >= -5 then First(callableIndex) else old(nextStep))
    {
      onFinish := None;
      rejected := false;
      if callableIndex >= 0 {
        nextStep := Call1;
      } else {
        match -callableIndex {
          case 1 => nextStep := GetFunc1;
          case 2 => nextStep := FreeRef1;
          case 3 => nextStep := Close1;
          case 4 => nextStep := GetInfo1;
          case 5 => nextStep := Poll1;
          case _ =>
        }
      }
    }

    /** The error bit of the session word, flipped in place. */
    method MarkRejected()
      modifies this`session
      ensures session == if rejected then FlipTop(old(session)) else old(session)
    {
      if rejected {
        session := FlipTop(session);
      }
    }

    /** What a callable does to the request before it calls `next_step`. */
    method SetResult(rejected: bool, hook: Option<nat>, takes: bool)
      modifies this`rejected, this`onFinish, this`base
      ensures Value() == old(Value()).(
                rejected := rejected, onFinish := if hook.Some? then hook else old(onFinish),
                base := if takes then NULL else old(base))
    {
      this.rejected := rejected;
      if hook.Some? {
        onFinish := hook;
      }
      if takes {
        base := NULL;
      }
    }
  }

  /** The server context.  `ran` and `bufFreed` log the finishers run and what
      was given to `buf_free`; `live` are the requests not yet freed. */
  class ServCo {
    const prompt: bool
    var refCount: int
    var closed: bool
    var sendError: bool
    var hooked: nat
    var ran: seq<nat>
    var bufFreed: seq<Ptr>
    ghost var owned: bool
    ghost var released: nat
    ghost var receiving: bool
    ghost var touched: bool
    ghost var io: Io
    ghost var live: map<nat, Request>
    ghost var received: nat
    ghost var taken: map<nat, bool>

    ghost predicate Head(s: Ctx)
      reads this`refCount, this`owned, this`closed, this`released, this`sendError, this`receiving, this`touched
      reads this`received, this`hooked, this`ran, this`bufFreed, this`taken, this`io
    {
      && s.refCount == refCount && s.owned == owned && s.closed == closed && s.released == released
      && s.sendError == sendError && s.prompt == prompt && s.receiving == receiving && s.touched == touched
      && s.received == received && s.hooked == hooked && s.ran == ran && s.freed == bufFreed
      && s.taken == taken && s.io == io
    }

    ghost predicate Requests(m: map<nat, Req>)
      reads this`live, live.Values
    {
      && live.Keys == m.Keys
      && forall id :: id in live ==> live[id].id == id && !live[id].freed && live[id].Value() == m[id]
    }

    /** The context and its requests are in state `s` of the model. */
    ghost predicate Is(s: Ctx)
      reads this, live.Values
    {
      Head(s) && Requests(s.live)
    }

    ghost predicate Holds(r: Request)
      reads this
    {
      r.id in live && live[r.id] == r
    }

    /** All live requests but `r` are as in `m`. */
    ghost predicate Others(r: Request, m: map<nat, Req>)
      reads this`live, live.Values - {r}
    {
      && live.Keys == m.Keys
      && forall id :: id in live && id != r.id ==>
           live[id] != r && live[id].id == id && !live[id].freed && live[id].Value() == m[id]
    }

    lemma Apart(r: Request, m: map<nat, Req>)
      requires Requests(m)
      ensures Others(r, m)
    {
    }

    lemma Together(r: Request, m: map<nat, Req>)
      requires Others(r, m) && Holds(r) && !r.freed
      ensures Requests(m[r.id := r.Value()])
    {
    }

    lemma HeadLive(v: Ctx, m: map<nat, Req>)
      requires Head(v)
      ensures Head(v.(live := m))
    {
    }

    /** A request just made joins the live ones. */
    ghost method Insert(r: Request, v: Ctx)
      requires Is(v) && r.id == received && r.id !in live && r !in live.Values && !r.freed
      modifies this`live, this`received
      ensures live == old(live)[r.id := r]
      ensures Is(Put(v, r.id, r.Value()).(received := v.received + 1))
    {
      live := live[r.id := r];
      received := received + 1;
    }

    lemma Fields(v: Ctx)
      requires Is(v)
      ensures received == v.received && live.Keys == v.live.Keys && receiving == v.receiving && closed == v.closed
      ensures refCount == v.refCount && released == v.released && bufFreed == v.freed
    {
    }

    lemma Live(r: Request, v: Ctx)
      requires Is(v) && Holds(r)
      ensures r.id in v.live && v.live[r.id] == r.Value() && !r.freed
    {
    }

    /** `server_new` and `server_start`. */
    constructor (prompt: bool)
      ensures Is(Started(prompt))
    {
      this.prompt := prompt;
      refCount, owned, closed, released, sendError, receiving, touched := 1, true, false, 0, false, true, false;
      io := Usable;
      live, received, hooked, ran, bufFreed, taken := map[], 0, 0, [], [], map[];
    }

    method RefCountAdd(addend: int, ghost v: Ctx)
      requires Is(v)
      modifies this`refCount, this`released
      ensures Is(RefAdd(v, addend))
    {
      hide Requests;
      assert RefAdd(v, addend).live == v.live;
      refCount := refCount + addend;
      if refCount == 0 {
        released := released + 1;
      }
    }

    method CloseServer(ghost v: Ctx)
      requires Is(v)
      modifies this`closed, this`receiving
      ensures Is(ServerClose(v))
    {
      hide Requests;
      if closed { return; }
      closed := true;
      receiving := receiving && !prompt;
    }

    method RunHook(r: Request, ghost v: Ctx)
      requires Is(v) && Holds(r)
      modifies this`ran
      ensures Is(RunFinish(v, r.Value()))
    {
      hide Requests;
      if r.onFinish.Some? {
        ran := ran + [r.onFinish.value];
      }
    }

    method FreeBuffer(r: Request, ghost v: Ctx)
      requires Is(v) && Holds(r)
      modifies this`bufFreed
      ensures Is(v.(freed := v.freed + BufferOf(r.Value())))
    {
      hide Requests;
      if r.base != NULL {
        bufFreed := bufFreed + [Moved(r.base, -8)];
      }
    }

    /** The request leaves the live ones and its memory is given back. */
    ghost method Drop(r: Request, v: Ctx)
      requires Is(v) && Holds(r)
      modifies this`live, r`freed
      ensures Is(v.(live := v.live - {r.id})) && r.freed && live == old(live) - {r.id}
    {
      hide Head;
      HeadLive(v, v.live - {r.id});
      live := live - {r.id};
      r.freed := true;
    }

    /** `finishRequest`: the request is freed last. */
    method DoFinishRequest(r: Request, ghost v: Ctx)
      requires Is(v) && Holds(r)
      modifies this, r
      ensures Is(FinishRequest(v, r.id)) && r.freed && live == old(live) - {r.id}
      ensures refCount == old(refCount) - 1 && (released > old(released) <==> refCount == 0)
      ensures bufFreed == old(bufFreed) + BufferOf(old(r.Value())) && (old(closed) ==> closed)
    {
      hide Is, RefAdd, RunFinish, CloseOnError, FinishRequest, BufferOf;
      Live(r, v);
      Fields(v);
      CloseIfError(v);
      ghost var a := CloseOnError(v);
      RunHook(r, a);
      a := RunFinish(a, r.Value());
      FreeBuffer(r, a);
      a := a.(freed := a.freed + BufferOf(r.Value()));
      Drop(r, a);
      RefCountAdd(-1, a.(live := a.live - {r.id}));
      FinishSteps(v, r.id);
      FinishResult(v, r.id);
      Fields(FinishRequest(v, r.id));
    }

    /** A send that failed closes the server. */
    method CloseIfError(ghost v: Ctx)
      requires Is(v)
      modifies this`closed, this`receiving, this`io
      ensures Is(CloseOnError(v)) && (closed <==> CloseOnError(v).closed)
    {
      hide Requests;
      io := if io == Released then Misused else io;
      if sendError {
        CloseServer(UseIo(v));
      }
    }

    /** The fields `step2` sets on a new request. */
    method Make(recvBuf: nat, session: nat, index: int, length: nat, first: int) returns (r: Request)
      requires recvBuf == received && index >= -5
      ensures fresh(r) && r.id == received && !r.freed && r.Value() == Made(received, session, index, length, first)
    {
      r := new Request(received, length, session, first);
      r.callableIndex := index;
      r.base := Ptr(recvBuf, 8);
      r.length := length;
      r.Prepare();
    }

    /** `newRequest`: the context gains a reference. */
    method NewReq(recvBuf: nat, session: nat, index: int, length: nat, first: int, ghost v: Ctx) returns (r: Request)
      requires Is(v) && recvBuf == received && received !in live && index >= -5
      modifies this
      ensures fresh(r) && r.id == old(received) && live == old(live)[r.id := r]
      ensures Is(NewRequest(v, session, index, length, first))
    {
      hide Is, RefAdd, Made, NewRequest;
      Fields(v);
      RefCountAdd(1, v);
      r := Make(recvBuf, session, index, length, first);
      NewRequestIs(v, session, index, length, first);
      Insert(r, RefAdd(v, 1));
    }

    method DoWriteResult(r: Request, ghost v: Ctx)
      requires Is(v) && Holds(r)
      modifies r
      ensures Is(WriteResult(v, r.id, r.nextStep)) && r.nextStep == old(r.nextStep)
    {
      hide Requests, Others;
      Live(r, v);
      Apart(r, v.live);
      r.MarkRejected();
      r.waits := if closed then Nothing else Sending;
      Together(r, v.live);
    }

    /** The callable is called, and will go on to `nextStep` in its own time. */
    method DoStepCall1(r: Request, ghost v: Ctx)
      requires Is(v) && Holds(r) && !r.rejected && r.onFinish == None
      modifies r
      ensures Is(Invoke(v, r.id, v.live[r.id], Call2))
    {
      hide Requests, Others;
      Live(r, v);
      Apart(r, v.live);
      r.nextStep := Call2;
      r.waits := Callable;
      Together(r, v.live);
    }

    method DoStepCall2(r: Request, ghost v: Ctx)
      requires Is(v) && Holds(r)
      modifies this, r
      ensures Is(StepCall2(v, r.id))
    {
      hide FinishRequest, Requests, Others;
      Live(r, v);
      Apart(r, v.live);
      if r.session != SIGNAL {
        r.nextStep := Finish;
        Together(r, v.live);
        ghost var q := r.Value();
        DoWriteResult(r, Put(v, r.id, q));
        WriteResultPut(v, r.id, q);
      } else {
        DoFinishRequest(r, v);
      }
    }

    method DoStepPoll1(r: Request, ghost v: Ctx)
      requires Is(v) && Holds(r) && r.first >= 0
      modifies r
      ensures Is(StepPoll1(v, r.id))
    {
      hide Requests, Others;
      Live(r, v);
      Apart(r, v.live);
      r.callableIndex := r.first;
      r.base := Moved(r.base, 4);
      r.length := r.length - 4;
      r.Prepare();
      r.nextStep := Poll2;
      r.waits := Callable;
      Together(r, v.live);
    }

    method DoStepPoll2(r: Request, ghost v: Ctx)
      requires Is(v) && Holds(r)
      modifies r
      ensures Is(WriteResult(v, r.id, Poll3))
    {
      hide Requests, Others;
      Live(r, v);
      Apart(r, v.live);
      r.nextStep := Poll3;
      Together(r, v.live);
      ghost var q := r.Value();
      DoWriteResult(r, Put(v, r.id, q));
      WriteResultPut(v, r.id, q);
    }

    /** The parameter is put back before the request ends. */
    method EndPoll(r: Request, ghost v: Ctx)
      requires Is(v) && Holds(r)
      modifies this, r
      ensures old(closed) ==> closed
      ensures r.freed && bufFreed == old(bufFreed) + BufferOf(PutBack(old(r.Value())))
      ensures Is(FinishRequest(Put(v, r.id, PutBack(v.live[r.id])), r.id))
    {
      hide FinishRequest, Requests, Others;
      Live(r, v);
      Apart(r, v.live);
      r.callableIndex := -5;
      r.base := Moved(r.base, -4);
      r.length := r.length + 4;
      Together(r, v.live);
      DoFinishRequest(r, Put(v, r.id, r.Value()));
    }

    method NextRound(r: Request, ghost v: Ctx)
      requires Is(v) && Holds(r)
      modifies this`ran, r
      ensures !r.freed && r.base == old(r.base) && r.nextStep == Poll2 && r.waits == Callable && r.onFinish == None
      ensures Is(Invoke(RunFinish(v, v.live[r.id]), r.id, v.live[r.id], Poll2))
    {
      hide Requests, Others, Head, RunFinish;
      Live(r, v);
      Apart(r, v.live);
      RunFinishPut(v, r.id, r.Value());
      RunHook(r, v);
      ghost var a := RunFinish(v, r.Value());
      r.Prepare();
      r.nextStep := Poll2;
      r.waits := Callable;
      Together(r, v.live);
      HeadPut(a, r.id, r.Value());
    }

    /** Between two rounds of a poll, or its end. */
    method DoStepPoll3(r: Request, ghost v: Ctx)
      requires Is(v) && Holds(r)
      modifies this, r
      ensures Is(StepPoll3(v, r.id))
      ensures r.freed <==> old(r.rejected) || closed
      ensures r.freed && (old(r.base).Ptr? || old(r.base) == NULL) ==>
                bufFreed == old(bufFreed) + [Moved(old(r.base), -12)]
      ensures !r.freed ==> r.base == old(r.base) && r.nextStep == Poll2 && r.waits == Callable && r.onFinish == None
    {
      hide Is, FinishRequest, Invoke, RunFinish;
      Live(r, v);
      CloseIfError(v);
      ghost var a := CloseOnError(v);
      CloseOnErrorPut(v, r.id, v.live[r.id]);
      if r.rejected || closed {
        EndPoll(r, a);
      } else {
        NextRound(r, a);
      }
    }

    /** `r->next_step(r)`. */
    method NextStep(r: Request, ghost v: Ctx)
      requires Is(v) && Holds(r)
      requires r.nextStep == Poll1 ==> r.first >= 0
      requires r.nextStep == Call1 ==> !r.rejected && r.onFinish == None
      modifies this, r
      ensures Is(Goto(v, r.id))
    {
      hide FinishRequest, StepPoll1, StepPoll3, StepCall2, WriteResult, Invoke, Requests, Head;
      Live(r, v);
      match r.nextStep {
        case Call1 => DoStepCall1(r, v);
        case Close1 => CloseServer(v);
        case Poll1 => DoStepPoll1(r, v);
        case Poll2 => DoStepPoll2(r, v);
        case Poll3 => DoStepPoll3(r, v);
        case Finish => DoFinishRequest(r, v);
        case _ => DoStepCall2(r, v);
      }
    }

    /** `step1`. */
    method DoStep1(ghost v: Ctx)
      requires Is(v) && !receiving
      modifies this`receiving
      ensures Is(Step1(v))
    {
      hide Requests;
      if closed { return; }
      receiving := true;
    }

    // ---------- what io, callables and the owner call ----------

    /** Every entry is on the context, released or not. */
    ghost method Enter(v: Ctx)
      requires Is(v)
      modifies this`touched
      ensures Is(Touch(v))
    {
      hide Requests;
      touched := touched || released > 0;
    }

    /** The receive is no longer outstanding. */
    ghost method EndReceive(v: Ctx)
      requires Is(v)
      modifies this`receiving
      ensures Is(v.(receiving := false))
    {
      hide Requests;
      receiving := false;
    }

    /** `step2` on a buffer received without error. */
    method OnReceive(recvBuf: nat, session: nat, index: int, length: nat, first: int, ghost v: Ctx)
      requires Is(v) && Inv(v) && recvBuf == received && Enabled(v, Receive(session, index, length, first))
      modifies this
      ensures var u := Apply(v, Receive(session, index, length, first)); Is(u) && Inv(u)
    {
      hide Is, Core, Goto, ReceivesOk, IoOk;
      StepKeeps(v, Receive(session, index, length, first));
      Facts(v);
      Enter(v);
      EndReceive(Touch(v));
      ghost var a := Touch(v).(receiving := false);
      Fields(a);
      var r := NewReq(recvBuf, session, index, length, first, a);
      ghost var b := NewRequest(a, session, index, length, first);
      Live(r, b);
      NextStep(r, b);
      GotoReceives(b, r.id);
      Fields(Goto(b, r.id));
      DoStep1(Goto(b, r.id));
    }

    /** `step2` when the receive has failed. */
    method OnReceiveError(ghost v: Ctx)
      requires Is(v) && Inv(v) && Enabled(v, ReceiveError)
      modifies this
      ensures Is(Apply(v, ReceiveError)) && Inv(Apply(v, ReceiveError))
    {
      hide Is, Core, ReceivesOk, IoOk;
      StepKeeps(v, ReceiveError);
      Enter(v);
      EndReceive(Touch(v));
      CloseServer(Touch(v).(receiving := false));
    }

    /** `step2` on a context closed meanwhile. */
    ghost method OnReceiveLate(v: Ctx)
      requires Is(v) && Inv(v) && Enabled(v, ReceiveLate)
      modifies this
      ensures Is(Apply(v, ReceiveLate)) && Inv(Apply(v, ReceiveLate))
    {
      hide Is, Core, ReceivesOk, IoOk;
      StepKeeps(v, ReceiveLate);
      Enter(v);
      EndReceive(Touch(v));
    }

    /** The io is released by the program that made it. */
    ghost method OnIoFree(v: Ctx)
      requires Is(v) && Inv(v) && Enabled(v, IoFree)
      modifies this
      ensures Is(Apply(v, IoFree)) && Inv(Apply(v, IoFree))
    {
      hide Requests, Core, ReceivesOk, IoOk;
      StepKeeps(v, IoFree);
      io := Released;
    }

    /** A callable sets its results and calls `next_step`. */
    method OnCallableDone(r: Request, rejected: bool, hooks: bool, takes: bool, ghost v: Ctx)
      requires Is(v) && Inv(v) && Holds(r) && Enabled(v, CallableDone(r.id, rejected, hooks, takes))
      modifies this, r
      ensures var u := Apply(v, CallableDone(r.id, rejected, hooks, takes)); Is(u) && Inv(u)
    {
      hide Is, Core, Goto, ReceivesOk, IoOk;
      ghost var step := CallableDone(r.id, rejected, hooks, takes);
      StepKeeps(v, step);
      Live(r, v);
      Enter(v);
      CallableEffect(r, rejected, hooks, takes, Touch(v));
      ghost var a := CallableResult(Touch(v), step);
      Live(r, a);
      NextStep(r, a);
    }

    method NewHook(hooks: bool, ghost v: Ctx) returns (hook: Option<nat>)
      requires Is(v)
      modifies this`hooked
      ensures hook == if hooks then Some(v.hooked) else None
      ensures Is(v.(hooked := if hooks then v.hooked + 1 else v.hooked))
    {
      hide Requests;
      hook := None;
      if hooks {
        hook := Some(hooked);
        hooked := hooked + 1;
      }
    }

    /** The callable keeps the buffer. */
    ghost method Keep(r: Request, takes: bool, v: Ctx)
      requires Is(v)
      modifies this`taken
      ensures Is(v.(taken := if takes && r.base != NULL then v.taken[r.id := IsPoll(r.Value())] else v.taken))
    {
      hide Requests;
      if takes && r.base != NULL {
        taken := taken[r.id := IsPoll(r.Value())];
      }
    }

    lemma HeadPut(v: Ctx, id: nat, q: Req)
      requires Head(v)
      ensures Head(Put(v, id, q))
    {
    }

    method CallableEffect(r: Request, rejected: bool, hooks: bool, takes: bool, ghost v: Ctx)
      requires Is(v) && Holds(r) && Enabled(v, CallableDone(r.id, rejected, hooks, takes))
      modifies this`hooked, this`taken, r`rejected, r`onFinish, r`base
      ensures Is(CallableResult(v, CallableDone(r.id, rejected, hooks, takes)))
    {
      hide Is, Requests, Others, Head, CallableResult, Enabled;
      CallableResultIs(v, CallableDone(r.id, rejected, hooks, takes));
      Live(r, v);
      Keep(r, takes, v);
      ghost var a := v.(taken := if takes && r.base != NULL then v.taken[r.id := IsPoll(r.Value())] else v.taken);
      var hook := NewHook(hooks, a);
      a := a.(hooked := if hooks then a.hooked + 1 else a.hooked);
      SetResultOf(r, rejected, hook, takes, a);
    }

    method SetResultOf(r: Request, rejected: bool, hook: Option<nat>, takes: bool, ghost v: Ctx)
      requires Is(v) && Holds(r)
      modifies r`rejected, r`onFinish, r`base
      ensures r.id in v.live
      ensures var q := v.live[r.id];
              Is(Put(v, r.id, q.(
                rejected := rejected, onFinish := if hook.Some? then hook else q.onFinish,
                base := if takes then NULL else q.base)))
    {
      hide Requests, Others, Head;
      Live(r, v);
      Apart(r, v.live);
      r.SetResult(rejected, hook, takes);
      Together(r, v.live);
      HeadPut(v, r.id, r.Value());
    }

    /** A send has completed and calls `next_step`. */
    method OnSendDone(r: Request, error: bool, ghost v: Ctx)
      requires Is(v) && Inv(v) && Holds(r) && Enabled(v, SendDone(r.id, error))
      modifies this, r
      ensures Is(Apply(v, SendDone(r.id, error))) && Inv(Apply(v, SendDone(r.id, error)))
      ensures closed <==> old(closed) || error
      ensures r.id in live <==> old(r.nextStep) == Poll3 && !old(r.rejected) && !closed
    {
      hide Is, Core, Goto, ReceivesOk, IoOk, Apply;
      SendDoneStep(v, r.id, error);
      SendDoneIs(v, r.id, error);
      Fields(v);
      StepKeeps(v, SendDone(r.id, error));
      Live(r, v);
      Enter(v);
      ghost var a := Touch(v).(sendError := error);
      SetSendError(error, Touch(v));
      Live(r, a);
      NextStep(r, a);
      Fields(Apply(v, SendDone(r.id, error)));
    }

    method SetSendError(error: bool, ghost v: Ctx)
      requires Is(v)
      modifies this`sendError
      ensures Is(v.(sendError := error))
    {
      hide Requests;
      sendError := error;
    }

    /** `server_delete`. */
    method DeleteServer(ghost v: Ctx)
      requires Is(v) && Inv(v) && owned
      modifies this
      ensures v.owned && Is(Apply(v, Delete)) && Inv(Apply(v, Delete))
    {
      hide Requests, Core, ReceivesOk, IoOk;
      StepKeeps(v, Delete);
      Enter(v);
      CloseServer(Touch(v));
      owned := false;
      RefCountAdd(-1, ServerClose(Touch(v)).(owned := false));
    }
  }

  lemma NewRequestIs(v: Ctx, session: nat, index: int, length: nat, first: int)
    ensures var id := v.received;
            var a := RefAdd(v, 1);
            && NewRequest(v, session, index, length, first)
                 == Put(a, id, Made(id, session, index, length, first)).(received := a.received + 1)
            && a.received == v.received
  {
  }

  lemma CallableResultIs(v: Ctx, step: Step)
    requires step.CallableDone? && Enabled(v, step)
    ensures var r := v.live[step.id];
            var a := v.(taken := if step.takes && r.base != NULL then v.taken[step.id := IsPoll(r)] else v.taken).(
              hooked := if step.hooks then v.hooked + 1 else v.hooked);
            && a.live == v.live
            && CallableResult(v, step) ==
                 Put(a, step.id, r.(
                   rejected := step.rejected, onFinish := if step.hooks then Some(v.hooked) else r.onFinish,
                   base := if step.takes then NULL else r.base))
  {
  }

  lemma SendDoneIs(v: Ctx, id: nat, error: bool)
    requires Enabled(v, SendDone(id, error))
    ensures id in Touch(v).live && Apply(v, SendDone(id, error)) == Goto(Touch(v).(sendError := error), id)
    ensures IsPoll(v.live[id]) <==> v.live[id].next == Poll3
  {
  }

  lemma FinishSteps(v: Ctx, id: nat)
    requires id in v.live
    ensures var a := RunFinish(CloseOnError(v), v.live[id]);
            FinishRequest(v, id) == RefAdd(a.(freed := a.freed + BufferOf(v.live[id]), live := a.live - {id}), -1)
  {
    hide RefAdd;
    CloseOnErrorPut(v, id, v.live[id]);
    RunFinishPut(CloseOnError(v), id, v.live[id]);
    var a := RunFinish(CloseOnError(v), v.live[id]);
    assert a.freed + [] == a.freed;
  }

  lemma CloseOnErrorSame(s: Ctx)
    ensures var u := CloseOnError(s);
            && u.refCount == s.refCount && u.released == s.released && u.freed == s.freed && (s.closed ==> u.closed)
  {
    hide ServerClose;
    CloseSame(s);
    CloseSame(UseIo(s));
  }

  lemma CloseSame(s: Ctx)
    ensures var u := ServerClose(s);
            && u.refCount == s.refCount && u.released == s.released && u.freed == s.freed && (s.closed ==> u.closed)
  {
  }

  lemma RunFinishSame(s: Ctx, r: Req)
    ensures var u := RunFinish(s, r);
            && u.refCount == s.refCount && u.released == s.released && u.freed == s.freed && u.closed == s.closed
  {
  }

  lemma FinishResult(v: Ctx, id: nat)
    requires id in v.live
    ensures var u := FinishRequest(v, id);
            && u.refCount == v.refCount - 1 && u.released == (if v.refCount == 1 then v.released + 1 else v.released)
            && u.freed == v.freed + BufferOf(v.live[id]) && (v.closed ==> u.closed)
  {
    hide FinishRequest, RunFinish, CloseOnError, BufferOf;
    FinishSteps(v, id);
    CloseOnErrorSame(v);
    RunFinishSame(CloseOnError(v), v.live[id]);
  }

  lemma WriteResultPut(v: Ctx, id: nat, q: Req)
    requires id in v.live && q == v.live[id].(next := q.next)
    ensures WriteResult(Put(v, id, q), id, q.next) == WriteResult(v, id, q.next)
  {
    hide FlipTop;
    var w := WriteResult(v, id, q.next).live[id];
    assert v.live[id := q][id := w] == v.live[id := w];
  }
}

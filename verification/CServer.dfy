/** The C server's requests: continuation pointers, a reference-counted context
    and polls that shift the parameter pointer and put it back.

    Completions of callables, of sends and of the receive are steps of their
    own.  A request whose send is skipped because the context is closed, and a
    close request, stay live for good, as in the code. */
module CServer {
  import opened Prelude
  import opened Wire

  /** The functions a request's `next_step` can point to. */
  datatype Next = Call1 | GetFunc1 | FreeRef1 | Close1 | GetInfo1 | Poll1 | Call2 | Finish | Poll2 | Poll3

  /** What a request waits for: its callable, its send, or nothing ever again. */
  datatype Waits = Callable | Sending | Nothing

  /** An address: in the buffer that `receive` delivered for request `buf`, or in
      none, as what null gives when it is moved. */
  datatype Ptr = Ptr(buf: nat, off: int) | Stray(off: int)

  const NULL := Stray(0)

  function Moved(p: Ptr, d: int): Ptr { p.(off := p.off + d) }

  /** `wire` is the session word received and `first` the first word of the
      parameter; `base` is null once the callable has kept the buffer;
      `onFinish` names the finisher set by the last callable invocation.  `size`
      is the parameter length as received. */
  datatype Req = Req(
    wire: nat, session: nat, index: int, first: int, base: Ptr, length: int, size: nat,
    rejected: bool, onFinish: Option<nat>, next: Next, waits: Waits)

  /** The io, until the program releases it and after that. */
  datatype Io = Usable | Released | Misused

  /** `hooked` counts the finishers callable invocations have set, which are
      named by that count, and `ran` lists those run; `freed` is what was given
      to `buf_free`, `taken` the requests whose callable kept the buffer,
      and whether they are polls.  `prompt` says that the io completes an
      outstanding receive before its `close` returns; `receiving` that a receive
      is outstanding; `touched` that a step has used the context after its
      release; `io` whether the io was released, and used after that. */
  datatype Ctx = Ctx(
    refCount: int, owned: bool, closed: bool, released: nat, sendError: bool,
    prompt: bool, receiving: bool, touched: bool, io: Io,
    live: map<nat, Req>, received: nat,
    hooked: nat, ran: seq<nat>, freed: seq<Ptr>, taken: map<nat, bool>)

  /** A server just started, with its first receive outstanding. */
  function Started(prompt: bool): Ctx {
    Ctx(1, true, false, 0, false, prompt, true, false, Usable, map[], 0, 0, [], [], map[])
  }

  // ---------- the functions of the server ----------

  /** Releases the context when the count reaches zero. */
  function RefAdd(s: Ctx, d: int): Ctx {
    s.(refCount := s.refCount + d, released := if s.refCount + d == 0 then s.released + 1 else s.released)
  }

  /** The io is closed, once; a prompt one completes the receive at once, with
      a `step2` that finds the context closed. */
  function ServerClose(s: Ctx): Ctx {
    if s.closed then s else s.(closed := true, receiving := s.receiving && !s.prompt)
  }

  /** The io is used: the only use the code makes of it without looking whether
      the context is closed. */
  function UseIo(s: Ctx): Ctx { if s.io == Released then s.(io := Misused) else s }

  /** The io is asked whether a send has failed. */
  function CloseOnError(s: Ctx): Ctx { if s.sendError then ServerClose(UseIo(s)) else UseIo(s) }

  function Put(s: Ctx, id: nat, r: Req): Ctx { s.(live := s.live[id := r]) }

  function RunFinish(s: Ctx, r: Req): Ctx {
    if r.onFinish.Some? then s.(ran := s.ran + [r.onFinish.value]) else s
  }

  /** `prepareRequest` followed by a call of the callable. */
  function Invoke(s: Ctx, id: nat, r: Req, next: Next): Ctx {
    Put(s, id, r.(rejected := false, onFinish := None, next := next, waits := Callable))
  }

  /** What is given to `buf_free` for a request. */
  function BufferOf(r: Req): seq<Ptr> {
    if r.base == NULL then [] else [Moved(r.base, -8)]
  }

  function FinishRequest(s: Ctx, id: nat): Ctx
    requires id in s.live
  {
    var r := s.live[id];
    var a := RunFinish(CloseOnError(s), r);
    RefAdd(a.(freed := a.freed + BufferOf(r), live := a.live - {id}), -1)
  }

  /** The error bit is flipped in place; a closed context sends nothing. */
  function WriteResult(s: Ctx, id: nat, next: Next): Ctx
    requires id in s.live
  {
    var r := s.live[id];
    Put(s, id, r.(session := if r.rejected then FlipTop(r.session) else r.session, next := next,
                  waits := if s.closed then Nothing else Sending))
  }

  function StepCall2(s: Ctx, id: nat): Ctx
    requires id in s.live
  {
    if s.live[id].session != SIGNAL then WriteResult(s, id, Finish) else FinishRequest(s, id)
  }

  function StepPoll1(s: Ctx, id: nat): Ctx
    requires id in s.live
  {
    var r := s.live[id];
    Invoke(s, id, r.(index := r.first, base := Moved(r.base, 4), length := r.length - 4), Poll2)
  }

  /** The parameter is put back before the request ends, also when it is null. */
  function PutBack(r: Req): Req {
    r.(index := -5, base := Moved(r.base, -4), length := r.length + 4)
  }

  function StepPoll3(s: Ctx, id: nat): Ctx
    requires id in s.live
  {
    var a := CloseOnError(s);
    var r := a.live[id];
    if r.rejected || a.closed then
      FinishRequest(Put(a, id, PutBack(r)), id)
    else
      Invoke(RunFinish(a, r), id, r, Poll2)
  }

  /** A jump through the request's `next_step`. */
  function Goto(s: Ctx, id: nat): Ctx
    requires id in s.live
  {
    match s.live[id].next
    case Call1 => Invoke(s, id, s.live[id], Call2)
    case Close1 => ServerClose(s)
    case Poll1 => StepPoll1(s, id)
    case Poll2 => WriteResult(s, id, Poll3)
    case Poll3 => StepPoll3(s, id)
    case Finish => FinishRequest(s, id)
    case _ => StepCall2(s, id)
  }

  // ---------- steps ----------

  /** `ReceiveLate` is the completion of a receive on a closed context, `IoFree`
      the release of a closed io that has completed what it was asked for. */
  datatype Step =
    | Receive(session: nat, index: int, length: nat, first: int)
    | ReceiveError
    | ReceiveLate
    | CallableDone(id: nat, rejected: bool, hooks: bool, takes: bool)
    | SendDone(id: nat, error: bool)
    | Delete
    | IoFree

  predicate Enabled(s: Ctx, step: Step) {
    match step
    case Receive(session, index, length, first) =>
      s.receiving && !s.closed && session < TWO32 && -5 <= index && (index == -5 ==> length >= 4 && first >= 0)
    case ReceiveError => s.receiving && !s.closed
    case ReceiveLate => s.receiving && s.closed
    case CallableDone(id, _, _, _) =>
      id in s.live && s.live[id].waits == Callable && (s.live[id].next == Call2 || s.live[id].next == Poll2)
    case SendDone(id, _) =>
      id in s.live && s.live[id].waits == Sending && (s.live[id].next == Finish || s.live[id].next == Poll3)
    case Delete => s.owned
    case IoFree =>
      s.closed && s.io == Usable && !s.receiving && forall id :: id in s.live ==> s.live[id].waits != Sending
  }

  /** What `prepareRequest` makes `next_step` point to. */
  function First(index: int): Next {
    if index >= 0 then Call1
    else if index == -1 then GetFunc1
    else if index == -2 then FreeRef1
    else if index == -3 then Close1
    else if index == -4 then GetInfo1
    else Poll1
  }

  function Made(id: nat, session: nat, index: int, length: nat, first: int): Req {
    Req(session, session, index, first, Ptr(id, 8), length, length, false, None, First(index), Nothing)
  }

  predicate IsPoll(r: Req) { r.next in {Poll1, Poll2, Poll3} }

  function NewRequest(s: Ctx, session: nat, index: int, length: nat, first: int): Ctx {
    RefAdd(Put(s, s.received, Made(s.received, session, index, length, first)).(received := s.received + 1), 1)
  }

  /** The callable's own effect before it calls `next_step`. */
  function CallableResult(s: Ctx, step: Step): Ctx
    requires step.CallableDone? && Enabled(s, step)
  {
    var r := s.live[step.id];
    Put(s, step.id,
        r.(rejected := step.rejected,
           onFinish := if step.hooks then Some(s.hooked) else r.onFinish,
           base := if step.takes then NULL else r.base)).(
      hooked := if step.hooks then s.hooked + 1 else s.hooked,
      taken := if step.takes && r.base != NULL then s.taken[step.id := IsPoll(r)] else s.taken)
  }

  /** `step1`: a receive is started unless the context is closed. */
  function Step1(s: Ctx): Ctx { s.(receiving := !s.closed) }

  /** A step that begins on a released context uses freed memory. */
  function Touch(s: Ctx): Ctx { s.(touched := s.touched || s.released > 0) }

  /** `step2` without an error: the request is made, jumps and the next receive
      is started. */
  function Received(s: Ctx, session: nat, index: int, length: nat, first: int): Ctx {
    Step1(Goto(NewRequest(s.(receiving := false), session, index, length, first), s.received))
  }

  function Apply(s: Ctx, step: Step): Ctx
    requires Enabled(s, step)
  {
    var t := Touch(s);
    match step
    case Receive(session, index, length, first) => Received(t, session, index, length, first)
    case ReceiveError => ServerClose(t.(receiving := false))
    case ReceiveLate => t.(receiving := false)
    case CallableDone(id, _, _, _) => Goto(CallableResult(t, step), id)
    case SendDone(id, error) => Goto(t.(sendError := error), id)
    case Delete => RefAdd(ServerClose(t).(owned := false), -1)
    case IoFree => s.(io := Released)
  }

  // ---------- the invariant ----------

  /** Where a live request's parameter pointer is, and what its session word
      and finisher look like while it waits. */
  predicate ReqOk(id: nat, r: Req, taken: map<nat, bool>, closed: bool) {
    && r.wire < TWO32
    && (id in taken ==> taken[id] == IsPoll(r))
    && r.length == (if IsPoll(r) then r.size - 4 else r.size) && (IsPoll(r) ==> r.index == r.first)
    && r.base == (if id in taken then NULL else Ptr(id, if IsPoll(r) then 12 else 8))
    && match r.waits
       case Callable =>
         (r.next == Call2 || r.next == Poll2) && r.session == r.wire && !r.rejected && r.onFinish == None
       case Sending =>
         (r.next == Finish || r.next == Poll3) && r.session == if r.rejected then FlipTop(r.wire) else r.wire
       case Nothing => closed && r.session == if r.rejected then FlipTop(r.wire) else r.wire
  }

  ghost predicate ReqsOk(s: Ctx) {
    forall id :: id in s.live ==> id < s.received && ReqOk(id, s.live[id], s.taken, s.closed)
  }

  ghost predicate Counted(s: Ctx) {
    && s.refCount == |s.live| + (if s.owned then 1 else 0)
    && s.released == (if s.refCount == 0 then 1 else 0)
    && (!s.owned ==> s.closed)
  }

  /** A receive is outstanding while the context is open, and after a close
      only if the io is not prompt; a context used after its release had one. */
  predicate ReceivesOk(s: Ctx) {
    && (!s.closed ==> s.receiving)
    && (s.closed && s.prompt ==> !s.receiving)
    && (s.touched ==> s.released > 0 && !s.receiving && !s.prompt)
  }

  /** How many of the addresses lie in no buffer. */
  function Strays(ps: seq<Ptr>): nat {
    if ps == [] then 0 else Strays(ps[..|ps| - 1]) + if ps[|ps| - 1].Stray? then 1 else 0
  }

  /** The polls that have ended and whose callable kept the buffer. */
  ghost function EndedKept(s: Ctx): set<nat> {
    set id | id in s.taken && s.taken[id] && id !in s.live
  }

  /** An address given to `buf_free`: that received, of a request that has ended
      and whose callable did not keep it, or null moved by what a poll adds to
      the header. */
  predicate Freeable(s: Ctx, p: Ptr) {
    match p
    case Ptr(buf, off) => off == 0 && buf < s.received && buf !in s.live && buf !in s.taken
    case Stray(off) => off == -12
  }

  /** Every buffer received is held by its live request, was kept by a callable,
      or was freed: once, at the address received, and only afterwards.  What
      else was freed, was freed for a poll whose callable kept the buffer. */
  ghost predicate BuffersOk(s: Ctx) {
    && (forall k :: 0 <= k < |s.freed| ==> Freeable(s, s.freed[k]))
    && (forall j, k :: 0 <= j < k < |s.freed| && s.freed[j].Ptr? ==> s.freed[j] != s.freed[k])
    && (forall id :: id in s.taken ==> id < s.received)
    && (forall id :: 0 <= id < s.received ==> id in s.live || id in s.taken || Ptr(id, 0) in s.freed)
    && Strays(s.freed) == |EndedKept(s)|
  }

  /** Finisher `h` has run or is the current one of a live request. */
  predicate Accounted(h: nat, ran: seq<nat>, live: map<nat, Req>) {
    h in ran || exists id :: id in live && live[id].onFinish == Some(h)
  }

  /** Finishers run are run once, and were set. */
  predicate RanOk(ran: seq<nat>, hooked: nat) {
    NoDup(ran) && forall k :: 0 <= k < |ran| ==> ran[k] < hooked
  }

  /** Each live request's finisher is its own, was set and has not run. */
  predicate OwnHooks(live: map<nat, Req>, ran: seq<nat>, hooked: nat) {
    && (forall id :: id in live && live[id].onFinish.Some? ==>
          live[id].onFinish.value < hooked && live[id].onFinish.value !in ran)
    && forall a, b :: a in live && b in live && a != b && live[a].onFinish.Some? ==>
         live[a].onFinish != live[b].onFinish
  }

  /** Every finisher set has been run, once, or is the current one of exactly one
      live request. */
  ghost predicate HooksOk(s: Ctx) {
    && RanOk(s.ran, s.hooked) && OwnHooks(s.live, s.ran, s.hooked)
    && forall h :: 0 <= h < s.hooked ==> Accounted(h, s.ran, s.live)
  }

  ghost predicate Core(s: Ctx) {
    ReqsOk(s) && Counted(s) && BuffersOk(s) && HooksOk(s)
  }

  /** The io is released only when the context is closed, and nothing is asked of
      it then; a failed send has closed the context. */
  predicate IoOk(s: Ctx) {
    && (s.io != Usable ==> s.closed && !s.receiving && forall id :: id in s.live ==> s.live[id].waits != Sending)
    && (s.sendError ==> s.closed)
  }

  ghost predicate Inv(s: Ctx) {
    Core(s) && ReceivesOk(s) && IoOk(s)
  }
}

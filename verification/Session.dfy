/** The session protocol between the scripting client and server.

    The client allocates a session id, registers a callback under it and sends
    the request; the server handles requests concurrently and answers in any
    order; the client routes an answer by the low 31 bits of the first word
    and takes a differing top bit as an error.  A poll keeps its id for many
    answers, a signal gets none.

    Packets are bytes.  The `tag` carried beside them names the request a
    packet belongs to; it is history only, and no step reads it to decide
    anything.  `computed` and `answered` record, per request, the outcomes its
    callable produced and the replies the server sent. */
module Session {
  import opened Prelude
  import opened Wire
  import opened SidAllocator

  const CLOSE_INDEX: int := -3
  const POLL_INDEX: int := -5

  // ---------- words and packets ----------

  /** `w & 0x7fffffff`. */
  function LowBits(w: nat): nat { w % TWO31 }

  function WordAt(b: seq<byte>, at: nat): (w: nat)
    requires at + 4 <= |b|
    ensures w < TWO32
  {
    Pow256Values();
    FromLE(b[at..at + 4])
  }

  function IntAt(b: seq<byte>, at: nat): int
    requires at + 4 <= |b|
  {
    Signed(WordAt(b, at), 4)
  }

  function RequestBytes(session: nat, index: int, param: seq<byte>): seq<byte> {
    LE(session, 4) + EncInt(index, 4) + param
  }

  function ReplyBytes(word: nat, body: seq<byte>): seq<byte> {
    LE(word, 4) + body
  }

  lemma RequestFields(session: nat, index: int, param: seq<byte>)
    requires session < TWO32 && Fits(index, 4)
    ensures var b := RequestBytes(session, index, param);
            |b| >= 8 && WordAt(b, 0) == session && IntAt(b, 4) == index && b[8..] == param
  {
    hide FromLE, LE, Signed;
    Pow256Values();
    LERoundTrip(session, 4);
    SignedRoundTrip(index, 4);
    var b := RequestBytes(session, index, param);
    assert b[0..4] == LE(session, 4) && b[4..8] == EncInt(index, 4) && b[8..] == param;
  }

  lemma ReplyFields(word: nat, body: seq<byte>)
    requires word < TWO32
    ensures var b := ReplyBytes(word, body); |b| >= 4 && WordAt(b, 0) == word && b[4..] == body
  {
    hide FromLE, LE;
    Pow256Values();
    LERoundTrip(word, 4);
    var b := ReplyBytes(word, body);
    assert b[0..4] == LE(word, 4) && b[4..] == body;
  }

  datatype Outcome = Ok(body: seq<byte>) | Err(body: seq<byte>)

  function ReplyWord(session: nat, o: Outcome): nat
    requires session < TWO32
  {
    if o.Ok? then session else FlipTop(session)
  }

  function Reply(session: nat, o: Outcome): seq<byte>
    requires session < TWO32
  {
    ReplyBytes(ReplyWord(session, o), o.body)
  }

  /** The outcome a reply to one of the client's ids stands for. */
  function OutcomeOf(b: seq<byte>): Outcome
    requires |b| >= 4
  {
    if WordAt(b, 0) < TWO31 then Ok(b[4..]) else Err(b[4..])
  }

  predicate ClientSid(sid: nat) { SID_START <= sid <= SID_END }

  lemma ReplyIs(sid: nat, o: Outcome)
    requires ClientSid(sid)
    ensures var b := Reply(sid, o);
            && |b| >= 4 && OutcomeOf(b) == o && LowBits(WordAt(b, 0)) == sid
            && WordAt(b, 0) != SIGNAL && (WordAt(b, 0) == sid <==> o.Ok?) && b[4..] == o.body
  {
    ReplyFields(ReplyWord(sid, o), o.body);
  }

  // ---------- the client ----------

  datatype Kind = Call | Poll | Signal | Close

  /** A signal and a request to close get no answer, and no callback is
      registered for them. */
  predicate Silent(kind: Kind) { kind == Signal || kind == Close }

  /** A call is Settled when its promise is resolved or rejected and Done when
      its continuation has run. */
  datatype Phase = Waiting | Settled | Done

  datatype Rec = Rec(
    kind: Kind, sid: nat, index: int, param: seq<byte>,
    phase: Phase, seen: seq<Outcome>, broken: bool)

  datatype Client = Client(sids: Sids, waiting: map<nat, nat>, recs: map<nat, Rec>, running: bool)

  /** The packet a request is sent as. */
  function WireOf(r: Rec): seq<byte> {
    match r.kind
    case Poll => RequestBytes(r.sid, POLL_INDEX, EncInt(r.index, 4) + r.param)
    case _ => RequestBytes(r.sid, r.index, r.param)
  }

  function Registered(c: Client, tag: nat, r: Rec, sids: Sids): Client {
    c.(sids := sids,
       recs := c.recs[tag := r],
       waiting := if Silent(r.kind) then c.waiting else c.waiting[r.sid := tag])
  }

  /** What the callback of request `r` does with a reply. */
  function Received(r: Rec, word: nat, body: seq<byte>): Rec {
    match r.kind
    case Poll =>
      if word != r.sid then r.(seen := r.seen + [Err(body)], phase := Done)
      else r.(seen := r.seen + [Ok(body)])
    case _ =>
      if r.phase != Waiting then r
      else r.(seen := [if word != r.sid then Err(body) else Ok(body)], phase := Settled)
  }

  /** One turn of the receive loop: None when no callback is registered. */
  function OnReply(c: Client, b: seq<byte>): Option<Client>
    requires |b| >= 4
  {
    var word := WordAt(b, 0);
    if word == SIGNAL then Some(c)
    else if LowBits(word) !in c.waiting || c.waiting[LowBits(word)] !in c.recs then None
    else
      var tag := c.waiting[LowBits(word)];
      var r := c.recs[tag];
      var d := c.(recs := c.recs[tag := Received(r, word, b[4..])]);
      Some(if r.kind == Poll && word != r.sid
           then d.(waiting := c.waiting - {LowBits(r.sid)}, sids := c.sids.Free(r.sid))
           else d)
  }

  /** What any packet does to the client, by its first word: one that reads
      0xffffffff nothing, one under which no callback is registered ends the
      receive loop; else the request of that callback alone changes, a call only
      while it waits, and it has an error exactly if the word is not its own. */
  lemma ReplyEffect(c: Client, b: seq<byte>)
    requires |b| >= 4
    ensures WordAt(b, 0) == 0xffff_ffff ==> OnReply(c, b) == Some(c)
    ensures var id := WordAt(b, 0) % 0x8000_0000;
            WordAt(b, 0) != 0xffff_ffff ==>
              if id !in c.waiting || c.waiting[id] !in c.recs then OnReply(c, b) == None
              else
                var t, r := c.waiting[id], c.recs[c.waiting[id]];
                var o := if WordAt(b, 0) == r.sid then Ok(b[4..]) else Err(b[4..]);
                && OnReply(c, b).Some?
                && var d := OnReply(c, b).value;
                   && d.running == c.running && d.recs == c.recs[t := d.recs[t]]
                   && (r.kind != Poll && r.phase != Waiting ==> d == c)
                   && (r.kind != Poll && r.phase == Waiting ==>
                         d.waiting == c.waiting && d.sids == c.sids && d.recs[t] == r.(seen := [o], phase := Settled))
                   && (r.kind == Poll ==> d.recs[t].seen == r.seen + [o])
                   && (r.kind == Poll && o.Ok? ==>
                         d.waiting == c.waiting && d.sids == c.sids && d.recs[t].phase == r.phase)
                   && (r.kind == Poll && o.Err? ==>
                         && d.waiting == c.waiting - {r.sid % 0x8000_0000} && d.sids.used == c.sids.used - {r.sid}
                         && d.recs[t].phase == Done)
  {
    hide WordAt;
    var id := LowBits(WordAt(b, 0));
    if WordAt(b, 0) != SIGNAL && id in c.waiting && c.waiting[id] in c.recs {
      var t := c.waiting[id];
      assert c.recs[t := c.recs[t]] == c.recs;
    }
  }

  /** The continuation of a settled call.  A call rejected by the end of the
      receive loop leaves its callback registered. */
  function Finished(c: Client, tag: nat): Client
    requires tag in c.recs
  {
    var r := c.recs[tag];
    c.(recs := c.recs[tag := r.(phase := Done)],
       waiting := if r.broken then c.waiting else c.waiting - {LowBits(r.sid)},
       sids := c.sids.Free(r.sid))
  }

  /** A call that has been answered gives back its id and loses its callback; one
      rejected by the end of the connection gives back its id alone. */
  lemma FinishEffect(c: Client, tag: nat)
    requires tag in c.recs
    ensures var d, r := Finished(c, tag), c.recs[tag];
            && d.sids.used == c.sids.used - {r.sid} && d.sids.next == c.sids.next && d.running == c.running
            && d.recs == c.recs[tag := r.(phase := Done)]
            && d.waiting == if r.broken then c.waiting else c.waiting - {r.sid % 0x8000_0000}
  {
  }

  predicate Pending(c: Client, tag: nat) {
    tag in c.recs && c.recs[tag].sid in c.waiting && c.waiting[c.recs[tag].sid] == tag
  }

  function BrokenRec(r: Rec): Rec {
    match r.kind
    case Poll => r.(broken := true, phase := Done)
    case _ => if r.phase == Waiting then r.(broken := true, phase := Settled) else r
  }

  /** The receive loop ends: every registered callback is given the error. */
  function Broken(c: Client): Client {
    c.(running := false,
       recs := map t | t in c.recs :: if Pending(c, t) then BrokenRec(c.recs[t]) else c.recs[t],
       sids := c.sids.(used := set i | i in c.sids.used
                 && !(i in c.waiting && c.waiting[i] in c.recs && c.recs[c.waiting[i]].kind == Poll)))
  }

  // ---------- the server ----------

  /** Where a function at work on a request goes on: `processRequest` at its
      start, awaiting its callable or after it, `poll` at its start, at its loop
      test or after the inner `processRequest`. */
  datatype Pc = Begin | Calling | After | Entry | Loop | Check

  /** A request object and the functions at work on it, innermost first.
      `outcome` is what `rejected` and `result` stand for. */
  datatype Process = Process(session: nat, index: int, param: seq<byte>, outcome: Outcome, stack: seq<Pc>)

  datatype Server = Server(running: bool, inflight: map<nat, Process>)

  /** The request object the serve loop makes of a packet. */
  function ProcessOf(b: seq<byte>): Process
    requires |b| >= 8
  {
    Process(WordAt(b, 0), IntAt(b, 4), b[8..], Ok([]), [Begin])
  }

  predicate AtCall(p: Process) { p.stack != [] && p.stack[0] == Calling }

  predicate CanRun(p: Process) { p.stack != [] && p.stack[0] != Calling && p.session < TWO32 }

  datatype Turn = Turn(running: bool, process: Process, reply: Option<seq<byte>>)

  /** The innermost function goes on to its next await, call or return.  An
      exception is caught by the nearest `processRequest`, which closes the
      server and returns. */
  function Advance(running: bool, p: Process): Turn
    requires CanRun(p)
  {
    var rest := p.stack[1..];
    match p.stack[0]
    case Begin =>
      if p.index == POLL_INDEX then Turn(running, p.(stack := [Entry, After] + rest), None)
      else if p.index == CLOSE_INDEX then Turn(false, p.(stack := [After] + rest), None)
      else if p.index < POLL_INDEX then Turn(false, p.(stack := rest), None)
      else Turn(running, p.(stack := [Calling] + rest), None)
    case After =>
      var q := p.(stack := rest);
      if p.index == CLOSE_INDEX || p.session == SIGNAL then Turn(running, q, None)
      else if !running then Turn(false, q, None)
      else Turn(running, q, Some(Reply(p.session, p.outcome)))
    case Entry =>
      if |p.param| < 4 then Turn(false, p.(stack := if rest == [] then [] else rest[1..]), None)
      else Turn(running, p.(index := IntAt(p.param, 0), param := p.param[4..], stack := [Loop] + rest), None)
    case Loop =>
      if running then Turn(running, p.(outcome := Ok([]), stack := [Begin, Check] + rest), None)
      else Turn(running, p.(index := CLOSE_INDEX, stack := rest), None)
    case Check =>
      if p.outcome.Err? then Turn(running, p.(index := CLOSE_INDEX, stack := rest), None)
      else Turn(running, p.(stack := [Loop] + rest), None)
  }

  /** A request nothing is at work on any more is gone. */
  function Settle(inflight: map<nat, Process>, tag: nat, p: Process): map<nat, Process> {
    if p.stack == [] then inflight - {tag} else inflight[tag := p]
  }

  // ---------- the system ----------

  type History = map<nat, seq<Outcome>>

  datatype Packet = Packet(bytes: seq<byte>, tag: nat)

  datatype System = System(
    client: Client, toServer: seq<Packet>, toClient: seq<Packet>, server: Server,
    computed: History, answered: History, nextTag: nat)

  /** The receive loop ends with an exception (`Break`) or, once the client has
      been closed, without one (`Quit`).  A request to close is started with any
      session word. */
  datatype Step =
    | Start(kind: Kind, index: int, param: seq<byte>, sid: Option<nat>, sids: Sids)
    | Deliver
    | Finish(tag: nat)
    | Break
    | Quit
    | Accept
    | Run(tag: nat)
    | Complete(tag: nat, outcome: Outcome)
    | Throw(tag: nat)
    | Shut

  /** Requests the client API makes: callables, the built-ins that answer, and
      the request to close. */
  predicate Callable(kind: Kind, index: int) {
    && Fits(index, 4)
    && match kind
       case Call => index >= 0 || index in {-1, -2, -4}
       case Close => index == CLOSE_INDEX
       case _ => index >= 0
  }

  predicate Enabled(s: System, step: Step) {
    match step
    case Start(kind, index, param, sid, sids) =>
      && s.client.running && Callable(kind, index)
      && if kind == Signal then sid == Some(SIGNAL) && sids == s.client.sids
         else if kind == Close then param == [] && sid.Some? && sid.value < TWO32 && sids == s.client.sids
         else Allocates(s.client.sids, sid, sids)
    case Deliver => s.client.running && s.toClient != [] && |s.toClient[0].bytes| >= 4
    case Finish(tag) => tag in s.client.recs && s.client.recs[tag].kind == Call && s.client.recs[tag].phase == Settled
    case Break => s.client.running
    case Quit => s.client.running
    case Accept => s.server.running && s.toServer != [] && |s.toServer[0].bytes| >= 8
    case Run(tag) => tag in s.server.inflight && CanRun(s.server.inflight[tag]) && tag in s.answered
    case Complete(tag, _) => tag in s.server.inflight && AtCall(s.server.inflight[tag]) && tag in s.computed
    case Throw(tag) => tag in s.server.inflight && AtCall(s.server.inflight[tag])
    case Shut => s.server.running
  }

  function Started(s: System, r: Rec, sids: Sids): System {
    s.(client := Registered(s.client, s.nextTag, r, sids),
       toServer := s.toServer + [Packet(WireOf(r), s.nextTag)],
       computed := s.computed[s.nextTag := []],
       answered := s.answered[s.nextTag := []],
       nextTag := s.nextTag + 1)
  }

  function NewRec(kind: Kind, sid: nat, index: int, param: seq<byte>): Rec {
    Rec(kind, sid, index, param, if Silent(kind) then Done else Waiting, [], false)
  }

  /** A reply goes out as soon as it is given to the channel. */
  function Ran(s: System, tag: nat): System
    requires Enabled(s, Run(tag))
  {
    var p := s.server.inflight[tag];
    var t := Advance(s.server.running, p);
    var u := s.(server := Server(t.running, Settle(s.server.inflight, tag, t.process)));
    match t.reply
    case None => u
    case Some(b) =>
      u.(toClient := s.toClient + [Packet(b, tag)], answered := s.answered[tag := s.answered[tag] + [p.outcome]])
  }

  /** The callable has set the outcome and its promise is resolved. */
  function Returned(p: Process, o: Outcome): Process
    requires AtCall(p)
  {
    p.(outcome := o, stack := [After] + p.stack[1..])
  }

  /** The callable has thrown: the request is dropped by the `processRequest`
      that awaits it, and the server closes. */
  function Thrown(p: Process): Process
    requires AtCall(p)
  {
    p.(stack := p.stack[1..])
  }

  function Apply(s: System, step: Step): System
    requires Enabled(s, step)
  {
    match step
    case Start(kind, index, param, sid, sids) =>
      (match sid
       case None => s.(client := s.client.(sids := sids))
       case Some(i) => Started(s, NewRec(kind, i, index, param), sids))
    case Deliver =>
      (match OnReply(s.client, s.toClient[0].bytes)
       case Some(c) => s.(client := c, toClient := s.toClient[1..])
       case None => s.(client := Broken(s.client), toClient := s.toClient[1..]))
    case Finish(tag) => s.(client := Finished(s.client, tag))
    case Break => s.(client := Broken(s.client))
    case Quit => s.(client := s.client.(running := false))
    case Accept =>
      var p := s.toServer[0];
      s.(toServer := s.toServer[1..], server := s.server.(inflight := s.server.inflight[p.tag := ProcessOf(p.bytes)]))
    case Run(tag) => Ran(s, tag)
    case Complete(tag, o) =>
      var p := Returned(s.server.inflight[tag], o);
      s.(server := s.server.(inflight := s.server.inflight[tag := p]),
         computed := s.computed[tag := s.computed[tag] + [o]])
    case Throw(tag) =>
      s.(server := Server(false, Settle(s.server.inflight, tag, Thrown(s.server.inflight[tag]))))
    case Shut => s.(server := s.server.(running := false))
  }

  const START := System(Client(INITIAL, map[], map[], true), [], [], Server(true, map[]), map[], map[], 0)

  /** A run: states and the steps between them, from the start. */
  ghost predicate IsRun(states: seq<System>, steps: seq<Step>) {
    && |states| == |steps| + 1 && states[0] == START
    && forall n :: 0 <= n < |steps| ==> Enabled(states[n], steps[n]) && states[n + 1] == Apply(states[n], steps[n])
  }

  // ---------- the invariant ----------

  predicate Words(ps: seq<Packet>) {
    forall k :: 0 <= k < |ps| ==> |ps[k].bytes| >= 4
  }

  /** The outcomes of request `tag` still on their way to the client. */
  function OnTheWay(ps: seq<Packet>, tag: nat): seq<Outcome>
    requires Words(ps)
  {
    if ps == [] then [] else
      (if ps[0].tag == tag then [OutcomeOf(ps[0].bytes)] else []) + OnTheWay(ps[1..], tag)
  }

  predicate AllOk(os: seq<Outcome>) {
    forall k :: 0 <= k < |os| ==> os[k].Ok?
  }

  /** Successes, then at most one error. */
  predicate OkThenErr(os: seq<Outcome>) {
    forall k :: 0 <= k < |os| - 1 ==> os[k].Ok?
  }

  /** A request holds its session id. */
  predicate Live(r: Rec) { !Silent(r.kind) && r.phase != Done }

  predicate RecOk(r: Rec, answered: seq<Outcome>, running: bool) {
    && Callable(r.kind, r.index)
    && (running ==> !r.broken)
    && match r.kind
       case Signal => r.sid == SIGNAL && r.phase == Done && r.seen == [] && answered == []
       case Close => r.sid < TWO32 && r.param == [] && r.phase == Done && r.seen == [] && answered == []
       case Call =>
         && ClientSid(r.sid) && |answered| <= 1
         && (r.phase == Waiting ==> r.seen == [] && !r.broken)
         && (r.phase != Waiting ==> |r.seen| == if r.broken then 0 else 1)
       case Poll =>
         && ClientSid(r.sid) && OkThenErr(answered) && r.phase != Settled
         && (r.phase == Waiting ==> AllOk(r.seen) && !r.broken)
         && (r.phase == Done && !r.broken ==> |r.seen| > 0 && r.seen[|r.seen| - 1].Err?)
         && (r.broken ==> AllOk(r.seen))
  }

  type Recs = map<nat, Rec>

  ghost predicate TagsOk(s: System) {
    && s.client.sids.Valid()
    && s.client.recs.Keys == s.answered.Keys == s.computed.Keys
    && forall t :: t in s.client.recs ==> t < s.nextTag
  }

  ghost predicate RecsOk(recs: Recs, answered: History, running: bool) {
    forall t :: t in recs ==> t in answered && RecOk(recs[t], answered[t], running)
  }

  /** Replies under way are genuine. */
  ghost predicate Genuine(recs: Recs, toClient: seq<Packet>) {
    forall k :: 0 <= k < |toClient| ==>
      && toClient[k].tag in recs
      && |toClient[k].bytes| >= 4
      && GenuineReply(recs[toClient[k].tag], toClient[k].bytes)
  }

  predicate GenuineReply(r: Rec, b: seq<byte>) {
    && !Silent(r.kind) && ClientSid(r.sid) && |b| >= 4
    && b == Reply(r.sid, OutcomeOf(b))
  }

  /** What a caller has seen followed by what is under way is what the server
      answered for that request. */
  ghost predicate Conserved(recs: Recs, answered: History, toClient: seq<Packet>)
    requires Words(toClient)
  {
    forall t :: t in recs ==> t in answered && answered[t] == recs[t].seen + OnTheWay(toClient, t)
  }

  /** Each used id is owned by exactly one live request, the one its callback
      belongs to; and while the client runs every callback is that of one. */
  ghost predicate OwnersOk(c: Client) {
    && (forall t :: t in c.recs && Live(c.recs[t]) ==> c.recs[t].sid in c.waiting && c.waiting[c.recs[t].sid] == t)
    && (forall i :: i in c.sids.used <==> i in c.waiting && Owned(c, i))
    && (c.running ==> forall i :: i in c.waiting ==> Owned(c, i))
  }

  /** The callback under id `i` is that of a live request. */
  predicate Owned(c: Client, i: nat)
    requires i in c.waiting
  {
    c.waiting[i] in c.recs && Live(c.recs[c.waiting[i]]) && c.recs[c.waiting[i]].sid == i
  }

  /** A request not yet accepted is on the wire once, as it was made, and has
      no outcome. */
  ghost predicate RequestsOk(
    recs: Recs, computed: History, answered: History, toServer: seq<Packet>, inflight: map<nat, Process>)
  {
    && (forall k :: 0 <= k < |toServer| ==>
          && toServer[k].tag in recs && toServer[k].tag in answered && toServer[k].tag in computed
          && toServer[k].bytes == WireOf(recs[toServer[k].tag])
          && answered[toServer[k].tag] == [] && computed[toServer[k].tag] == [] && toServer[k].tag !in inflight)
    && forall j, k :: 0 <= j < k < |toServer| ==> toServer[j].tag != toServer[k].tag
  }

  /** The request object holds the callable and parameter the caller gave. */
  predicate AsMade(r: Rec, p: Process) {
    p.session == r.sid && p.index == r.index && p.param == r.param
  }

  /** A call, a signal or a request to close in the server. */
  predicate SingleOk(r: Rec, computed: seq<Outcome>, answered: seq<Outcome>, p: Process) {
    && AsMade(r, p) && answered == []
    && (p.stack == [Begin] || p.stack == [Calling] || p.stack == [After])
    && (r.kind == Close ==> p.stack != [Calling])
    && computed == if p.stack == [After] && r.kind != Close then [p.outcome] else []
  }

  /** The two functions at the bottom of a poll, once its loop has begun. */
  const POLLING: seq<Pc> := [Check, After]

  /** A poll in the server, by where it stands: not begun; in its loop, between
      two replies; with a reply to send; after an inner call that failed, or
      whose exception has closed the server; over. */
  predicate PollOk(r: Rec, computed: seq<Outcome>, answered: seq<Outcome>, p: Process, running: bool) {
    && p.session == r.sid && answered <= computed
    && if p.stack == [Begin] || p.stack == [Entry, After] then
         p.index == POLL_INDEX && p.param == EncInt(r.index, 4) + r.param && computed == []
       else if p.stack == [Loop, After] || p.stack == [Begin] + POLLING || p.stack == [Calling] + POLLING then
         AsMade(r, p) && AllOk(computed) && (running ==> answered == computed)
       else if p.stack == [After] + POLLING then
         && AsMade(r, p) && OkThenErr(computed)
         && computed != [] && computed[|computed| - 1] == p.outcome && answered <= computed[..|computed| - 1]
         && (running ==> answered == computed[..|computed| - 1])
       else if p.stack == POLLING then
         && AsMade(r, p) && OkThenErr(computed) && (p.outcome.Ok? ==> AllOk(computed))
         && (running ==> answered == computed && (p.outcome.Err? ==> !AllOk(computed)))
       else
         && p.stack == [After] && p.index == CLOSE_INDEX && OkThenErr(computed)
         && (running ==> answered == computed && !AllOk(computed))
  }

  predicate ProcessOk(r: Rec, computed: seq<Outcome>, answered: seq<Outcome>, p: Process, running: bool) {
    if r.kind == Poll then PollOk(r, computed, answered, p, running) else SingleOk(r, computed, answered, p)
  }

  /** What the server works on is the request its caller made. */
  ghost predicate InflightOk(recs: Recs, computed: History, answered: History, server: Server) {
    forall t :: t in server.inflight ==>
      && t in recs && t in computed && t in answered
      && ProcessOk(recs[t], computed[t], answered[t], server.inflight[t], server.running)
  }

  /** The outcome a process is about to send. */
  function Unsent(inflight: map<nat, Process>, tag: nat): seq<Outcome> {
    if && tag in inflight && inflight[tag].stack != []
       && inflight[tag].stack[0] == After && inflight[tag].index != CLOSE_INDEX
    then [inflight[tag].outcome] else []
  }

  /** Replies are the outcomes computed, in order; while the server runs only
      the one about to be sent is missing. */
  predicate Replied(kind: Kind, computed: seq<Outcome>, answered: seq<Outcome>, unsent: seq<Outcome>, running: bool) {
    && answered <= computed
    && (if kind == Poll then OkThenErr(computed) else |computed| <= 1)
    && (Silent(kind) ==> answered == [])
    && (!Silent(kind) && running ==> computed == answered + unsent)
  }

  ghost predicate RepliedAll(recs: Recs, computed: History, answered: History, server: Server) {
    forall t :: t in recs ==>
      && t in computed && t in answered
      && Replied(recs[t].kind, computed[t], answered[t], Unsent(server.inflight, t), server.running)
  }

  ghost predicate Inv(s: System) {
    && TagsOk(s)
    && RecsOk(s.client.recs, s.answered, s.client.running)
    && Genuine(s.client.recs, s.toClient)
    && Conserved(s.client.recs, s.answered, s.toClient)
    && RequestsOk(s.client.recs, s.computed, s.answered, s.toServer, s.server.inflight)
    && InflightOk(s.client.recs, s.computed, s.answered, s.server)
    && RepliedAll(s.client.recs, s.computed, s.answered, s.server)
    && OwnersOk(s.client)
  }

  // ---------- lemmas about replies under way ----------

  lemma OnTheWayHead(ps: seq<Packet>, tag: nat)
    requires Words(ps) && ps != []
    ensures Words(ps[1..])
    ensures OnTheWay(ps, tag) == (if ps[0].tag == tag then [OutcomeOf(ps[0].bytes)] else []) + OnTheWay(ps[1..], tag)
  {
  }

  lemma {:induction false} OnTheWayAppend(ps: seq<Packet>, p: Packet, tag: nat)
    requires Words(ps) && |p.bytes| >= 4
    ensures Words(ps + [p])
    ensures OnTheWay(ps + [p], tag) == OnTheWay(ps, tag) + (if p.tag == tag then [OutcomeOf(p.bytes)] else [])
  {
    hide OutcomeOf, OnTheWay;
    var qs := ps + [p];
    assert Words(qs);
    OnTheWayHead(qs, tag);
    if ps == [] {
      assert qs[1..] == [] == ps;
      NoneOnTheWay(tag);
    } else {
      assert qs[1..] == ps[1..] + [p];
      OnTheWayHead(ps, tag);
      OnTheWayAppend(ps[1..], p, tag);
    }
  }

  lemma NoneOnTheWay(tag: nat)
    ensures OnTheWay([], tag) == []
  {
  }

  lemma {:induction false} NothingOnTheWay(ps: seq<Packet>, tag: nat)
    requires Words(ps) && forall k :: 0 <= k < |ps| ==> ps[k].tag != tag
    ensures OnTheWay(ps, tag) == []
  {
    if ps != [] {
      NothingOnTheWay(ps[1..], tag);
    }
  }

  /** The request object a process begins with. */
  function Fresh(r: Rec): Process {
    if r.kind == Poll then Process(r.sid, POLL_INDEX, EncInt(r.index, 4) + r.param, Ok([]), [Begin])
    else Process(r.sid, r.index, r.param, Ok([]), [Begin])
  }

  /** The packet a request is sent as reads back as that request. */
  lemma WireReads(r: Rec)
    requires r.sid < TWO32 && Callable(r.kind, r.index)
    ensures var b := WireOf(r); |b| >= 8 && ProcessOf(b) == Fresh(r)
  {
    hide RequestBytes, EncInt, FromLE, Signed;
    Pow256Values();
    if r.kind == Poll {
      RequestFields(r.sid, POLL_INDEX, EncInt(r.index, 4) + r.param);
    } else {
      RequestFields(r.sid, r.index, r.param);
    }
  }

  /** The packets requests are sent as, by their bytes: a header of session word
      and index, then the parameter; a poll has index -5 and the callable's index
      in front of its parameter, a request to close index -3 and no parameter. */
  lemma PacketLayout(r: Rec)
    requires r.sid < TWO32 && Callable(r.kind, r.index) && (r.kind == Close ==> r.param == [])
    requires r.kind == Signal ==> r.sid == 0xffff_ffff
    ensures var b := WireOf(r);
            && |b| >= 8 && WordAt(b, 0) == r.sid
            && match r.kind
               case Poll => IntAt(b, 4) == -5 && |b| >= 12 && IntAt(b, 8) == r.index && b[12..] == r.param
               case Close => IntAt(b, 4) == -3 && |b| == 8
               case _ => IntAt(b, 4) == r.index && b[8..] == r.param
  {
    hide RequestBytes, EncInt, FromLE, Signed;
    Pow256Values();
    if r.kind == Poll {
      RequestFields(r.sid, POLL_INDEX, EncInt(r.index, 4) + r.param);
      EntryReads(r.index, r.param);
      var b := WireOf(r);
      assert b[8..][..4] == b[8..12] && b[8..][4..] == b[12..];
    } else {
      RequestFields(r.sid, r.index, r.param);
    }
  }

  /** A poll finds its callable and parameter again. */
  lemma EntryReads(index: int, param: seq<byte>)
    requires Fits(index, 4)
    ensures var b := EncInt(index, 4) + param; |b| >= 4 && IntAt(b, 0) == index && b[4..] == param
  {
    hide EncInt, FromLE, Signed;
    SignedRoundTrip(index, 4);
    var b := EncInt(index, 4) + param;
    assert b[0..4] == EncInt(index, 4);
  }
}

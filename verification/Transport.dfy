/** Whole conversations: messages sent one after another by either writer and
    received one after another, over channels that split them anywhere and may
    be closed in the middle. */
module Transport {
  import opened Prelude
  import opened Wire
  import opened Framing
  import opened Gathering
  import opened Receiving

  type Messages = seq<seq<ByteBuffer>>

  ghost function Buffers(msgs: Messages): set<ByteBuffer> {
    set m, b | m in msgs && b in m :: b
  }

  /** From message `from` on, the buffers of message `i` hold the parts `ps[i]`. */
  ghost predicate Hold(msgs: Messages, ps: seq<seq<seq<byte>>>, from: nat)
    reads Buffers(msgs), set b | b in Buffers(msgs) :: b.data
  {
    && |ps| == |msgs|
    && forall i :: from <= i < |msgs| ==>
         |ps[i]| == |msgs[i]| && forall j :: 0 <= j < |msgs[i]| ==> HoldsPart(msgs, msgs[i], j, ps[i][j])
  }

  ghost predicate HoldsPart(msgs: Messages, m: seq<ByteBuffer>, j: nat, part: seq<byte>)
    requires j < |m|
    reads Buffers(msgs), set b | b in Buffers(msgs) :: b.data
  {
    m in msgs && m[j] in Buffers(msgs) && m[j].Valid() && m[j].Remaining() == part
  }

  lemma HoldParts(msgs: Messages, ps: seq<seq<seq<byte>>>, i: nat)
    requires Hold(msgs, ps, i) && i < |msgs|
    ensures AllValid(msgs[i]) && Parts(msgs[i]) == ps[i] && forall b :: b in msgs[i] ==> b in Buffers(msgs)
  {
    forall j | 0 <= j < |msgs[i]| ensures msgs[i][j].Valid() && msgs[i][j].Remaining() == ps[i][j] {
      assert HoldsPart(msgs, msgs[i], j, ps[i][j]);
    }
    assert forall b :: b in msgs[i] ==> exists j :: 0 <= j < |msgs[i]| && msgs[i][j] == b;
    PartsAre(msgs[i], ps[i]);
  }

  lemma {:induction false} StreamSnoc(ps: seq<seq<seq<byte>>>, i: nat)
    requires i < |ps|
    ensures StreamOf(ps[..i + 1]) == StreamOf(ps[..i]) + Frame(ps[i])
  {
    hide Frame;
    if i == 0 {
      assert ps[..1][1..] == [] && ps[..0] == [];
    } else {
      StreamSnoc(ps[1..], i - 1);
      assert ps[..i + 1][1..] == ps[1..][..i] && ps[..i][1..] == ps[1..][..i - 1];
    }
  }

  // ---------- sending ----------

  /** Messages sent one after another through the coalescing writer emit the
      stream of their frames, or a first part of it if the channel is closed
      meanwhile, and every buffer is left where it was. */
  method SendAll(io: ChannelIo, msgs: Messages, ghost ps: seq<seq<seq<byte>>>)
    requires Hold(msgs, ps, 0)
    modifies io.chan, Buffers(msgs)`position
    ensures Hold(msgs, ps, 0) && forall b :: b in Buffers(msgs) ==> b.position == old(b.position)
    ensures io.chan.isOpen ==> old(io.chan.isOpen)
    ensures Emitted(io.chan.isOpen, old(io.chan.written), io.chan.written, StreamOf(ps))
  {
    hide Frame, StreamOf, Parts, HoldsPart;
    ghost var was := io.chan.written;
    var i := 0;
    NoStream(ps[..0]);
    while i < |msgs|
      invariant 0 <= i <= |msgs| && Hold(msgs, ps, 0)
      invariant forall b :: b in Buffers(msgs) ==> b.position == old(b.position)
      invariant io.chan.isOpen ==> old(io.chan.isOpen)
      invariant Emitted(io.chan.isOpen, was, io.chan.written, StreamOf(ps[..i]))
    {
      SendOne(io, msgs, ps, i, was);
      i := i + 1;
    }
    assert ps[..i] == ps;
  }

  lemma NoStream(ps: seq<seq<seq<byte>>>)
    requires ps == []
    ensures StreamOf(ps) == []
  {
  }

  method SendOne(io: ChannelIo, msgs: Messages, ghost ps: seq<seq<seq<byte>>>, i: nat, ghost was: seq<byte>)
    requires Hold(msgs, ps, 0) && i < |msgs| && Emitted(io.chan.isOpen, was, io.chan.written, StreamOf(ps[..i]))
    modifies io.chan, Buffers(msgs)`position
    ensures Hold(msgs, ps, 0) && forall b :: b in Buffers(msgs) ==> b.position == old(b.position)
    ensures io.chan.isOpen ==> old(io.chan.isOpen)
    ensures Emitted(io.chan.isOpen, was, io.chan.written, StreamOf(ps[..i + 1]))
  {
    hide Frame, StreamOf, Parts;
    assert Hold(msgs, ps, i);
    HoldParts(msgs, ps, i);
    ghost var open, w := io.chan.isOpen, io.chan.written;
    io.Send(msgs[i]);
    assert forall b :: b in Buffers(msgs) ==> b.position == old(b.position);
    EmittedThen(open, io.chan.isOpen, was, w, io.chan.written, StreamOf(ps[..i]), Frame(ps[i]));
    StreamSnoc(ps, i);
  }

  /** No buffer is in two messages, or twice in one. */
  ghost predicate Separate(msgs: Messages) {
    && (forall i :: 0 <= i < |msgs| ==> NoDup(msgs[i]))
    && forall i, k, b :: 0 <= i < k < |msgs| && b in msgs[i] ==> b !in msgs[k]
  }

  /** The buffers of the messages before `n` have been emptied. */
  ghost predicate Drained(msgs: Messages, n: nat)
    requires n <= |msgs|
    reads Buffers(msgs), set b | b in Buffers(msgs) :: b.data
  {
    forall k, j :: 0 <= k < n && 0 <= j < |msgs[k]| ==>
      msgs[k] in msgs && msgs[k][j] in Buffers(msgs) && msgs[k][j].Valid() && msgs[k][j].Remaining() == []
  }

  /** The gathering writer drains the buffers it sends, so each message needs
      its own. */
  method GatherAll(io: ChannelIo2, msgs: Messages, ghost ps: seq<seq<seq<byte>>>)
    requires Hold(msgs, ps, 0) && Separate(msgs)
    modifies io.w, Buffers(msgs)`position
    ensures Drained(msgs, |msgs|)
    ensures io.w.written == old(io.w.written) + StreamOf(ps)
  {
    hide Frame, StreamOf, HoldsPart, Separate, Drained;
    ghost var was := io.w.written;
    var i := 0;
    NoStream(ps[..0]);
    NoneDrained(msgs);
    while i < |msgs|
      invariant 0 <= i <= |msgs| && Hold(msgs, ps, i) && Drained(msgs, i)
      invariant io.w.written == was + StreamOf(ps[..i])
    {
      GatherOne(io, msgs, ps, i);
      StreamSnoc(ps, i);
      i := i + 1;
    }
    assert ps[..i] == ps;
  }

  lemma NoneDrained(msgs: Messages)
    ensures Drained(msgs, 0)
  {
  }

  method GatherOne(io: ChannelIo2, msgs: Messages, ghost ps: seq<seq<seq<byte>>>, i: nat)
    requires i < |msgs| && Hold(msgs, ps, i) && Drained(msgs, i) && Separate(msgs)
    modifies io.w, Buffers(msgs)`position
    ensures Hold(msgs, ps, i + 1) && Drained(msgs, i + 1)
    ensures io.w.written == old(io.w.written) + Frame(ps[i])
  {
    hide Frame, Parts, NoDup;
    HoldParts(msgs, ps, i);
    io.Send(msgs[i]);
  }

  // ---------- receiving ----------

  lemma ReceiveAllStep(s: seq<byte>)
    ensures match TakeFrame(s)
            case Message(m, rest) => ReceiveAll(s) == [m] + ReceiveAll(rest) && |rest| < |s|
            case _ => ReceiveAll(s) == []
  {
    hide TakeFrame;
  }

  /** The stream after its first `g` frames. */
  function After(s: seq<byte>, g: nat): (r: seq<byte>)
    requires g <= |ReceiveAll(s)|
    decreases g
  {
    if g == 0 then s else After(TakeFrame(s).rest, g - 1)
  }

  lemma {:induction false} AfterHolds(s: seq<byte>, g: nat)
    requires g <= |ReceiveAll(s)|
    ensures ReceiveAll(After(s, g)) == ReceiveAll(s)[g..]
    ensures match TakeFrame(After(s, g))
            case Message(m, rest) =>
              && g < |ReceiveAll(s)| && m == ReceiveAll(s)[g] && rest == After(s, g + 1)
              && ReceiveAll(s)[..g + 1] == ReceiveAll(s)[..g] + [m]
            case _ => g == |ReceiveAll(s)|
    decreases g
  {
    hide TakeFrame;
    if g > 0 {
      AfterHolds(TakeFrame(s).rest, g - 1);
    }
  }

  /** `m` was read from `s` while the channel was being closed: `head` bytes of
      its length and `body` bytes of its payload were, the others are zeros. */
  predicate Cut(s: seq<byte>, m: seq<byte>, head: nat, body: nat) {
    head + body <= |s| && CutShort(s, Message(m, s[head + body..]), head, body)
  }

  /** The messages handed on are the first `g` of the stream and at most one
      more, read while the channel was being closed; each has a header. */
  ghost predicate HandedOn(s: seq<byte>, header: nat, handed: seq<seq<byte>>, g: nat, head: nat, body: nat) {
    && g <= |ReceiveAll(s)| && g <= |handed| <= g + 1 && handed[..g] == ReceiveAll(s)[..g]
    && (|handed| == g + 1 ==> Cut(After(s, g), handed[g], head, body))
    && forall i :: 0 <= i < |handed| ==> |handed[i]| >= header
  }

  /** The receive loop of both contexts.  It runs until its flag falls, which it
      may at any time, until `receive` fails, or until a message is too short
      for the header it reads first: the id, and in a server the index.  It does
      not look whether the channel is still open. */
  method ReadLoop(chan: InChannel, header: nat)
    returns (handed: seq<seq<byte>>, stopped: bool, ghost g: nat, ghost head: nat, ghost body: nat)
    requires header > 0
    modifies chan
    ensures chan.isOpen ==> old(chan.isOpen)
    ensures HandedOn(old(chan.incoming), header, handed, g, head, body)
    ensures chan.isOpen ==> |handed| == g
    ensures chan.isOpen && !stopped ==>
              g == |ReceiveAll(old(chan.incoming))| || |ReceiveAll(old(chan.incoming))[g]| < header
  {
    hide ReceiveAll, After, CutShort, TakeFrame;
    ghost var s := chan.incoming;
    handed, stopped, g, head, body := [], *, 0, 0, 0;
    ghost var late := false;
    NothingAfter(s);
    while !stopped
      invariant chan.isOpen ==> old(chan.isOpen) && !late
      invariant HandedOn(s, header, handed, g, head, body)
      invariant late <==> |handed| == g + 1
      invariant !late ==> chan.incoming == After(s, g)
      decreases chan.isOpen, |chan.incoming|
    {
      AfterHolds(s, g);
      ghost var was, t := chan.isOpen, chan.incoming;
      var r, h, b := Receive(chan);
      if !was {
        NothingRead(t, r);
      }
      if !r.Message? || |r.payload| < header {
        return;
      }
      handed := handed + [r.payload];
      if chan.isOpen {
        TakenShorter(t);
        g := g + 1;
      } else {
        late, head, body := true, h, b;
        CutIs(t, r, h, b);
      }
      stopped := *;
    }
  }

  lemma NothingAfter(s: seq<byte>)
    ensures After(s, 0) == s
  {
  }

  lemma TakenShorter(s: seq<byte>)
    ensures TakeFrame(s).Message? ==> |TakeFrame(s).rest| < |s|
  {
    hide TakeFrame;
  }

  lemma CutIs(s: seq<byte>, r: Taken, head: nat, body: nat)
    requires CutShort(s, r, head, body) && r.Message?
    ensures Cut(s, r.payload, head, body)
  {
  }

  /** What is handed on is a first part of the stream's messages exactly when
      the channel was not closed during the last of them, or every byte missed
      is a zero. */
  lemma HandedUnaltered(s: seq<byte>, header: nat, handed: seq<seq<byte>>, g: nat, head: nat, body: nat)
    requires HandedOn(s, header, handed, g, head, body)
    ensures handed <= ReceiveAll(s) <==>
              || |handed| == g
              || match TakeFrame(After(s, g))
                 case Message(m, _) => ZeroFrom(After(s, g)[..4], head) && ZeroFrom(m, body)
                 case _ => false
  {
    hide ReceiveAll, After, CutShort, ZeroFrom;
    AfterHolds(s, g);
    if |handed| == g + 1 && g < |ReceiveAll(s)| {
      CutGenuine(After(s, g), Message(handed[g], After(s, g)[head + body..]), head, body);
      assert handed == handed[..g] + [handed[g]];
    }
  }

  /** A reader that looks, after each receive, whether its channel is still open
      hands on a first part of the messages, whatever happens. */
  method ReceiveMany(chan: InChannel) returns (ms: seq<seq<byte>>)
    modifies chan
    ensures chan.isOpen ==> old(chan.isOpen)
    ensures ms <= ReceiveAll(old(chan.incoming))
    ensures chan.isOpen ==> ms == ReceiveAll(old(chan.incoming))
  {
    hide TakeFrame, CutShort;
    ghost var all := ReceiveAll(chan.incoming);
    ms := [];
    while chan.isOpen
      invariant chan.isOpen ==> old(chan.isOpen) && ms + ReceiveAll(chan.incoming) == all
      invariant ms <= all
      decreases chan.isOpen, |chan.incoming|
    {
      ghost var rest := ReceiveAll(chan.incoming);
      ReceiveAllStep(chan.incoming);
      var r, _, _ := Receive(chan);
      if !r.Message? || !chan.isOpen {
        break;
      }
      ms := ms + [r.payload];
    }
  }

  // ---------- end to end ----------

  /** What a reader of a stream of frames hands on: the first `g` messages and
      at most one more, the next one, if the channel was closed while it was
      read; and that one is altered unless every byte missed is a zero. */
  ghost predicate Conveyed(ps: seq<seq<seq<byte>>>, handed: seq<seq<byte>>, g: nat, head: nat, body: nat) {
    && g <= |ps| && g <= |handed| <= g + 1 && handed[..g] == Payloads(ps)[..g]
    && (|handed| == g + 1 ==> g < |ps| && Cut(StreamOf(ps[g..]), handed[g], head, body))
    && (handed <= Payloads(ps) <==>
          |handed| == g || (ZeroFrom(Frame(ps[g])[..4], head) && ZeroFrom(Concat(ps[g]), body)))
  }

  lemma {:induction false} AfterStream(ps: seq<seq<seq<byte>>>, k: nat, g: nat)
    requires Sendable(ps) && k <= |StreamOf(ps)| && g <= |ReceiveAll(StreamOf(ps)[..k])|
    ensures g <= |ps| && After(StreamOf(ps)[..k], g) <= StreamOf(ps[g..])
  {
    hide Frame, TakeFrame, Concat;
    var s := StreamOf(ps);
    StreamRoundTrip(ps, k);
    if g == 0 {
      assert ps[0..] == ps;
    } else {
      var f, tail := Frame(ps[0]), ps[1..];
      assert Sendable(tail) && |Concat(ps[0])| < TWO31;
      if k < |f| {
        assert s[..k] == f[..k];
        TakeCut(ps[0], k);
      } else {
        var rest := StreamOf(tail)[..k - |f|];
        assert s[..k] == f + rest;
        TakeWhole(ps[0], rest);
        AfterStream(tail, k - |f|, g - 1);
        assert ps[g..] == tail[g - 1..];
      }
    }
  }

  /** Reading on from a longer stream could have given the same. */
  lemma CutExtends(p: seq<byte>, s: seq<byte>, m: seq<byte>, head: nat, body: nat)
    requires p <= s && Cut(p, m, head, body)
    ensures Cut(s, m, head, body)
  {
    hide Signed, FromLE, Zeros;
    assert p[..head] == s[..head];
    assert p[head..][..body] == s[head..][..body];
  }

  lemma {:induction false} PayloadAt(ps: seq<seq<seq<byte>>>, g: nat)
    requires g < |ps|
    ensures Payloads(ps)[g] == Concat(ps[g])
  {
    if g > 0 {
      PayloadAt(ps[1..], g - 1);
    }
  }

  lemma HandedConveys(
    ps: seq<seq<seq<byte>>>, k: nat, header: nat, handed: seq<seq<byte>>, g: nat, head: nat, body: nat)
    requires Sendable(ps) && k <= |StreamOf(ps)| && header > 0
    requires HandedOn(StreamOf(ps)[..k], header, handed, g, head, body)
    ensures Conveyed(ps, handed, g, head, body)
  {
    hide ReceiveAll, After, CutShort, ZeroFrom, StreamOf, Frame, TakeFrame, Payloads, Concat;
    StreamRoundTrip(ps, k);
    AfterStream(ps, k, g);
    if |handed| == g + 1 {
      var s := StreamOf(ps[g..]);
      CutExtends(After(StreamOf(ps)[..k], g), s, handed[g], head, body);
      if g == |ps| {
        NoStream(ps[g..]);
        NothingRead(s, Message(handed[g], s));
        assert false;
      } else {
        StreamHead(ps, g);
        TakeWhole(ps[g], StreamOf(ps[g + 1..]));
        CutGenuine(s, Message(handed[g], s[head + body..]), head, body);
        FrameLong(ps[g]);
        assert s[..4] == Frame(ps[g])[..4];
        PayloadAt(ps, g);
        assert handed == handed[..g] + [handed[g]];
      }
    }
  }

  lemma StreamHead(ps: seq<seq<seq<byte>>>, g: nat)
    requires g < |ps|
    ensures StreamOf(ps[g..]) == Frame(ps[g]) + StreamOf(ps[g + 1..])
  {
    hide Frame;
    assert ps[g..][1..] == ps[g + 1..];
  }

  lemma FrameLong(parts: seq<seq<byte>>)
    ensures |Frame(parts)| >= 4
  {
  }

  /** Any first part of what a writer emitted arrives, in any pieces. */
  method Deliver(emitted: seq<byte>, inn: InChannel, header: nat)
    returns (handed: seq<seq<byte>>, arrived: nat, stopped: bool, ghost g: nat, ghost head: nat, ghost body: nat)
    requires header > 0
    modifies inn
    ensures arrived <= |emitted|
    ensures HandedOn(emitted[..arrived], header, handed, g, head, body)
    ensures inn.isOpen ==> |handed| == g
    ensures inn.isOpen && !stopped ==>
              g == |ReceiveAll(emitted[..arrived])| || |ReceiveAll(emitted[..arrived])[g]| < header
  {
    hide HandedOn;
    arrived :| arrived <= |emitted|;
    inn.incoming := emitted[..arrived];
    handed, stopped, g, head, body := ReadLoop(inn, header);
  }

  /** Messages sent through the coalescing writer and read by a receive loop at
      the other end: whatever either channel does, and wherever the stream is
      cut, a first part of the messages is handed on, and at most one more if
      the receiving channel was closed; if both channels stay open, everything
      arrives and the loop is not stopped, all messages that have a header. */
  method Converse(io: ChannelIo, msgs: Messages, ghost ps: seq<seq<seq<byte>>>, inn: InChannel, header: nat)
    returns (handed: seq<seq<byte>>, arrived: nat, stopped: bool, ghost g: nat, ghost head: nat, ghost body: nat)
    requires Hold(msgs, ps, 0) && Sendable(ps) && header > 0
    modifies io.chan, Buffers(msgs)`position, inn
    ensures Conveyed(ps, handed, g, head, body)
    ensures inn.isOpen ==> |handed| == g
    ensures io.chan.isOpen && inn.isOpen && arrived == |StreamOf(ps)| && !stopped ==>
              g == |ps| || |Concat(ps[g])| < header
  {
    hide Hold, Sendable, StreamOf, Payloads, HandedOn;
    var n := |io.chan.written|;
    ghost var was := io.chan.written;
    SendAll(io, msgs, ps);
    ghost var open := io.chan.isOpen;
    EmittedPart(open, was, io.chan.written, StreamOf(ps));
    var emitted := io.chan.written[n..];
    handed, arrived, stopped, g, head, body := Deliver(emitted, inn, header);
    assert emitted[..arrived] == StreamOf(ps)[..arrived];
    HandedConveys(ps, arrived, header, handed, g, head, body);
    StreamRoundTrip(ps, arrived);
    if g < |ps| {
      PayloadAt(ps, g);
    }
  }

  /** The same through the gathering writer. */
  method ConverseGathered(io: ChannelIo2, msgs: Messages, ghost ps: seq<seq<seq<byte>>>, inn: InChannel, header: nat)
    returns (handed: seq<seq<byte>>, arrived: nat, stopped: bool, ghost g: nat, ghost head: nat, ghost body: nat)
    requires Hold(msgs, ps, 0) && Separate(msgs) && Sendable(ps) && header > 0
    modifies io.w, Buffers(msgs)`position, inn
    ensures Conveyed(ps, handed, g, head, body)
    ensures inn.isOpen ==> |handed| == g
    ensures inn.isOpen && arrived == |StreamOf(ps)| && !stopped ==> g == |ps| || |Concat(ps[g])| < header
  {
    hide Hold, Separate, Sendable, StreamOf, Payloads, HandedOn;
    var n := |io.w.written|;
    GatherAll(io, msgs, ps);
    var emitted := io.w.written[n..];
    assert emitted == StreamOf(ps);
    handed, arrived, stopped, g, head, body := Deliver(emitted, inn, header);
    HandedConveys(ps, arrived, header, handed, g, head, body);
    StreamRoundTrip(ps, arrived);
    if g < |ps| {
      PayloadAt(ps, g);
    }
  }

  lemma EmittedPart(open: bool, was: seq<byte>, now: seq<byte>, s: seq<byte>)
    requires Emitted(open, was, now, s)
    ensures |was| <= |now| && now[|was|..] <= s && (open ==> now[|was|..] == s)
  {
    assert now == (was + s)[..|now|];
  }
}

/** Message framing over byte channels: a four-byte little-endian length before
    each message, written through a channel that takes any part of what it is
    offered and may be closed at any time, and read back the same way. */
module Framing {
  import opened Prelude
  import opened Wire

  // ---------- the format ----------

  function Frame(parts: seq<seq<byte>>): seq<byte> {
    LE(|Concat(parts)| % TWO32, 4) + Concat(parts)
  }

  datatype Taken = Message(payload: seq<byte>, rest: seq<byte>) | EndOfStream | BadLength

  /** One `receive` on a stream that ends after `s`. */
  function TakeFrame(s: seq<byte>): (t: Taken)
    ensures t.Message? ==> |t.rest| < |s|
  {
    if |s| < 4 then EndOfStream else
      var n := Signed(FromLE(s[..4]), 4);
      if n < 0 then BadLength
      else if |s| < 4 + n then EndOfStream
      else Message(s[4..4 + n], s[4 + n..])
  }

  /** What repeated receives deliver before the first failure. */
  function ReceiveAll(s: seq<byte>): seq<seq<byte>>
    decreases |s|
  {
    match TakeFrame(s)
    case Message(m, rest) => [m] + ReceiveAll(rest)
    case _ => []
  }

  /** The frames of a list of messages, each a list of parts. */
  function StreamOf(msgs: seq<seq<seq<byte>>>): seq<byte> {
    if msgs == [] then [] else Frame(msgs[0]) + StreamOf(msgs[1..])
  }

  function Payloads(msgs: seq<seq<seq<byte>>>): (ps: seq<seq<byte>>)
    ensures |ps| == |msgs|
  {
    if msgs == [] then [] else [Concat(msgs[0])] + Payloads(msgs[1..])
  }

  /** Every message is shorter than the largest signed length. */
  predicate Sendable(msgs: seq<seq<seq<byte>>>) {
    forall i :: 0 <= i < |msgs| ==> |Concat(msgs[i])| < TWO31
  }

  lemma LengthReads(n: nat)
    requires n < TWO31
    ensures Signed(FromLE(LE(n % TWO32, 4)), 4) == n
  {
    hide LE, FromLE, Pow256;
    Pow256Values();
    LERoundTrip(n, 4);
    assert n % TWO32 == n;
  }

  /** A frame is the length of its payload, least significant byte first, and the
      payload. */
  lemma FrameBytes(parts: seq<seq<byte>>)
    ensures |Frame(parts)| == 4 + |Concat(parts)| && Frame(parts)[4..] == Concat(parts)
    ensures Word(Frame(parts)[..4]) == |Concat(parts)| % 0x1_0000_0000
  {
    hide Concat, LE, FromLE, Word;
    var n := |Concat(parts)| % TWO32;
    assert Frame(parts)[..4] == LE(n, 4);
    Pow256Values();
    LERoundTrip(n, 4);
    WordReads(Frame(parts)[..4]);
  }

  /** What is taken off a stream, by its bytes: nothing before the length is
      there, an error if it is negative, nothing before the payload is there, and
      then exactly the payload. */
  lemma TakenBytes(s: seq<byte>)
    ensures |s| < 4 ==> TakeFrame(s) == EndOfStream
    ensures |s| >= 4 ==>
              var n := SignedWord(s[..4]);
              && (n < 0 ==> TakeFrame(s) == BadLength)
              && (n >= 0 && |s| < 4 + n ==> TakeFrame(s) == EndOfStream)
              && (n >= 0 && |s| >= 4 + n ==> TakeFrame(s) == Message(s[4..4 + n], s[4 + n..]))
  {
    hide FromLE, Signed, SignedWord;
    if |s| >= 4 {
      WordReads(s[..4]);
    }
  }

  /** A whole frame is taken off the stream as the message it was made from. */
  lemma TakeWhole(parts: seq<seq<byte>>, rest: seq<byte>)
    requires |Concat(parts)| < TWO31
    ensures TakeFrame(Frame(parts) + rest) == Message(Concat(parts), rest)
  {
    hide Concat, LE, FromLE, Signed;
    var s := Frame(parts) + rest;
    LengthReads(|Concat(parts)|);
    assert s[..4] == LE(|Concat(parts)| % TWO32, 4);
    assert s[4..] == Concat(parts) + rest;
  }

  /** A part of a frame that lacks at least one byte is not taken. */
  lemma TakeCut(parts: seq<seq<byte>>, k: nat)
    requires |Concat(parts)| < TWO31 && k < |Frame(parts)|
    ensures TakeFrame(Frame(parts)[..k]) == EndOfStream
  {
    hide Concat, LE, FromLE, Signed;
    var s := Frame(parts)[..k];
    LengthReads(|Concat(parts)|);
    if k >= 4 {
      assert s[..4] == LE(|Concat(parts)| % TWO32, 4);
    }
  }

  /** Whatever part of the stream arrives before it ends, the receiver gets a
      prefix of the messages sent, none altered; the whole stream gives all. */
  lemma {:induction false} StreamRoundTrip(msgs: seq<seq<seq<byte>>>, k: nat)
    requires Sendable(msgs) && k <= |StreamOf(msgs)|
    ensures ReceiveAll(StreamOf(msgs)[..k]) <= Payloads(msgs)
    ensures k == |StreamOf(msgs)| ==> ReceiveAll(StreamOf(msgs)[..k]) == Payloads(msgs)
  {
    hide Frame, TakeFrame, Concat;
    var s := StreamOf(msgs);
    if msgs == [] {
      assert s[..k] == [];
      NothingTaken();
    } else {
      var f, tail := Frame(msgs[0]), msgs[1..];
      assert Sendable(tail) && |Concat(msgs[0])| < TWO31;
      if k < |f| {
        assert s[..k] == f[..k];
        TakeCut(msgs[0], k);
      } else {
        var rest := StreamOf(tail)[..k - |f|];
        assert s[..k] == f + rest;
        TakeWhole(msgs[0], rest);
        StreamRoundTrip(tail, k - |f|);
      }
    }
  }

  lemma NothingTaken()
    ensures TakeFrame([]) == EndOfStream
  {
  }

  // ---------- buffers and channels ----------

  function Zeros(n: nat): (s: seq<byte>)
    ensures |s| == n && forall k :: 0 <= k < n ==> s[k] == 0
  {
    seq(n, _ => 0)
  }

  class ByteBuffer {
    const data: array<byte>
    var position: nat
    var limit: nat

    ghost predicate Valid()
      reads this
    {
      position <= limit <= data.Length
    }

    function Remaining(): seq<byte>
      requires Valid()
      reads this, data
    {
      data[position..limit]
    }

    constructor Allocate(capacity: nat)
      ensures Valid() && fresh(data) && data.Length == capacity && position == 0 && limit == capacity
      ensures data[..] == Zeros(capacity)
    {
      data := new byte[capacity](_ => 0);
      position, limit := 0, capacity;
    }

    /** `put` of everything that remains in a duplicate of another buffer. */
    method Put(s: seq<byte>)
      requires Valid() && |s| <= limit - position
      modifies this`position, data
      ensures Valid() && position == old(position) + |s|
      ensures data[..position] == old(data[..position]) + s && data[position..] == old(data[..])[position..]
    {
      forall k | 0 <= k < |s| { data[position + k] := s[k]; }
      position := position + |s|;
    }

    method Flip()
      requires Valid()
      modifies this`position, this`limit
      ensures Valid() && position == 0 && limit == old(position)
    {
      limit := position;
      position := 0;
    }
  }

  /** A writable channel.  A write takes any part of what it is offered; it may
      take nothing only finitely often (`stalls`); the channel may be closed
      from elsewhere at any time. */
  class Channel {
    var written: seq<byte>
    var isOpen: bool
    var stalls: nat

    method Write(b: ByteBuffer)
      requires b.Valid() && isOpen
      modifies this, b`position
      ensures b.Valid() && old(b.position) <= b.position
      ensures written == old(written) + b.data[old(b.position)..b.position]
      ensures b.position > old(b.position) || stalls < old(stalls) || !isOpen || old(b.position) == b.limit
      ensures stalls <= old(stalls)
    {
      var n: nat :| n <= b.limit - b.position;
      var closes: bool := *;
      if n == 0 {
        if stalls == 0 {
          n := if b.position < b.limit then 1 else 0;
        } else {
          stalls := stalls - 1;
        }
      }
      written := written + b.data[b.position..b.position + n];
      b.position := b.position + n;
      isOpen := !closes;
    }
  }

  /** Everything was written if the channel is still open, a first part if not. */
  predicate Emitted(open: bool, was: seq<byte>, now: seq<byte>, s: seq<byte>) {
    if open then now == was + s else was <= now <= was + s
  }

  lemma EmittedThen(open1: bool, open2: bool, w0: seq<byte>, w1: seq<byte>, w2: seq<byte>, a: seq<byte>, b: seq<byte>)
    requires Emitted(open1, w0, w1, a) && Emitted(open2, w1, w2, b)
    requires (open2 ==> open1) && (!open1 ==> w2 == w1)
    ensures Emitted(open2, w0, w2, a + b)
  {
    assert w0 + a <= w0 + (a + b);
    if open1 {
      assert w0 + (a + b) == w1 + b;
    }
  }

  /** `writef`: writes all that remains and puts the position back. */
  method Writef(out: Channel, b: ByteBuffer)
    requires b.Valid()
    modifies out, b`position
    ensures b.Valid() && b.position == old(b.position)
    ensures out.isOpen ==> old(out.isOpen)
    ensures !old(out.isOpen) ==> out.written == old(out.written)
    ensures Emitted(out.isOpen, old(out.written), out.written, old(b.Remaining()))
  {
    var mark := b.position;
    while b.position < b.limit && out.isOpen
      invariant b.Valid() && mark <= b.position
      invariant out.isOpen ==> old(out.isOpen)
      invariant !old(out.isOpen) ==> out.written == old(out.written)
      invariant out.written == old(out.written) + b.data[mark..b.position]
      decreases out.isOpen, b.limit - b.position, out.stalls
    {
      out.Write(b);
    }
    assert b.data[mark..b.position] <= old(b.Remaining());
    b.position := mark;
  }

  ghost predicate AllValid(buffs: seq<ByteBuffer>)
    reads buffs
  {
    forall i :: 0 <= i < |buffs| ==> buffs[i].Valid()
  }

  ghost function Parts(buffs: seq<ByteBuffer>): (ps: seq<seq<byte>>)
    requires AllValid(buffs)
    reads buffs, set b | b in buffs :: b.data
    ensures |ps| == |buffs| && forall i :: 0 <= i < |ps| ==> ps[i] == buffs[i].Remaining()
  {
    if buffs == [] then [] else Parts(buffs[..|buffs| - 1]) + [buffs[|buffs| - 1].Remaining()]
  }

  predicate Unmoved(buffs: seq<ByteBuffer>, ps: seq<seq<byte>>, at: seq<nat>)
    requires |ps| == |buffs| == |at|
    reads buffs, set b | b in buffs :: b.data
  {
    forall i :: 0 <= i < |buffs| ==>
      && buffs[i].position <= buffs[i].limit <= buffs[i].data.Length
      && buffs[i].position == at[i] && buffs[i].data[buffs[i].position..buffs[i].limit] == ps[i]
  }

  method CountRemaining(buffs: seq<ByteBuffer>) returns (cnt: nat)
    requires AllValid(buffs)
    ensures cnt == |Concat(Parts(buffs))|
  {
    ghost var ps := Parts(buffs);
    cnt := 0;
    var i := 0;
    while i < |buffs|
      invariant 0 <= i <= |buffs| && cnt == |Concat(ps[..i])|
    {
      ConcatStep(ps, i);
      cnt := cnt + (buffs[i].limit - buffs[i].position);
      i := i + 1;
    }
    assert ps[..i] == ps;
  }

  // ---------- ChannelIo ----------

  const BLOCK: nat := 1400

  class ChannelIo {
    const chan: Channel

    constructor (chan: Channel)
      ensures this.chan == chan
    {
      this.chan := chan;
    }

    /** Writes what the coalescing buffer holds and empties it. */
    method Flush(concatBuf: ByteBuffer, ghost was: seq<byte>, ghost done: seq<byte>)
      requires concatBuf.Valid() && Emitted(chan.isOpen, was, chan.written, done)
      modifies chan, concatBuf`position, concatBuf`limit
      ensures concatBuf.Valid() && concatBuf.position == 0 && concatBuf.limit == concatBuf.data.Length
      ensures chan.isOpen ==> old(chan.isOpen)
      ensures !old(chan.isOpen) ==> chan.written == old(chan.written)
      ensures Emitted(chan.isOpen, was, chan.written, done + old(concatBuf.data[..concatBuf.position]))
    {
      ghost var open, w := chan.isOpen, chan.written;
      concatBuf.Flip();
      Writef(chan, concatBuf);
      EmittedThen(open, chan.isOpen, was, w, chan.written, done, concatBuf.Remaining());
      concatBuf.limit := concatBuf.data.Length;
    }

    /** Adds one buffer: coalesced if it fits, else after a flush, and written
        directly if it is larger than the coalescing buffer itself. */
    method Append(concatBuf: ByteBuffer, b: ByteBuffer, ghost was: seq<byte>, ghost done: seq<byte>)
      returns (ghost now: seq<byte>)
      requires concatBuf.Valid() && concatBuf.limit == concatBuf.data.Length && b.Valid()
      requires b != concatBuf && b.data != concatBuf.data
      requires Emitted(chan.isOpen, was, chan.written, done)
      modifies chan, concatBuf, concatBuf.data, b`position
      ensures concatBuf.Valid() && concatBuf.limit == concatBuf.data.Length && b.position == old(b.position)
      ensures chan.isOpen ==> old(chan.isOpen)
      ensures !old(chan.isOpen) ==> chan.written == old(chan.written)
      ensures Emitted(chan.isOpen, was, chan.written, now)
      ensures now + concatBuf.data[..concatBuf.position]
           == done + old(concatBuf.data[..concatBuf.position]) + old(b.Remaining())
    {
      now := done;
      if concatBuf.limit - concatBuf.position < b.limit - b.position {
        now := done + concatBuf.data[..concatBuf.position];
        Flush(concatBuf, was, done);
        if concatBuf.limit - concatBuf.position < b.limit - b.position {
          ghost var open, w, before := chan.isOpen, chan.written, now;
          Writef(chan, b);
          now := now + b.Remaining();
          EmittedThen(open, chan.isOpen, was, w, chan.written, before, b.Remaining());
        } else {
          concatBuf.Put(b.Remaining());
        }
      } else {
        concatBuf.Put(b.Remaining());
      }
    }

    method AppendAll(concatBuf: ByteBuffer, buffs: seq<ByteBuffer>, ghost ps: seq<seq<byte>>, ghost at: seq<nat>)
      returns (ghost done: seq<byte>)
      requires |ps| == |buffs| == |at| && Unmoved(buffs, ps, at)
      requires concatBuf.Valid() && concatBuf.limit == concatBuf.data.Length
      requires forall i :: 0 <= i < |buffs| ==> buffs[i] != concatBuf && buffs[i].data != concatBuf.data
      modifies chan, concatBuf, concatBuf.data, buffs`position
      ensures Unmoved(buffs, ps, at) && concatBuf.Valid() && concatBuf.limit == concatBuf.data.Length
      ensures chan.isOpen ==> old(chan.isOpen)
      ensures !old(chan.isOpen) ==> chan.written == old(chan.written)
      ensures Emitted(chan.isOpen, old(chan.written), chan.written, done)
      ensures done + concatBuf.data[..concatBuf.position] == old(concatBuf.data[..concatBuf.position]) + Concat(ps)
    {
      hide Concat;
      ghost var header := concatBuf.data[..concatBuf.position];
      done := [];
      assert Concat(ps[..0]) == [] by { ConcatNone(ps[..0]); }
      var i := 0;
      while i < |buffs|
        invariant 0 <= i <= |buffs| && Unmoved(buffs, ps, at)
        invariant concatBuf.Valid() && concatBuf.limit == concatBuf.data.Length
        invariant chan.isOpen ==> old(chan.isOpen)
        invariant !old(chan.isOpen) ==> chan.written == old(chan.written)
        invariant Emitted(chan.isOpen, old(chan.written), chan.written, done)
        invariant done + concatBuf.data[..concatBuf.position] == header + Concat(ps[..i])
      {
        ConcatStep(ps, i);
        assert buffs[i].Remaining() == ps[i];
        label before:
        ghost var d, c := done, concatBuf.data[..concatBuf.position];
        done := Append(concatBuf, buffs[i], old(chan.written), done);
        assert Unmoved(buffs, ps, at) by {
          assert forall j :: 0 <= j < |buffs| ==>
            buffs[j].position == old@before(buffs[j].position) && buffs[j].data[..] == old@before(buffs[j].data[..]);
        }
        Regroup(d, c, header, Concat(ps[..i]), ps[i]);
        i := i + 1;
      }
      assert ps[..i] == ps;
    }

    /** Emits exactly the frame of the buffers, or a first part of it if the
        channel is closed meanwhile, and leaves every buffer where it was. */
    method Send(buffs: seq<ByteBuffer>)
      requires AllValid(buffs)
      modifies chan, buffs`position
      ensures forall i :: 0 <= i < |buffs| ==> buffs[i].position == old(buffs[i].position)
      ensures chan.isOpen ==> old(chan.isOpen)
      ensures !old(chan.isOpen) ==> chan.written == old(chan.written)
      ensures Emitted(chan.isOpen, old(chan.written), chan.written, Frame(old(Parts(buffs))))
    {
      hide Concat, LE;
      ghost var ps := Parts(buffs);
      ghost var at := Positions(buffs);
      var cnt := CountRemaining(buffs);
      var concatBuf := new ByteBuffer.Allocate(BLOCK);
      concatBuf.Put(LE(cnt % TWO32, 4));
      assert concatBuf.data[..concatBuf.position] == LE(cnt % TWO32, 4);
      ghost var done := AppendAll(concatBuf, buffs, ps, at);
      Flush(concatBuf, old(chan.written), done);
    }
  }

  ghost function Positions(buffs: seq<ByteBuffer>): (at: seq<nat>)
    reads buffs
    ensures |at| == |buffs| && forall i :: 0 <= i < |at| ==> at[i] == buffs[i].position
  {
    seq(|buffs|, i requires 0 <= i < |buffs| reads buffs => buffs[i].position)
  }

  lemma Regroup(d: seq<byte>, c: seq<byte>, h: seq<byte>, x: seq<byte>, y: seq<byte>)
    requires d + c == h + x
    ensures d + c + y == h + (x + y)
  {
  }
}

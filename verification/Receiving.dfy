/** Reading frames back from a channel that hands over any part of what has
    arrived. */
module Receiving {
  import opened Prelude
  import opened Wire
  import opened Framing

  /** A readable channel.  `incoming` is what is still to come before the end
      of the stream; a read takes any part of it, nothing only finitely often,
      and the channel may be closed from elsewhere. */
  class InChannel {
    var incoming: seq<byte>
    var isOpen: bool
    var stalls: nat

    /** -1 at the end of the stream. */
    method Read(b: ByteBuffer) returns (n: int)
      requires b.Valid() && b.position < b.limit
      modifies this, b`position, b.data
      ensures b.Valid() && old(b.position) <= b.position
      ensures n == -1 <==> old(incoming) == []
      ensures n == -1 ==> b.position == old(b.position)
      ensures n != -1 ==> n == b.position - old(b.position) && n <= |old(incoming)|
      ensures incoming == old(incoming)[b.position - old(b.position)..]
      ensures b.data[..b.position] == old(b.data[..b.position]) + old(incoming)[..b.position - old(b.position)]
      ensures b.data[b.position..] == old(b.data[..])[b.position..]
      ensures stalls <= old(stalls) && (b.position > old(b.position) || n == -1 || stalls < old(stalls))
      ensures isOpen ==> old(isOpen)
    {
      var closes: bool := *;
      isOpen := isOpen && !closes;
      if incoming == [] {
        return -1;
      }
      var take: nat :| take <= b.limit - b.position && take <= |incoming|;
      if take == 0 {
        if stalls == 0 {
          take := 1;
        } else {
          stalls := stalls - 1;
        }
      }
      b.Put(incoming[..take]);
      incoming := incoming[take..];
      n := take;
    }
  }

  /** The first `got` bytes of `s` in a buffer of `n` zeros. */
  function Padded(s: seq<byte>, got: nat, n: nat): (p: seq<byte>)
    requires got <= n && got <= |s|
    ensures |p| == n
  {
    s[..got] + Zeros(n - got)
  }

  /** `readf`: fills the buffer and puts the position back; false is the end of
      the stream.  A channel closed meanwhile ends the loop early, and nothing
      tells how many bytes, `got`, were read. */
  method Readf(chan: InChannel, b: ByteBuffer) returns (ok: bool, ghost got: nat)
    requires b.Valid() && b.position == 0 && b.limit == b.data.Length && b.data[..] == Zeros(b.data.Length)
    modifies chan, b`position, b.data
    ensures b.Valid() && b.position == 0
    ensures chan.isOpen ==> old(chan.isOpen)
    ensures got <= b.data.Length && got <= |old(chan.incoming)|
    ensures b.data[..] == Padded(old(chan.incoming), got, b.data.Length) && chan.incoming == old(chan.incoming)[got..]
    ensures chan.isOpen && ok ==> got == b.data.Length
    ensures !old(chan.isOpen) ==> ok && got == 0
    ensures !ok ==> got == |old(chan.incoming)| < b.data.Length
  {
    hide Zeros, Padded;
    ghost var s := chan.incoming;
    PaddedNone(s, b.limit);
    while b.position < b.limit && chan.isOpen
      invariant b.Valid() && b.position <= |s| && b.limit == b.data.Length
      invariant chan.isOpen ==> old(chan.isOpen)
      invariant !old(chan.isOpen) ==> b.position == 0
      invariant b.data[..] == Padded(s, b.position, b.limit) && chan.incoming == s[b.position..]
      decreases b.limit - b.position, chan.stalls
    {
      ghost var p, was := b.position, b.data[..];
      var n := chan.Read(b);
      ReadOn(s, p, b.position, was, b.data[..]);
      if n < 0 {
        got := b.position;
        b.position := 0;
        return false, got;
      }
    }
    got := b.position;
    b.position := 0;
    ok := true;
  }

  lemma PaddedNone(s: seq<byte>, n: nat)
    ensures Padded(s, 0, n) == Zeros(n)
  {
  }

  lemma ReadOn(s: seq<byte>, p: nat, q: nat, was: seq<byte>, now: seq<byte>)
    requires p <= q <= |s| && q <= |was| == |now| && was == Padded(s, p, |was|)
    requires now[..q] == was[..p] + s[p..][..q - p] && now[q..] == was[q..]
    ensures now == Padded(s, q, |now|)
  {
    assert s[..p] + s[p..][..q - p] == s[..q] && was[..p] == s[..p];
    assert now == now[..q] + now[q..];
  }

  /** What `receive` gives when it has read `head` bytes of the length and
      `body` of the payload before the channel was closed: both are filled up
      with zeros, and no payload is read after a short length. */
  predicate CutShort(s: seq<byte>, r: Taken, head: nat, body: nat) {
    && head <= 4 && head <= |s|
    && var n := Signed(FromLE(Padded(s, head, 4)), 4);
       if n < 0 then r == BadLength
       else
         && body <= n && head + body <= |s| && (head < 4 ==> body == 0)
         && r == Message(Padded(s[head..], body, n), s[head + body..])
  }

  /** `receive` of both channel classes: length, then payload.  If the channel
      is still open afterwards, it took exactly the next frame; if not, the
      stream had ended or what was read is filled up with zeros. */
  method Receive(chan: InChannel) returns (r: Taken, ghost head: nat, ghost body: nat)
    modifies chan
    ensures chan.isOpen ==> old(chan.isOpen)
    ensures chan.isOpen ==> r == TakeFrame(old(chan.incoming)) && (r.Message? ==> chan.incoming == r.rest)
    ensures r == EndOfStream || CutShort(old(chan.incoming), r, head, body)
    ensures r == EndOfStream ==> chan.incoming == []
    ensures !old(chan.isOpen) ==> CutShort(old(chan.incoming), r, 0, 0)
  {
    hide Signed, FromLE, Zeros;
    ghost var s := chan.incoming;
    var lenBuf := new ByteBuffer.Allocate(4);
    var ok;
    body := 0;
    ok, head := Readf(chan, lenBuf);
    if !ok {
      return EndOfStream, head, 0;
    }
    if chan.isOpen {
      assert Padded(s, 4, 4) == s[..4];
    }
    var n := Signed(FromLE(lenBuf.data[..]), 4);
    if n < 0 {
      return BadLength, head, 0;
    }
    var buf := new ByteBuffer.Allocate(n);
    ghost var t := chan.incoming;
    ok, body := Readf(chan, buf);
    if !ok {
      return EndOfStream, head, body;
    }
    if chan.isOpen {
      assert s[4..][..n] == s[4..4 + n] && s[4..][n..] == s[4 + n..];
      assert Padded(t, n, n) == s[4..4 + n];
    }
    assert t[body..] == s[head + body..];
    r := Message(buf.data[..], chan.incoming);
  }

  /** What is read from a channel already closed is the empty message. */
  lemma NothingRead(s: seq<byte>, r: Taken)
    requires CutShort(s, r, 0, 0)
    ensures r == Message([], s)
  {
    hide Signed, FromLE;
    ZeroLength(s);
  }

  lemma ZeroLength(s: seq<byte>)
    ensures Signed(FromLE(Padded(s, 0, 4)), 4) == 0
  {
    hide LE, FromLE, Signed, Zeros;
    LengthReads(0);
    assert Padded(s, 0, 4) == LE(0 % TWO32, 4) by { LEZero(4); }
  }

  lemma {:induction false} LEZero(n: nat)
    ensures LE(0, n) == Zeros(n)
  {
    if n > 0 {
      LEZero(n - 1);
      assert Zeros(n) == [0] + Zeros(n - 1);
    }
  }

  // ---------- a channel closed while it is read ----------

  predicate ZeroFrom(s: seq<byte>, k: nat) {
    forall j :: k <= j < |s| ==> s[j] == 0
  }

  lemma PaddedIs(s: seq<byte>, got: nat, n: nat)
    requires got <= n <= |s|
    ensures Padded(s, got, n) == s[..n] <==> ZeroFrom(s[..n], got)
  {
    if Padded(s, got, n) == s[..n] {
      forall j | got <= j < n ensures s[..n][j] == 0 {
        assert Padded(s, got, n)[j] == Zeros(n - got)[j - got];
      }
    }
  }

  lemma SameLength(a: seq<byte>, b: seq<byte>)
    requires |a| == |b| == 4
    ensures Signed(FromLE(a), 4) == Signed(FromLE(b), 4) <==> a == b
  {
    FromLEInjective(a);
    FromLEInjective(b);
  }

  /** If the channel was closed while a whole frame was there to be read, the
      reader gets that frame exactly when every byte it missed is a zero. */
  lemma CutGenuine(s: seq<byte>, r: Taken, head: nat, body: nat)
    requires TakeFrame(s).Message? && CutShort(s, r, head, body)
    ensures r.Message? && r.payload == TakeFrame(s).payload
       <==> ZeroFrom(s[..4], head) && ZeroFrom(TakeFrame(s).payload, body)
  {
    hide Signed, FromLE, Zeros, ZeroFrom;
    var n := Signed(FromLE(s[..4]), 4);
    PaddedIs(s, head, 4);
    SameLength(s[..4], Padded(s, head, 4));
    if Padded(s, head, 4) == s[..4] {
      assert s[4..][..n] == s[4..4 + n];
      PaddedIs(s[4..], body, n);
      if head < 4 {
        assert Padded(s[head..], 0, n) == Padded(s[4..], 0, n);
      }
    }
  }

  /** Closed after the length, a message of one byte 7 is read as a zero. */
  lemma CutAltered(r: Taken)
    requires CutShort(Frame([[7]]), r, 4, 0)
    ensures r.Message? && r.payload == [0]
  {
    hide Signed, FromLE, LE;
    assert Concat([[7]]) == [7] by { ConcatOne([7]); }
    LengthReads(1);
    assert Padded(Frame([[7]]), 4, 4) == LE(1 % TWO32, 4);
    assert Padded(Frame([[7]])[4..], 0, 1) == [0];
  }
}

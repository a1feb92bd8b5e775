/** The gathering writer: one vector of buffers, written until the last of them
    is drained. */
module Gathering {
  import opened Prelude
  import opened Wire
  import opened Framing

  /** What is left of a vector of buffers when `n` bytes have been taken from it
      front to back. */
  function Drop(ps: seq<seq<byte>>, n: nat): (r: seq<seq<byte>>)
    ensures |r| == |ps|
  {
    if ps == [] then []
    else if n <= |ps[0]| then [ps[0][n..]] + ps[1..]
    else [[]] + Drop(ps[1..], n - |ps[0]|)
  }

  lemma ConcatFront(ps: seq<seq<byte>>)
    requires ps != []
    ensures Concat(ps) == ps[0] + Concat(ps[1..])
  {
    ConcatOne(ps[0]);
    ConcatAppend([ps[0]], ps[1..]);
    assert ps == [ps[0]] + ps[1..];
  }

  lemma {:induction false} ConcatDrop(ps: seq<seq<byte>>, n: nat)
    requires n <= |Concat(ps)|
    ensures Concat(Drop(ps, n)) == Concat(ps)[n..]
  {
    if ps != [] {
      ConcatFront(ps);
      ConcatFront(Drop(ps, n));
      if n <= |ps[0]| {
        assert Drop(ps, n)[1..] == ps[1..];
      } else {
        assert Drop(ps, n)[1..] == Drop(ps[1..], n - |ps[0]|);
        ConcatDrop(ps[1..], n - |ps[0]|);
      }
    }
  }

  lemma {:induction false} DropDrop(ps: seq<seq<byte>>, n: nat, m: nat)
    requires n + m <= |Concat(ps)|
    ensures Drop(Drop(ps, n), m) == Drop(ps, n + m)
  {
    if ps != [] {
      ConcatFront(ps);
      var d := Drop(ps, n);
      if n <= |ps[0]| {
        assert d[0] == ps[0][n..] && d[1..] == ps[1..];
        if n + m > |ps[0]| {
          assert m - |d[0]| == n + m - |ps[0]|;
        }
      } else {
        assert d[0] == [] && d[1..] == Drop(ps[1..], n - |ps[0]|);
        DropDrop(ps[1..], n - |ps[0]|, m);
        DropNothing(d[1..]);
      }
    }
  }

  lemma DropNothing(ps: seq<seq<byte>>)
    ensures Drop(ps, 0) == ps
  {
    if ps != [] {
      assert ps == [ps[0]] + ps[1..];
    }
  }

  /** If the last buffer held something, it is drained exactly when all are. */
  lemma {:induction false} LastDrained(ps: seq<seq<byte>>, n: nat)
    requires ps != [] && ps[|ps| - 1] != [] && n <= |Concat(ps)|
    ensures Drop(ps, n)[|ps| - 1] == [] <==> n == |Concat(ps)|
  {
    ConcatFront(ps);
    if |ps| == 1 {
      assert Concat(ps[1..]) == [];
    } else if n <= |ps[0]| {
      assert Drop(ps, n)[|ps| - 1] == ps[|ps| - 1];
      ConcatLast(ps[1..]);
    } else {
      LastDrained(ps[1..], n - |ps[0]|);
    }
  }

  lemma ConcatLast(ps: seq<seq<byte>>)
    requires ps != []
    ensures |Concat(ps)| >= |ps[|ps| - 1]|
  {
  }

  /** A gathering channel: one write takes any number of bytes from the front of
      the vector, none only finitely often. */
  class GatherChannel {
    var written: seq<byte>
    var stalls: nat

    method Write(bs: seq<ByteBuffer>) returns (ghost n: nat)
      requires AllValid(bs) && NoDup(bs) && Concat(Parts(bs)) != []
      modifies this, bs`position
      ensures AllValid(bs) && n <= |Concat(old(Parts(bs)))|
      ensures Parts(bs) == Drop(old(Parts(bs)), n)
      ensures written == old(written) + Concat(old(Parts(bs)))[..n]
      ensures stalls <= old(stalls) && (n > 0 || stalls < old(stalls))
    {
      hide Parts, Concat, Drop, After, Bytes;
      var total := CountRemaining(bs);
      var take: nat :| take <= total;
      if take == 0 {
        if stalls == 0 {
          take := 1;
        } else {
          stalls := stalls - 1;
        }
      }
      n := take;
      TakeFromStart(Parts(bs), take);
      TakeFrom(bs, 0, take);
    }

    method TakeOne(b: ByteBuffer, take: nat)
      requires b.Valid() && take <= b.limit - b.position
      modifies this`written, b`position
      ensures b.Valid() && b.Remaining() == old(b.Remaining())[take..]
      ensures written == old(written) + old(b.Remaining())[..take]
    {
      ghost var rem := b.Remaining();
      assert b.data[b.position..b.position + take] == rem[..take];
      written := written + b.data[b.position..b.position + take];
      b.position := b.position + take;
      assert b.data[b.position..b.limit] == rem[take..];
    }

    method TakeAt(bs: seq<ByteBuffer>, i: nat, take: nat)
      requires AllValid(bs) && NoDup(bs) && i < |bs| && take <= |Parts(bs)[i]|
      modifies this`written, bs`position
      ensures AllValid(bs) && Parts(bs) == old(Parts(bs))[i := old(Parts(bs))[i][take..]]
      ensures written == old(written) + old(Parts(bs))[i][..take]
    {
      hide Parts;
      ghost var ps := Parts(bs);
      TakeOne(bs[i], take);
      assert forall j :: 0 <= j < |bs| && j != i ==> bs[j] != bs[i] && bs[j].Valid() && bs[j].Remaining() == ps[j];
      PartsAre(bs, ps[i := ps[i][take..]]);
    }

    /** Takes `left` bytes from the buffers from index `i` on. */
    method TakeFrom(bs: seq<ByteBuffer>, i: nat, left: nat)
      requires AllValid(bs) && NoDup(bs) && i <= |bs| && left <= |Concat(Parts(bs)[i..])|
      modifies this`written, bs`position
      ensures AllValid(bs) && Parts(bs) == After(old(Parts(bs)), i, left)
      ensures written == old(written) + Bytes(old(Parts(bs)), i, left)
      decreases |bs| - i
    {
      hide Parts, Concat, After, Bytes;
      ghost var ps := Parts(bs);
      if i == |bs| {
        NoneLeft(ps, i, left);
        return;
      }
      var b := bs[i];
      if left <= b.limit - b.position {
        TakeFirst(ps, i, left);
        TakeAt(bs, i, left);
      } else {
        TakeRest(ps, i, left);
        var take := b.limit - b.position;
        TakeAt(bs, i, take);
        Regroup3(old(written), ps[i], Bytes(Parts(bs), i + 1, left - take));
        TakeFrom(bs, i + 1, left - take);
      }
    }
  }

  /** The parts left, and the bytes taken, when `left` bytes are taken from the
      parts from index `i` on. */
  function After(ps: seq<seq<byte>>, i: nat, left: nat): seq<seq<byte>>
    requires i <= |ps|
  {
    ps[..i] + Drop(ps[i..], left)
  }

  function Bytes(ps: seq<seq<byte>>, i: nat, left: nat): seq<byte>
    requires i <= |ps| && left <= |Concat(ps[i..])|
  {
    Concat(ps[i..])[..left]
  }

  lemma TakeFromStart(ps: seq<seq<byte>>, left: nat)
    requires left <= |Concat(ps)|
    ensures ps[0..] == ps && After(ps, 0, left) == Drop(ps, left) && Bytes(ps, 0, left) == Concat(ps)[..left]
  {
    hide Concat, Drop;
    assert ps[0..] == ps;
  }

  lemma NoneLeft(ps: seq<seq<byte>>, i: nat, left: nat)
    requires i == |ps| && left <= |Concat(ps[i..])|
    ensures After(ps, i, left) == ps && Bytes(ps, i, left) == []
  {
  }

  lemma Regroup3(w: seq<byte>, x: seq<byte>, y: seq<byte>)
    ensures w + x + y == w + (x + y) && x[..|x|] == x
  {
  }

  /** The first buffer has enough. */
  lemma TakeFirst(ps: seq<seq<byte>>, i: nat, left: nat)
    requires i < |ps| && left <= |ps[i]|
    ensures left <= |Concat(ps[i..])|
    ensures After(ps, i, left) == ps[i := ps[i][left..]] && Bytes(ps, i, left) == ps[i][..left]
  {
    hide Concat;
    ConcatFront(ps[i..]);
    assert ps[i..][1..] == ps[i + 1..] && ps[i..][0] == ps[i];
    assert ps[i := ps[i][left..]] == ps[..i] + ([ps[i][left..]] + ps[i + 1..]);
  }

  /** The first buffer is drained and the rest comes from those after it. */
  lemma TakeRest(ps: seq<seq<byte>>, i: nat, left: nat)
    requires i < |ps| && |ps[i]| < left <= |Concat(ps[i..])|
    ensures var q := ps[i := ps[i][|ps[i]|..]];
            && left - |ps[i]| <= |Concat(q[i + 1..])|
            && After(ps, i, left) == After(q, i + 1, left - |ps[i]|)
            && Bytes(ps, i, left) == ps[i] + Bytes(q, i + 1, left - |ps[i]|)
  {
    hide Concat;
    ConcatFront(ps[i..]);
    assert ps[i..][1..] == ps[i + 1..] && ps[i..][0] == ps[i];
    var q := ps[i := ps[i][|ps[i]|..]];
    assert q[i + 1..] == ps[i + 1..] && ps[i][|ps[i]|..] == [];
    AfterRest(ps, q, i, left);
  }

  lemma AfterRest(ps: seq<seq<byte>>, q: seq<seq<byte>>, i: nat, left: nat)
    requires i < |ps| && |ps[i]| < left && q == ps[i := []]
    ensures After(ps, i, left) == After(q, i + 1, left - |ps[i]|)
  {
    var rest := Drop(ps[i + 1..], left - |ps[i]|);
    assert ps[i..][1..] == ps[i + 1..] && q[i + 1..] == ps[i + 1..];
    assert Drop(ps[i..], left) == [[]] + rest;
    assert q[..i + 1] == ps[..i] + [[]];
  }

  lemma PartsAre(bs: seq<ByteBuffer>, ps: seq<seq<byte>>)
    requires AllValid(bs) && |ps| == |bs| && forall i :: 0 <= i < |bs| ==> ps[i] == bs[i].Remaining()
    ensures Parts(bs) == ps
  {
    hide Concat;
  }

  /** The buffers that hold something, in order. */
  ghost function NonEmpty(ps: seq<seq<byte>>): seq<seq<byte>> {
    if ps == [] then [] else
      NonEmpty(ps[..|ps| - 1]) + if ps[|ps| - 1] == [] then [] else [ps[|ps| - 1]]
  }

  lemma {:induction false} ConcatNonEmpty(ps: seq<seq<byte>>)
    ensures Concat(NonEmpty(ps)) == Concat(ps)
    ensures forall i :: 0 <= i < |NonEmpty(ps)| ==> NonEmpty(ps)[i] != []
  {
    if ps != [] {
      var init, last := ps[..|ps| - 1], ps[|ps| - 1];
      ConcatNonEmpty(init);
      if last == [] {
        assert NonEmpty(ps) == NonEmpty(init);
      } else {
        ConcatAppend(NonEmpty(init), [last]);
        ConcatOne(last);
      }
    }
  }

  class ChannelIo2 {
    const w: GatherChannel

    constructor (w: GatherChannel)
      ensures this.w == w
    {
      this.w := w;
    }

    /** The vector to write: the length buffer, then the non-empty buffers. */
    method Collect(cntBuf: ByteBuffer, buffs: seq<ByteBuffer>) returns (bbs: seq<ByteBuffer>)
      requires cntBuf.Valid() && AllValid(buffs) && NoDup(buffs) && cntBuf !in buffs
      ensures AllValid(bbs) && NoDup(bbs) && (forall b :: b in bbs ==> b == cntBuf || b in buffs)
      ensures Parts(bbs) == [cntBuf.Remaining()] + NonEmpty(Parts(buffs)) && bbs != []
      ensures forall b :: b in buffs ==> b in bbs || b.Remaining() == []
    {
      hide Parts, NonEmpty;
      ghost var ps := Parts(buffs);
      bbs := [cntBuf];
      var i := 0;
      PartsAre(bbs, [cntBuf.Remaining()]);
      NonEmptyNone(ps[..0]);
      while i < |buffs|
        invariant 0 <= i <= |buffs| && AllValid(bbs) && NoDup(bbs) && bbs != []
        invariant Collected(bbs, cntBuf, buffs, i)
        invariant Parts(bbs) == [cntBuf.Remaining()] + NonEmpty(ps[..i])
      {
        NonEmptyStep(ps, i);
        NotCollected(bbs, cntBuf, buffs, i);
        if buffs[i].limit - buffs[i].position > 0 {
          PartsAppend(bbs, buffs[i]);
          bbs := bbs + [buffs[i]];
        }
        i := i + 1;
      }
      assert ps[..i] == ps;
    }

    /** A buffer of four bytes holding the length, ready to be written. */
    method LengthBuffer(cnt: nat) returns (cntBuf: ByteBuffer)
      ensures fresh(cntBuf) && fresh(cntBuf.data) && cntBuf.Valid() && cntBuf.Remaining() == LE(cnt % TWO32, 4)
    {
      hide LE;
      cntBuf := new ByteBuffer.Allocate(4);
      cntBuf.Put(LE(cnt % TWO32, 4));
      assert cntBuf.data[..4] == LE(cnt % TWO32, 4);
      cntBuf.position := 0;
      assert cntBuf.data[0..4] == cntBuf.data[..4];
    }

    /** Emits exactly the frame of the buffers and drains every one of them,
        although only the last buffer of the vector is watched. */
    method Send(buffs: seq<ByteBuffer>)
      requires AllValid(buffs) && NoDup(buffs)
      modifies w, buffs`position
      ensures AllValid(buffs) && forall i :: 0 <= i < |buffs| ==> buffs[i].Remaining() == []
      ensures w.written == old(w.written) + Frame(old(Parts(buffs)))
    {
      hide Parts, NonEmpty, Concat, Drop, LE, Frame;
      ghost var ps := Parts(buffs);
      var cnt := CountRemaining(buffs);
      var cntBuf := LengthBuffer(cnt);
      PartsAre(buffs, ps);
      FrameParts(ps, [cntBuf.Remaining()] + NonEmpty(ps));
      WriteVector(cntBuf, buffs);
    }

    /** Writes the length buffer and the non-empty buffers. */
    method WriteVector(cntBuf: ByteBuffer, buffs: seq<ByteBuffer>)
      requires cntBuf.Valid() && AllValid(buffs) && NoDup(buffs) && cntBuf !in buffs
      requires var all := [cntBuf.Remaining()] + NonEmpty(Parts(buffs)); all[|all| - 1] != []
      modifies w, cntBuf`position, buffs`position
      ensures forall b :: b in buffs ==> b.Valid() && b.Remaining() == []
      ensures w.written == old(w.written) + Concat([old(cntBuf.Remaining())] + NonEmpty(old(Parts(buffs))))
    {
      hide Parts, NonEmpty, Concat, Drop;
      var bbs := Collect(cntBuf, buffs);
      assert forall k :: 0 <= k < |bbs| ==> bbs[k] == cntBuf || bbs[k] in buffs;
      label collected:
      assert forall b :: b in buffs && b !in bbs ==> b.Valid() && b.Remaining() == [];
      WriteAll(bbs);
      assert forall b :: b in buffs && b !in bbs ==> b.position == old@collected(b.position);
    }

    /** The loop: writes until the last buffer is drained. */
    method WriteAll(bbs: seq<ByteBuffer>)
      requires AllValid(bbs) && NoDup(bbs) && bbs != [] && bbs[|bbs| - 1].Remaining() != []
      modifies w, bbs`position
      ensures AllValid(bbs) && forall b :: b in bbs ==> b.Remaining() == []
      ensures w.written == old(w.written) + Concat(old(Parts(bbs)))
    {
      hide Parts, Concat, Drop;
      ghost var all, was := Parts(bbs), w.written;
      ghost var k := 0;
      DropNothing(all);
      while bbs[|bbs| - 1].limit - bbs[|bbs| - 1].position > 0
        invariant AllValid(bbs) && Progress(all, k, Parts(bbs), was, w.written)
        decreases |Concat(all)| - k, w.stalls
      {
        ghost var ps, now := Parts(bbs), w.written;
        NotDone(all, k, ps, was, now);
        ghost var n := w.Write(bbs);
        MoreDone(all, k, ps, was, now, n);
        k := k + n;
      }
      Done(all, k, Parts(bbs), was, w.written);
    }
  }

  /** After `k` of the bytes of `all`: what is left and what was written. */
  ghost predicate Progress(all: seq<seq<byte>>, k: nat, ps: seq<seq<byte>>, was: seq<byte>, now: seq<byte>) {
    k <= |Concat(all)| && ps == Drop(all, k) && now == was + Concat(all)[..k]
  }

  lemma NotDone(all: seq<seq<byte>>, k: nat, ps: seq<seq<byte>>, was: seq<byte>, now: seq<byte>)
    requires Progress(all, k, ps, was, now) && all != [] && all[|all| - 1] != [] && ps[|all| - 1] != []
    ensures k < |Concat(all)| && Concat(ps) == Concat(all)[k..] && Concat(ps) != []
  {
    hide Concat, Drop;
    ConcatDrop(all, k);
    LastDrained(all, k);
  }

  lemma MoreDone(all: seq<seq<byte>>, k: nat, ps: seq<seq<byte>>, was: seq<byte>, now: seq<byte>, n: nat)
    requires Progress(all, k, ps, was, now) && n <= |Concat(ps)|
    ensures k + n <= |Concat(all)| && Progress(all, k + n, Drop(ps, n), was, now + Concat(ps)[..n])
  {
    hide Concat, Drop;
    ConcatDrop(all, k);
    DropDrop(all, k, n);
    TakeMore(Concat(all), k, n);
  }

  lemma Done(all: seq<seq<byte>>, k: nat, ps: seq<seq<byte>>, was: seq<byte>, now: seq<byte>)
    requires Progress(all, k, ps, was, now) && all != [] && all[|all| - 1] != [] && ps[|all| - 1] == []
    ensures now == was + Concat(all) && forall i :: 0 <= i < |ps| ==> ps[i] == []
  {
    hide Concat, Drop;
    ConcatDrop(all, k);
    LastDrained(all, k);
    assert Concat(all)[..k] == Concat(all);
    AllDrained(ps);
  }

  lemma TakeMore(s: seq<byte>, k: nat, n: nat)
    requires k + n <= |s|
    ensures s[..k] + s[k..][..n] == s[..k + n]
  {
  }

  /** `bbs` holds the length buffer and just those of the first `i` buffers that
      have something left. */
  ghost predicate Collected(bbs: seq<ByteBuffer>, cntBuf: ByteBuffer, buffs: seq<ByteBuffer>, i: nat)
    requires i <= |buffs| && AllValid(buffs)
    reads buffs, set b | b in buffs :: b.data
  {
    && (forall b :: b in bbs ==> b == cntBuf || b in buffs[..i])
    && forall k :: 0 <= k < i ==> buffs[k] in bbs || buffs[k].Remaining() == []
  }

  lemma NotCollected(bbs: seq<ByteBuffer>, cntBuf: ByteBuffer, buffs: seq<ByteBuffer>, i: nat)
    requires i < |buffs| && AllValid(buffs) && NoDup(buffs) && cntBuf !in buffs && Collected(bbs, cntBuf, buffs, i)
    ensures buffs[i] !in bbs
    ensures buffs[i].Remaining() == [] ==> Collected(bbs, cntBuf, buffs, i + 1)
    ensures Collected(bbs + [buffs[i]], cntBuf, buffs, i + 1)
  {
    assert buffs[..i + 1] == buffs[..i] + [buffs[i]];
  }

  lemma NonEmptyNone(ps: seq<seq<byte>>)
    requires ps == []
    ensures NonEmpty(ps) == []
  {
  }

  lemma {:induction false} AllDrained(ps: seq<seq<byte>>)
    requires Concat(ps) == []
    ensures forall i :: 0 <= i < |ps| ==> ps[i] == []
  {
    if ps != [] {
      AllDrained(ps[..|ps| - 1]);
    }
  }

  lemma NonEmptyStep(ps: seq<seq<byte>>, i: nat)
    requires i < |ps|
    ensures NonEmpty(ps[..i + 1]) == NonEmpty(ps[..i]) + if ps[i] == [] then [] else [ps[i]]
  {
    assert ps[..i + 1][..i] == ps[..i];
  }

  lemma PartsAppend(bs: seq<ByteBuffer>, b: ByteBuffer)
    requires AllValid(bs) && b.Valid()
    ensures AllValid(bs + [b]) && Parts(bs + [b]) == Parts(bs) + [b.Remaining()]
  {
    PartsAre(bs + [b], Parts(bs) + [b.Remaining()]);
  }

  lemma FrameParts(ps: seq<seq<byte>>, all: seq<seq<byte>>)
    requires all == [LE(|Concat(ps)| % TWO32, 4)] + NonEmpty(ps)
    ensures Concat(all) == Frame(ps) && all[|all| - 1] != []
  {
    hide Concat, LE;
    ConcatNonEmpty(ps);
    ConcatFront(all);
    assert all[1..] == NonEmpty(ps);
  }
}

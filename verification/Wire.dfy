/** The byte-level encodings every layer shares: little-endian words, the
    escape-coded varint and length-prefixed byte strings, together with the
    reads a DataView performs at a position.

    Encoders are total.  Decoders read from a `View` (a window into a larger
    buffer) and either produce a value and the next position or fail the way
    a DataView does, with a range error. */
module Wire {

  type byte = b: int | 0 <= b < 256

  // ---------- concatenation ----------

  function Concat(parts: seq<seq<byte>>): seq<byte> {
    if parts == [] then [] else Concat(parts[..|parts| - 1]) + parts[|parts| - 1]
  }

  lemma {:induction false} ConcatAppend(a: seq<seq<byte>>, b: seq<seq<byte>>)
    ensures Concat(a + b) == Concat(a) + Concat(b)
  {
    if b == [] {
      assert a + b == a;
    } else {
      ConcatAppend(a, b[..|b| - 1]);
      assert (a + b)[..|a + b| - 1] == a + b[..|b| - 1];
    }
  }

  lemma ConcatNone(ps: seq<seq<byte>>)
    requires ps == []
    ensures Concat(ps) == []
  {
  }

  lemma ConcatOne(p: seq<byte>)
    ensures Concat([p]) == p
  {
    var one: seq<seq<byte>> := [p];
    assert one[..0] == [];
  }

  lemma ConcatStep(ps: seq<seq<byte>>, i: nat)
    requires i < |ps|
    ensures Concat(ps[..i + 1]) == Concat(ps[..i]) + ps[i]
  {
    assert ps[..i + 1][..i] == ps[..i];
  }

  const TWO31: nat := 0x8000_0000
  const TWO32: nat := 0x1_0000_0000

  function Pow256(n: nat): (p: nat)
    ensures p > 0
  {
    if n == 0 then 1 else 256 * Pow256(n - 1)
  }

  lemma Pow256Values()
    ensures Pow256(4) == TWO32
    ensures Pow256(8) == 0x1_0000_0000_0000_0000
  {
    assert Pow256(2) == 0x1_0000;
    assert Pow256(4) == 256 * (256 * Pow256(2));
    assert Pow256(6) == 256 * (256 * Pow256(4));
    assert Pow256(8) == 256 * (256 * Pow256(6));
  }

  // ---------- little-endian words ----------

  function LE(v: nat, n: nat): (s: seq<byte>)
    ensures |s| == n
  {
    if n == 0 then [] else [v % 256] + LE(v / 256, n - 1)
  }

  function FromLE(s: seq<byte>): (v: nat)
    ensures v < Pow256(|s|)
  {
    if s == [] then 0 else s[0] + 256 * FromLE(s[1..])
  }

  /** The least significant byte comes first. */
  lemma {:induction false} LittleEndian(v: nat, n: nat, i: nat)
    requires i < n
    ensures LE(v, n)[i] == v / Pow256(i) % 256
  {
    if i > 0 {
      LittleEndian(v / 256, n - 1, i - 1);
      DivDiv(v, 256, Pow256(i - 1));
    }
  }

  lemma DivDiv(v: nat, a: nat, b: nat)
    requires a > 0 && b > 0
    ensures v / a / b == v / (a * b)
  {
    var q, r, s := v / a, v % a, v / a % b;
    var t := q / b;
    assert q == t * b + s && v == q * a + r;
    assert v == t * (a * b) + (s * a + r) by {
      assert (t * b + s) * a == t * (a * b) + s * a;
    }
    assert 0 <= s * a + r < a * b by {
      assert s <= b - 1;
      MulMonotone(s, b - 1, a);
      assert (b - 1) * a == a * b - a;
      assert 0 <= s * a;
    }
    DivUnique(v, a * b, t, s * a + r);
  }

  lemma MulMonotone(x: nat, y: nat, a: nat)
    requires x <= y
    ensures x * a <= y * a
  {
    assert y * a - x * a == (y - x) * a;
    assert (y - x) * a >= 0;
  }

  lemma DivUnique(v: int, p: nat, q: int, r: int)
    requires p > 0 && v == q * p + r && 0 <= r < p
    ensures v / p == q
  {
    ModUnique(v, p, q, r);
    assert v == v / p * p + r;
    assert (v / p - q) * p == 0;
  }

  lemma {:induction false} LERoundTrip(v: nat, n: nat)
    requires v < Pow256(n)
    ensures FromLE(LE(v, n)) == v
  {
    if n > 0 {
      LERoundTrip(v / 256, n - 1);
      assert LE(v, n)[1..] == LE(v / 256, n - 1);
    }
  }

  lemma {:induction false} FromLEInjective(s: seq<byte>)
    ensures LE(FromLE(s), |s|) == s
  {
    if s != [] {
      FromLEInjective(s[1..]);
      var v := FromLE(s);
      assert v == s[0] + 256 * FromLE(s[1..]);
      assert v % 256 == s[0] && v / 256 == FromLE(s[1..]);
      assert LE(v, |s|) == [v % 256] + LE(v / 256, |s| - 1);
      assert s == [s[0]] + s[1..];
    }
  }

  /** The unsigned word an n-byte DataView setter stores for `v`. */
  function Wrap(v: int, n: nat): (u: nat)
    ensures u < Pow256(n)
  {
    v % Pow256(n)
  }

  /** The signed reading of an n-byte word (two's complement). */
  function Signed(u: nat, n: nat): int
  {
    if 2 * u < Pow256(n) then u else u - Pow256(n)
  }

  /** `v` is in the range of a signed n-byte integer. */
  predicate Fits(v: int, n: nat) {
    0 <= 2 * v + Pow256(n) < 2 * Pow256(n)
  }

  function EncInt(v: int, n: nat): (s: seq<byte>)
    ensures |s| == n
  {
    LE(Wrap(v, n), n)
  }

  /** A stored integer reads back as itself exactly when it fits the width. */
  lemma SignedRoundTrip(v: int, n: nat)
    ensures Signed(FromLE(EncInt(v, n)), n) == v <==> Fits(v, n)
  {
    var p := Pow256(n);
    LERoundTrip(Wrap(v, n), n);
    if Fits(v, n) {
      if v < 0 {
        assert v % p == v + p by { ModUnique(v, p, -1, v + p); }
      } else {
        assert v % p == v by { ModUnique(v, p, 0, v); }
      }
    }
  }

  lemma ModUnique(v: int, p: nat, q: int, r: int)
    requires p > 0 && v == q * p + r && 0 <= r < p
    ensures v % p == r
  {
    var q', r' := v / p, v % p;
    assert v == q' * p + r';
    assert (q - q') * p == r' - r && (q' - q) * p == r - r';
    if q > q' {
      MulAtLeast(q - q', p);
    } else if q < q' {
      MulAtLeast(q' - q, p);
    }
  }

  lemma MulAtLeast(k: int, p: nat)
    requires k >= 1
    ensures k * p >= p
  {
    assert k * p == p + (k - 1) * p;
    assert (k - 1) * p >= 0;
  }

  // ---------- session words ----------

  /** The session word of a request that wants no answer. */
  const SIGNAL: nat := 0xffff_ffff

  /** `w ^ 0x80000000` on a 32-bit word. */
  function FlipTop(w: nat): (r: nat)
    ensures w < TWO32 ==> r < TWO32 && r != w
  {
    if w < TWO31 then w + TWO31 else w - TWO31
  }

  // ---------- varint and byte strings ----------

  /** The two writers in the repository differ on one value: the scripting
      writer escapes 255, the C writer stores it as a bare byte. */
  datatype Writer = Script | C

  predicate Escapes(w: Writer, v: nat) {
    match w
    case Script => v >= 0xff
    case C => v > 0xff
  }

  function EncVarint(w: Writer, v: nat): (s: seq<byte>)
    ensures |s| == if Escapes(w, v) then 5 else 1
  {
    if Escapes(w, v) then [0xff] + EncInt(v, 4) else [v]
  }

  function EncBytes(w: Writer, b: seq<byte>): (s: seq<byte>)
  {
    EncVarint(w, |b|) + b
  }

  /** The varint writers byte by byte: up to 254, or 255 in C, the value is one
      byte; any other value is the byte 255 and the four bytes of its word, least
      significant first. */
  lemma VarintBytes(w: Writer, v: nat)
    requires v < TWO32
    ensures var s := EncVarint(w, v);
            if v <= (if w == C then 255 else 254) then s == [v]
            else
              && |s| == 5 && s[0] == 255
              && s[1] == v % 0x100 && s[2] == v / 0x100 % 0x100
              && s[3] == v / 0x1_0000 % 0x100 && s[4] == v / 0x100_0000 % 0x100
  {
    Pow256Values();
    ModUnique(v, TWO32, 0, v);
    WordBytes(v);
  }

  lemma WordBytes(v: nat)
    ensures var s := LE(v, 4);
            && s[0] == v % 0x100 && s[1] == v / 0x100 % 0x100
            && s[2] == v / 0x1_0000 % 0x100 && s[3] == v / 0x100_0000 % 0x100
  {
    assert Pow256(0) == 1 && Pow256(1) == 256 && Pow256(2) == 0x1_0000 && Pow256(3) == 0x100_0000;
    LittleEndian(v, 4, 0);
    LittleEndian(v, 4, 1);
    LittleEndian(v, 4, 2);
    LittleEndian(v, 4, 3);
  }

  /** Four bytes as a number, least significant first, and its signed reading. */
  function Word(b: seq<byte>): nat
    requires |b| == 4
  {
    var b0: int, b1: int, b2: int, b3: int := b[0], b[1], b[2], b[3];
    b0 + 0x100 * b1 + 0x1_0000 * b2 + 0x100_0000 * b3
  }

  function SignedWord(b: seq<byte>): int
    requires |b| == 4
  {
    if b[3] < 0x80 then Word(b) else Word(b) - 0x1_0000_0000
  }

  lemma WordReads(b: seq<byte>)
    requires |b| == 4
    ensures FromLE(b) == Word(b) && Signed(FromLE(b), 4) == SignedWord(b)
  {
    Pow256Values();
    assert FromLE(b[3..]) == b[3] by { assert b[3..][1..] == []; }
    assert FromLE(b[2..]) == b[2] + 256 * FromLE(b[3..]) by { assert b[2..][1..] == b[3..]; }
    assert FromLE(b[1..]) == b[1] + 256 * FromLE(b[2..]) by { assert b[1..][1..] == b[2..]; }
  }

  /** Eight bytes are two words, the lower one first. */
  lemma LongReads(b: seq<byte>)
    requires |b| == 8
    ensures FromLE(b) == Word(b[..4]) + 0x1_0000_0000 * Word(b[4..])
    ensures Signed(FromLE(b), 8) == Word(b[..4]) + 0x1_0000_0000 * SignedWord(b[4..])
  {
    Pow256Values();
    LowWordFirst(b);
    WordReads(b[..4]);
    WordReads(b[4..]);
  }

  lemma LowWordFirst(b: seq<byte>)
    requires |b| >= 4
    ensures FromLE(b) == FromLE(b[..4]) + 0x1_0000_0000 * FromLE(b[4..])
  {
    var c := b[..4];
    WordReads(c);
    assert b[1..][1..] == b[2..] && b[2..][1..] == b[3..] && b[3..][1..] == b[4..];
    assert FromLE(b) == b[0] + 256 * FromLE(b[1..]);
    assert FromLE(b[1..]) == b[1] + 256 * FromLE(b[2..]);
    assert FromLE(b[2..]) == b[2] + 256 * FromLE(b[3..]);
    assert FromLE(b[3..]) == b[3] + 256 * FromLE(b[4..]);
  }

  // ---------- reading from a view ----------

  datatype View = View(buffer: seq<byte>, offset: nat, length: nat) {
    predicate Valid() { offset + length <= |buffer| }

    /** The view shows exactly the bytes `s` from `pos` on. */
    predicate Holds(pos: nat, s: seq<byte>): (h: bool)
      ensures h ==> Valid() && pos + |s| <= length
    {
      && Valid()
      && pos + |s| <= length
      && buffer[offset + pos..offset + pos + |s|] == s
    }
  }

  datatype Parse<+T> = Parsed(value: T, next: nat) | RangeError

  lemma HoldsSplit(v: View, pos: nat, a: seq<byte>, b: seq<byte>)
    requires v.Holds(pos, a + b)
    ensures v.Holds(pos, a) && v.Holds(pos + |a|, b)
  {
    var w := v.buffer[v.offset + pos..v.offset + pos + |a + b|];
    assert w[..|a|] == a && w[|a|..] == b;
    assert v.buffer[v.offset + pos..v.offset + pos + |a|] == w[..|a|];
    assert v.buffer[v.offset + pos + |a|..v.offset + pos + |a| + |b|] == w[|a|..];
  }

  /** DataView.getUintN at `pos`: bounded by the view. */
  function DecWord(v: View, pos: nat, n: nat): (r: Parse<nat>)
    requires v.Valid()
    ensures r.Parsed? ==> r.next == pos + n && r.value < Pow256(n)
  {
    if pos + n <= v.length
    then Parsed(FromLE(v.buffer[v.offset + pos..v.offset + pos + n]), pos + n)
    else RangeError
  }

  function DecInt(v: View, pos: nat, n: nat): Parse<int>
    requires v.Valid()
  {
    match DecWord(v, pos, n)
    case Parsed(u, p) => Parsed(Signed(u, n), p)
    case RangeError => RangeError
  }

  function DecVarint(v: View, pos: nat): Parse<nat>
    requires v.Valid()
  {
    match DecWord(v, pos, 1)
    case Parsed(b, p) => if b == 0xff then DecWord(v, p, 4) else Parsed(b, p)
    case RangeError => RangeError
  }

  /** A byte string is a typed-array window on the underlying buffer, so its
      extent is checked against the buffer, not against the view. */
  function DecBytes(v: View, pos: nat): Parse<seq<byte>>
    requires v.Valid()
  {
    match DecVarint(v, pos)
    case Parsed(n, p) =>
      if v.offset + p + n <= |v.buffer|
      then Parsed(v.buffer[v.offset + p..v.offset + p + n], p + n)
      else RangeError
    case RangeError => RangeError
  }

  /** A short byte string is read if all of it lies in the underlying buffer, also
      past the end of the view; only its length must lie in the view. */
  lemma BytesExtent(v: View, pos: nat)
    requires v.Valid() && pos < v.length && v.buffer[v.offset + pos] < 255
    ensures var n := v.buffer[v.offset + pos];
            DecBytes(v, pos) ==
              if v.offset + pos + 1 + n <= |v.buffer|
              then Parsed(v.buffer[v.offset + pos + 1..v.offset + pos + 1 + n], pos + 1 + n)
              else RangeError
  {
    var n := v.buffer[v.offset + pos];
    ByteLE(n);
    assert v.buffer[v.offset + pos..v.offset + pos + 1] == [n];
  }

  lemma DecWordOf(v: View, pos: nat, u: nat, n: nat)
    requires u < Pow256(n) && v.Holds(pos, LE(u, n))
    ensures DecWord(v, pos, n) == Parsed(u, pos + n)
  {
    LERoundTrip(u, n);
  }

  lemma DecIntOf(v: View, pos: nat, x: int, n: nat)
    requires Fits(x, n) && v.Holds(pos, EncInt(x, n))
    ensures DecInt(v, pos, n) == Parsed(x, pos + n)
  {
    LERoundTrip(Wrap(x, n), n);
    SignedRoundTrip(x, n);
  }

  lemma ByteLE(b: byte)
    ensures FromLE([b]) == b
  {
    assert [b][1..] == [];
  }

  lemma DecVarintOf(v: View, pos: nat, x: nat)
    requires x < TWO32 && v.Holds(pos, EncVarint(Script, x))
    ensures DecVarint(v, pos) == Parsed(x, pos + |EncVarint(Script, x)|)
  {
    Pow256Values();
    if x >= 0xff {
      HoldsSplit(v, pos, [0xff], EncInt(x, 4));
      ByteLE(0xff);
      assert Wrap(x, 4) == x by { ModUnique(x, TWO32, 0, x); }
      DecWordOf(v, pos + 1, x, 4);
    } else {
      ByteLE(x);
    }
  }

  lemma DecBytesOf(v: View, pos: nat, b: seq<byte>)
    requires |b| < TWO32 && v.Holds(pos, EncBytes(Script, b))
    ensures DecBytes(v, pos) == Parsed(b, pos + |EncBytes(Script, b)|)
  {
    HoldsSplit(v, pos, EncVarint(Script, |b|), b);
    DecVarintOf(v, pos, |b|);
  }

  function Whole(s: seq<byte>): (v: View)
    ensures v.Valid()
  {
    View(s, 0, |s|)
  }

  /** The C writer is undone by the reader, whatever bytes follow, for every
      32-bit value except 255. */
  lemma CVarintDecodable(x: nat)
    requires x < TWO32
    ensures (forall rest: seq<byte> ::
               DecVarint(Whole(EncVarint(C, x) + rest), 0) == Parsed(x, |EncVarint(C, x)|))
            <==> x != 0xff
  {
    if x == 0xff {
      var v := Whole(EncVarint(C, x) + []);
      ByteLE(0xff);
      assert v.buffer[0..1] == [0xff];
      assert DecVarint(v, 0) == RangeError;
    } else {
      assert EncVarint(C, x) == EncVarint(Script, x);
      forall rest: seq<byte>
        ensures DecVarint(Whole(EncVarint(C, x) + rest), 0) == Parsed(x, |EncVarint(C, x)|)
      {
        var v := Whole(EncVarint(C, x) + rest);
        assert v.Holds(0, EncVarint(Script, x));
        DecVarintOf(v, 0, x);
      }
    }
  }

  /** What a reader makes of the bare escape byte the C writer leaves: it
      takes the four bytes that follow as the value. */
  lemma CVarintMisread(rest: seq<byte>)
    requires |rest| >= 4
    ensures DecVarint(Whole(EncVarint(C, 0xff) + rest), 0) == Parsed(FromLE(rest[..4]), 5)
  {
    var v := Whole(EncVarint(C, 0xff) + rest);
    ByteLE(0xff);
    assert v.buffer[0..1] == [0xff];
    assert v.buffer[1..5] == rest[..4];
  }
}

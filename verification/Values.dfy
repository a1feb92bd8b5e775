/** The serializable values of the protocol and their encodings.  Floats are
    carried as their IEEE bit patterns and strings as their UTF-8 bytes; an
    object travels as its 32-bit reference-pool index, -1 for null. */
module Values {
  import opened Wire

  datatype Value =
    | Int32(i: int)
    | Int64(l: int)
    | Float32(bits32: nat)
    | Float64(bits64: nat)
    | Bytes(data: seq<byte>)
    | Str(utf8: seq<byte>)
    | Bool(b: bool)
    | Ref(index: int)
    | Varint(n: nat)
  {
    /** The value is one its put method stores without loss. */
    predicate Fitting() {
      match this
      case Int32(i) => Fits(i, 4)
      case Int64(l) => Fits(l, 8)
      case Float32(bits) => bits < Pow256(4)
      case Float64(bits) => bits < Pow256(8)
      case Bytes(b) => |b| < TWO32
      case Str(b) => |b| < TWO32
      case Bool(_) => true
      case Ref(i) => Fits(i, 4)
      case Varint(n) => n < TWO32
    }

    function Kind(): Kind {
      match this
      case Int32(_) => KInt
      case Int64(_) => KLong
      case Float32(_) => KFloat
      case Float64(_) => KDouble
      case Bytes(_) => KBytes
      case Str(_) => KStr
      case Bool(_) => KBool
      case Ref(_) => KRef
      case Varint(_) => KVarint
    }
  }

  datatype Kind = KInt | KLong | KFloat | KDouble | KBytes | KStr | KBool | KRef | KVarint

  function Enc(w: Writer, x: Value): seq<byte> {
    match x
    case Int32(i) => EncInt(i, 4)
    case Int64(l) => EncInt(l, 8)
    case Float32(bits) => EncInt(bits, 4)
    case Float64(bits) => EncInt(bits, 8)
    case Bytes(b) => EncBytes(w, b)
    case Str(b) => EncBytes(w, b)
    case Bool(b) => EncVarint(w, if b then 1 else 0)
    case Ref(i) => EncInt(i, 4)
    case Varint(n) => EncVarint(w, n)
  }

  function Map<A, B>(p: Parse<A>, f: A -> B): Parse<B> {
    match p
    case Parsed(a, next) => Parsed(f(a), next)
    case RangeError => RangeError
  }

  function Dec(k: Kind, v: View, pos: nat): (r: Parse<Value>)
    requires v.Valid()
    ensures r.Parsed? ==> r.value.Kind() == k
  {
    match k
    case KInt => Map(DecInt(v, pos, 4), i => Int32(i))
    case KLong => Map(DecInt(v, pos, 8), l => Int64(l))
    case KFloat => Map(DecWord(v, pos, 4), u => Float32(u))
    case KDouble => Map(DecWord(v, pos, 8), u => Float64(u))
    case KBytes => Map(DecBytes(v, pos), b => Bytes(b))
    case KStr => Map(DecBytes(v, pos), b => Str(b))
    case KBool => Map(DecVarint(v, pos), n => Bool(n != 0))
    case KRef => Map(DecInt(v, pos, 4), i => Ref(i))
    case KVarint => Map(DecVarint(v, pos), n => Varint(n))
  }

  lemma DecOf(x: Value, v: View, pos: nat)
    requires x.Fitting() && v.Holds(pos, Enc(Script, x))
    ensures Dec(x.Kind(), v, pos) == Parsed(x, pos + |Enc(Script, x)|)
  {
    match x
    case Int32(i) => DecIntOf(v, pos, i, 4);
    case Int64(l) => DecIntOf(v, pos, l, 8);
    case Float32(bits) =>
      ModUnique(bits, Pow256(4), 0, bits);
      DecWordOf(v, pos, bits, 4);
    case Float64(bits) =>
      ModUnique(bits, Pow256(8), 0, bits);
      DecWordOf(v, pos, bits, 8);
    case Bytes(b) => DecBytesOf(v, pos, b);
    case Str(b) => DecBytesOf(v, pos, b);
    case Bool(b) => DecVarintOf(v, pos, if b then 1 else 0);
    case Ref(i) => DecIntOf(v, pos, i, 4);
    case Varint(n) => DecVarintOf(v, pos, n);
  }

  /** The bytes of each kind of value: numbers least significant byte first and
      in two's complement, a boolean as the byte 1 or 0, an object as its index. */
  lemma NumberBytes(w: Writer, x: Value)
    requires x.Fitting()
    ensures var b := Enc(w, x);
            match x
            case Int32(i) => |b| == 4 && SignedWord(b) == i
            case Int64(l) => |b| == 8 && Word(b[..4]) + 0x1_0000_0000 * SignedWord(b[4..]) == l
            case Float32(bits) => |b| == 4 && Word(b) == bits
            case Float64(bits) => |b| == 8 && Word(b[..4]) + 0x1_0000_0000 * Word(b[4..]) == bits
            case Bool(t) => b == if t then [1] else [0]
            case Ref(i) => |b| == 4 && SignedWord(b) == i
            case _ => true
  {
    hide FromLE, LE;
    var b := Enc(w, x);
    match x
    case Int32(i) => SignedRoundTrip(i, 4); WordReads(b);
    case Int64(l) => SignedRoundTrip(l, 8); LongReads(b);
    case Float32(bits) => ModUnique(bits, Pow256(4), 0, bits); LERoundTrip(bits, 4); WordReads(b);
    case Float64(bits) => ModUnique(bits, Pow256(8), 0, bits); LERoundTrip(bits, 8); LongReads(b);
    case Ref(i) => SignedRoundTrip(i, 4); WordReads(b);
    case _ =>
  }

  /** A byte string and a string are their length and their bytes. */
  lemma StringBytes(w: Writer, data: seq<byte>)
    requires |data| < 255
    ensures Enc(w, Bytes(data)) == Enc(w, Str(data)) == [|data|] + data
  {
  }

  // ---------- sequences of values ----------

  function Pieces(w: Writer, xs: seq<Value>): (ps: seq<seq<byte>>)
    ensures |ps| == |xs| && forall i :: 0 <= i < |xs| ==> ps[i] == Enc(w, xs[i])
  {
    seq(|xs|, i requires 0 <= i < |xs| => Enc(w, xs[i]))
  }

  function EncAll(w: Writer, xs: seq<Value>): seq<byte> {
    Concat(Pieces(w, xs))
  }

  lemma EncAllEmpty(w: Writer)
    ensures EncAll(w, []) == []
  {
  }

  lemma EncAllSnoc(w: Writer, xs: seq<Value>, x: Value)
    ensures EncAll(w, xs + [x]) == EncAll(w, xs) + Enc(w, x)
  {
    var ps := Pieces(w, xs + [x]);
    assert ps[..|ps| - 1] == Pieces(w, xs);
  }

  lemma EncAllAppend(w: Writer, xs: seq<Value>, ys: seq<Value>)
    ensures EncAll(w, xs + ys) == EncAll(w, xs) + EncAll(w, ys)
  {
    assert Pieces(w, xs + ys) == Pieces(w, xs) + Pieces(w, ys);
    ConcatAppend(Pieces(w, xs), Pieces(w, ys));
  }

  function DecAll(ks: seq<Kind>, v: View, pos: nat): (r: Parse<seq<Value>>)
    requires v.Valid()
    ensures r.Parsed? ==> |r.value| == |ks|
  {
    if ks == [] then Parsed([], pos) else
      match DecAll(ks[..|ks| - 1], v, pos)
      case RangeError => RangeError
      case Parsed(xs, p) =>
        match Dec(ks[|ks| - 1], v, p)
        case Parsed(x, q) => Parsed(xs + [x], q)
        case RangeError => RangeError
  }

  lemma DecAllSnoc(ks: seq<Kind>, k: Kind, v: View, pos: nat, xs: seq<Value>, p: nat, x: Value, q: nat)
    requires v.Valid()
    requires DecAll(ks, v, pos) == Parsed(xs, p)
    requires Dec(k, v, p) == Parsed(x, q)
    ensures DecAll(ks + [k], v, pos) == Parsed(xs + [x], q)
  {
    assert (ks + [k])[..|ks + [k]| - 1] == ks;
  }

  function Kinds(xs: seq<Value>): (ks: seq<Kind>)
    ensures |ks| == |xs| && forall i :: 0 <= i < |xs| ==> ks[i] == xs[i].Kind()
  {
    seq(|xs|, i requires 0 <= i < |xs| => xs[i].Kind())
  }

  /** Any sequence of puts is undone by the matching sequence of gets, whatever
      surrounds the bytes written. */
  lemma {:induction false} DecAllOf(xs: seq<Value>, v: View, pos: nat)
    requires forall x :: x in xs ==> x.Fitting()
    requires v.Holds(pos, EncAll(Script, xs))
    ensures DecAll(Kinds(xs), v, pos) == Parsed(xs, pos + |EncAll(Script, xs)|)
  {
    if xs != [] {
      var init, last := xs[..|xs| - 1], xs[|xs| - 1];
      assert xs == init + [last];
      EncAllSnoc(Script, init, last);
      HoldsSplit(v, pos, EncAll(Script, init), Enc(Script, last));
      DecAllOf(init, v, pos);
      var p := pos + |EncAll(Script, init)|;
      DecOf(last, v, p);
      assert Kinds(xs) == Kinds(init) + [last.Kind()];
      DecAllSnoc(Kinds(init), last.Kind(), v, pos, init, p, last, p + |Enc(Script, last)|);
    }
  }

  /** Two value sequences of the same kinds with the same encoding are equal. */
  lemma EncAllInjective(xs: seq<Value>, ys: seq<Value>)
    requires forall x :: x in xs + ys ==> x.Fitting()
    requires Kinds(xs) == Kinds(ys) && EncAll(Script, xs) == EncAll(Script, ys)
    ensures xs == ys
  {
    var v := Whole(EncAll(Script, xs));
    assert forall x :: x in xs || x in ys ==> x in xs + ys;
    assert v.Holds(0, EncAll(Script, xs));
    DecAllOf(xs, v, 0);
    DecAllOf(ys, v, 0);
  }

  // ---------- the two varint writers compared ----------

  /** How many varints of `x` carry the value 255. */
  function Escapes255(x: Value): nat {
    match x
    case Bytes(b) => if |b| == 0xff then 1 else 0
    case Str(b) => if |b| == 0xff then 1 else 0
    case Varint(n) => if n == 0xff then 1 else 0
    case _ => 0
  }

  function Count255(xs: seq<Value>): nat {
    if xs == [] then 0 else Count255(xs[..|xs| - 1]) + Escapes255(xs[|xs| - 1])
  }

  lemma ValueLengths(x: Value)
    ensures |Enc(Script, x)| == |Enc(C, x)| + 4 * Escapes255(x)
    ensures Escapes255(x) == 0 ==> Enc(Script, x) == Enc(C, x)
  {
  }

  lemma {:induction false} WriterLengths(xs: seq<Value>)
    ensures |EncAll(Script, xs)| == |EncAll(C, xs)| + 4 * Count255(xs)
    ensures Count255(xs) == 0 ==> EncAll(Script, xs) == EncAll(C, xs)
  {
    if xs != [] {
      var init, last := xs[..|xs| - 1], xs[|xs| - 1];
      WriterLengths(init);
      ValueLengths(last);
      assert xs == init + [last];
      EncAllSnoc(Script, init, last);
      EncAllSnoc(C, init, last);
    }
  }

  /** The C and the scripting serializer produce the same bytes for a sequence
      of puts exactly when none of its varints is 255. */
  lemma WritersAgree(xs: seq<Value>)
    ensures EncAll(Script, xs) == EncAll(C, xs) <==> Count255(xs) == 0
  {
    WriterLengths(xs);
  }
}

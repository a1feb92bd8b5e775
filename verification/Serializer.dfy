/** The growable serializer: a position in an array that is reallocated when
    the next write would not fit.  The scripting and the C serializer grow and
    store alike; they differ only in which values PutVarint escapes.  Every put
    extends the bytes written so far by exactly one encoding; every get reads
    what the pure decoder reads. */
module SerializerModule {
  import opened Wire
  import opened Values

  class Serializer {
    const writer: Writer
    var buffer: array<byte>
    var byteOffset: nat
    var byteLength: nat
    var pos: nat

    ghost predicate Valid()
      reads this
    {
      byteOffset + byteLength <= buffer.Length
    }

    /** The state of a serializer prepared for writing. */
    ghost predicate Writing()
      reads this
    {
      byteOffset == 0 && byteLength == buffer.Length && pos <= buffer.Length
    }

    ghost function Written(): seq<byte>
      requires Writing()
      reads this, buffer
    {
      buffer[..pos]
    }

    function Window(): (v: View)
      requires Valid()
      reads this, buffer
      ensures v.Valid()
    {
      View(buffer[..], byteOffset, byteLength)
    }

    constructor PrepareSerializing(writer: Writer, initBufSize: nat)
      ensures Writing() && Written() == [] && fresh(buffer) && this.writer == writer
    {
      this.writer := writer;
      buffer := new byte[initBufSize];
      byteOffset, byteLength, pos := 0, initBufSize, 0;
    }

    constructor PrepareUnserializing(source: array<byte>, offset: nat, length: nat)
      requires offset + length <= source.Length
      ensures Valid() && pos == 0
      ensures buffer == source && byteOffset == offset && byteLength == length
    {
      writer := Script;
      buffer, byteOffset, byteLength, pos := source, offset, length, 0;
    }

    method EnsureBuffer(remainSize: nat)
      requires Writing()
      modifies this
      ensures Writing() && pos == old(pos) && pos + remainSize <= buffer.Length
      ensures Written() == old(Written())
      ensures buffer == old(buffer) || fresh(buffer)
      ensures old(pos + remainSize <= buffer.Length) ==> buffer == old(buffer)
    {
      if pos + remainSize > buffer.Length {
        var newSize := pos + remainSize;
        newSize := newSize + newSize / 2;
        var grown := new byte[newSize];
        forall k | 0 <= k < pos {
          grown[k] := buffer[k];
        }
        buffer, byteOffset, byteLength := grown, 0, newSize;
      }
    }

    /** Typed-array `set` at the position, after room has been made. */
    method Store(s: seq<byte>)
      requires Writing()
      modifies this, buffer
      ensures Writing() && (buffer == old(buffer) || fresh(buffer))
      ensures Written() == old(Written()) + s
    {
      EnsureBuffer(|s|);
      forall k | 0 <= k < |s| {
        buffer[pos + k] := s[k];
      }
      pos := pos + |s|;
    }

    method PutInt(val: int)
      requires Writing()
      modifies this, buffer
      ensures Writing() && (buffer == old(buffer) || fresh(buffer))
      ensures Written() == old(Written()) + Enc(writer, Int32(val))
    {
      Store(EncInt(val, 4));
    }

    method PutLong(val: int)
      requires Writing()
      modifies this, buffer
      ensures Writing() && (buffer == old(buffer) || fresh(buffer))
      ensures Written() == old(Written()) + Enc(writer, Int64(val))
    {
      Store(EncInt(val, 8));
    }

    method PutFloat(bits: nat)
      requires Writing()
      modifies this, buffer
      ensures Writing() && (buffer == old(buffer) || fresh(buffer))
      ensures Written() == old(Written()) + Enc(writer, Float32(bits))
    {
      Store(EncInt(bits, 4));
    }

    method PutDouble(bits: nat)
      requires Writing()
      modifies this, buffer
      ensures Writing() && (buffer == old(buffer) || fresh(buffer))
      ensures Written() == old(Written()) + Enc(writer, Float64(bits))
    {
      Store(EncInt(bits, 8));
    }

    method PutVarint(val: nat)
      requires Writing()
      modifies this, buffer
      ensures Writing() && (buffer == old(buffer) || fresh(buffer))
      ensures Written() == old(Written()) + Enc(writer, Varint(val))
    {
      if Escapes(writer, val) {
        EnsureBuffer(5);
        buffer[pos] := 0xff;
        pos := pos + 1;
        Store(EncInt(val, 4));
      } else {
        EnsureBuffer(1);
        buffer[pos] := val;
        pos := pos + 1;
      }
    }

    method PutBytes(b: seq<byte>)
      requires Writing()
      modifies this, buffer
      ensures Writing() && (buffer == old(buffer) || fresh(buffer))
      ensures Written() == old(Written()) + Enc(writer, Bytes(b))
      ensures Written() == old(Written()) + Enc(writer, Str(b))
    {
      hide EncVarint;
      ghost var was, n := Written(), EncVarint(writer, |b|);
      PutVarint(|b|);
      Store(b);
      assert Written() == was + (n + b);
    }

    /** Dispatch on the value, as a table column does on its type. */
    method Put(x: Value)
      requires Writing()
      modifies this, buffer
      ensures Writing() && (buffer == old(buffer) || fresh(buffer))
      ensures Written() == old(Written()) + Enc(writer, x)
    {
      match x
      case Int32(i) => PutInt(i);
      case Int64(l) => PutLong(l);
      case Float32(bits) => PutFloat(bits);
      case Float64(bits) => PutDouble(bits);
      case Bytes(b) => PutBytes(b);
      case Str(b) => PutBytes(b);
      case Bool(b) => PutVarint(if b then 1 else 0);
      case Ref(i) => PutInt(i);
      case Varint(n) => PutVarint(n);
    }

    method Build() returns (s: seq<byte>)
      requires Writing()
      ensures s == Written()
    {
      s := buffer[..pos];
    }

    /** DataView.getUintN followed by the advance; a failed read leaves the
        position where it was. */
    method GetWord(n: nat) returns (r: Parse<nat>)
      requires Valid()
      modifies this`pos
      ensures r == DecWord(Window(), old(pos), n)
      ensures pos == if r.Parsed? then r.next else old(pos)
    {
      if pos + n > byteLength {
        return RangeError;
      }
      r := Parsed(FromLE(buffer[byteOffset + pos..byteOffset + pos + n]), pos + n);
      assert Window().buffer[byteOffset + pos..byteOffset + pos + n] == buffer[byteOffset + pos..byteOffset + pos + n];
      pos := pos + n;
    }

    method GetVarint() returns (r: Parse<nat>)
      requires Valid()
      modifies this`pos
      ensures r == DecVarint(Window(), old(pos))
      ensures r.Parsed? ==> pos == r.next
    {
      r := GetWord(1);
      if r.Parsed? && r.value == 0xff {
        r := GetWord(4);
      }
    }

    method GetBytes() returns (r: Parse<seq<byte>>)
      requires Valid()
      modifies this`pos
      ensures r == DecBytes(Window(), old(pos))
      ensures r.Parsed? ==> pos == r.next
    {
      var n := GetVarint();
      if n.RangeError? || byteOffset + pos + n.value > buffer.Length {
        return RangeError;
      }
      r := Parsed(buffer[byteOffset + pos..byteOffset + pos + n.value], pos + n.value);
      pos := pos + n.value;
    }

    method Get(k: Kind) returns (r: Parse<Value>)
      requires Valid()
      modifies this`pos
      ensures r == Dec(k, Window(), old(pos))
      ensures r.Parsed? ==> pos == r.next
    {
      match k
      case KInt =>
        var u := GetWord(4);
        r := Map(u, w => Int32(Signed(w, 4)));
      case KLong =>
        var u := GetWord(8);
        r := Map(u, w => Int64(Signed(w, 8)));
      case KFloat =>
        var u := GetWord(4);
        r := Map(u, w => Float32(w));
      case KDouble =>
        var u := GetWord(8);
        r := Map(u, w => Float64(w));
      case KBytes =>
        var b := GetBytes();
        r := Map(b, s => Bytes(s));
      case KStr =>
        var b := GetBytes();
        r := Map(b, s => Str(s));
      case KBool =>
        var u := GetVarint();
        r := Map(u, n => Bool(n != 0));
      case KRef =>
        var u := GetWord(4);
        r := Map(u, w => Ref(Signed(w, 4)));
      case KVarint =>
        var u := GetVarint();
        r := Map(u, n => Varint(n));
    }
  }
}

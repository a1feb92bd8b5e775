/** The table serializer object: fields updated in place, rows filled and read
    back by nested loops over columns and rows. */
module TableSerializerModule {
  import opened Prelude
  import opened Wire
  import opened Values
  import opened SerializerModule
  import opened Table

  /** The columns written before an unknown column type stops the put. */
  function KnownColumns(types: seq<byte>): (c: nat)
    ensures c <= |types|
    ensures forall j :: 0 <= j < c ==> KindOf(types[j]).Some?
    ensures c < |types| ==> KindOf(types[c]).None?
  {
    if types == [] || KindOf(types[0]).None? then 0 else
      assert forall j :: 1 <= j < |types| ==> types[1..][j - 1] == types[j];
      1 + KnownColumns(types[1..])
  }

  lemma KnownColumnsIs(types: seq<byte>, c: nat)
    requires c <= |types|
    requires forall j :: 0 <= j < c ==> KindOf(types[j]).Some?
    requires c < |types| ==> KindOf(types[c]).None?
    ensures KnownColumns(types) == c
  {
  }

  predicate AllTyped(types: seq<byte>, rows: seq<Row>) {
    forall i :: 0 <= i < |rows| ==> Typed(types, rows[i])
  }

  lemma ColumnMajorStep(w: Writer, rows: seq<Row>, c: nat, done: seq<byte>)
    requires Wide(rows, c + 1)
    ensures done + EncAll(w, ColumnMajor(rows, c)) + EncAll(w, Column(rows, c))
         == done + EncAll(w, ColumnMajor(rows, c + 1))
  {
    EncAllAppend(w, ColumnMajor(rows, c), Column(rows, c));
  }

  lemma HeaderBytes(types: seq<byte>, names: Option<seq<seq<byte>>>, n: nat)
    ensures EncAll(Script, Header(types, names, n))
         == Enc(Script, Varint(if names.None? then FLAG_NO_COLUMN_NAME else 0))
            + (Enc(Script, Varint(n)) + (Enc(Script, Str(types))
            + if names.None? then [] else EncAll(Script, Strings(names.value))))
  {
    hide EncAll, Enc;
    EncAllEmpty(Script);
    EncAllThree(Varint(if names.None? then FLAG_NO_COLUMN_NAME else 0), Varint(n), Str(types),
                if names.None? then [] else Strings(names.value));
  }

  // ---------- the type string of a table that was given none ----------

  /** The letter a cell of the first row stands for; every number is a double. */
  function LetterOf(x: Value): (l: byte)
    ensures KindOf(l).Some?
    ensures KindOf(l) == Some(x.Kind()) <==> !(x.Int32? || x.Float32? || x.Varint?)
  {
    match x
    case Int64(_) => 'l' as int
    case Bytes(_) => 'b' as int
    case Str(_) => 's' as int
    case Bool(_) => 'c' as int
    case Ref(_) => 'o' as int
    case _ => 'd' as int
  }

  function Inferred(rows: seq<Row>): (types: seq<byte>)
    ensures Known(types)
  {
    if rows == [] then [] else seq(|rows[0]|, j requires 0 <= j < |rows[0]| => LetterOf(rows[0][j]))
  }

  /** Every row has the kinds of the first, and its numbers are doubles or longs. */
  predicate Uniform(rows: seq<Row>) {
    forall i :: 0 <= i < |rows| ==>
      && |rows[i]| == |rows[0]|
      && forall j :: 0 <= j < |rows[i]| ==>
           rows[i][j].Kind() == rows[0][j].Kind() && !(rows[i][j].Int32? || rows[i][j].Float32? || rows[i][j].Varint?)
  }

  /** The inferred type string fits the rows exactly when they are uniform. */
  lemma InferredFits(rows: seq<Row>)
    ensures AllTyped(Inferred(rows), rows) <==> Uniform(rows)
  {
  }

  /** The inferred letters: one for each cell of the first row, 'd' for every
      number that is not a long; none for a table without rows. */
  lemma InferredLetters(rows: seq<Row>, j: nat)
    ensures rows == [] ==> Inferred(rows) == []
    ensures rows != [] ==> |Inferred(rows)| == |rows[0]|
    ensures rows != [] && j < |rows[0]| ==>
              Inferred(rows)[j] ==
                match rows[0][j].Kind()
                case KLong => 'l' as int
                case KBytes => 'b' as int
                case KStr => 's' as int
                case KBool => 'c' as int
                case KRef => 'o' as int
                case _ => 'd' as int
  {
  }

  lemma KnownAll(types: seq<byte>)
    requires Known(types)
    ensures KnownColumns(types) == |types|
  {
    KnownColumnsIs(types, |types|);
  }

  lemma TableBytesIs(t: TableData)
    requires Wide(t.rows, |t.types|)
    ensures TableBytes(Script, t)
         == EncAll(Script, Header(t.types, t.names, |t.rows|)) + EncAll(Script, ColumnMajor(t.rows, |t.types|))
  {
    hide EncAll;
    EncAllAppend(Script, Header(t.types, t.names, |t.rows|), ColumnMajor(t.rows, |t.types|));
  }

  class TableSerializer {
    var columnsName: Option<seq<seq<byte>>>
    var columnsType: Option<seq<byte>>
    var rows: seq<Row>
    var ser: Serializer

    constructor (ser: Serializer)
      ensures this.ser == ser && columnsName == None && columnsType == None && rows == []
    {
      columnsName, columnsType, rows, this.ser := None, None, [], ser;
    }

    function Types(): seq<byte>
      reads this
    {
      if columnsType.Some? then columnsType.value else Inferred(rows)
    }

    function Data(): TableData
      reads this
    {
      TableData(Types(), columnsName, rows)
    }

    method SetColumnsInfo(types: Option<seq<byte>>, names: Option<seq<seq<byte>>>)
      modifies this
      ensures columnsType == types && columnsName == names && rows == old(rows) && ser == old(ser)
    {
      columnsType, columnsName := types, names;
    }

    method AddRow(row: Row)
      modifies this
      ensures rows == old(rows) + [row]
      ensures columnsType == old(columnsType) && columnsName == old(columnsName) && ser == old(ser)
    {
      rows := rows + [row];
    }

    /** One column, top to bottom. */
    method PutColumn(data: seq<Row>, j: nat)
      requires ser.Writing() && ser.writer == Script && Wide(data, j + 1)
      modifies ser, ser.buffer
      ensures ser.Writing() && (ser.buffer == old(ser.buffer) || fresh(ser.buffer))
      ensures ser.Written() == old(ser.Written()) + EncAll(Script, Column(data, j))
    {
      hide EncAll, Enc;
      EncAllEmpty(Script);
      var i := 0;
      while i < |data|
        invariant 0 <= i <= |data|
        invariant ser.Writing() && (ser.buffer == old(ser.buffer) || fresh(ser.buffer))
        invariant ser.Written() == old(ser.Written()) + EncAll(Script, Column(data, j)[..i])
      {
        ser.Put(data[i][j]);
        assert Column(data, j)[..i + 1] == Column(data, j)[..i] + [data[i][j]];
        EncAllSnoc(Script, Column(data, j)[..i], data[i][j]);
        i := i + 1;
      }
      assert Column(data, j)[..i] == Column(data, j);
    }

    /** Writes the rows column by column; false stands for "Unknown Type". */
    method PutRowsData(data: seq<Row>) returns (ok: bool)
      requires columnsType.Some? && ser.Writing() && ser.writer == Script && AllTyped(columnsType.value, data)
      modifies ser, ser.buffer
      ensures ser.Writing() && (ser.buffer == old(ser.buffer) || fresh(ser.buffer))
      ensures ok <==> Known(columnsType.value)
      ensures Wide(data, KnownColumns(columnsType.value))
      ensures ser.Written() == old(ser.Written()) + EncAll(Script, ColumnMajor(data, KnownColumns(columnsType.value)))
    {
      hide EncAll;
      EncAllEmpty(Script);
      var types := columnsType.value;
      assert forall i :: 0 <= i < |data| ==> Typed(types, data[i]);
      var j := 0;
      while j < |types|
        invariant 0 <= j <= |types| && Wide(data, j)
        invariant forall k :: 0 <= k < j ==> KindOf(types[k]).Some?
        invariant ser.Writing() && (ser.buffer == old(ser.buffer) || fresh(ser.buffer))
        invariant ser.Written() == old(ser.Written()) + EncAll(Script, ColumnMajor(data, j))
      {
        if KindOf(types[j]).None? {
          KnownColumnsIs(types, j);
          return false;
        }
        PutColumn(data, j);
        ColumnMajorStep(Script, data, j, old(ser.Written()));
        j := j + 1;
      }
      KnownColumnsIs(types, j);
      ok := true;
    }

    method PutNames(names: seq<seq<byte>>)
      requires ser.Writing() && ser.writer == Script
      modifies ser, ser.buffer
      ensures ser.Writing() && (ser.buffer == old(ser.buffer) || fresh(ser.buffer))
      ensures ser.Written() == old(ser.Written()) + EncAll(Script, Strings(names))
    {
      hide EncAll, Enc;
      EncAllEmpty(Script);
      var k := 0;
      while k < |names|
        invariant 0 <= k <= |names|
        invariant ser.Writing() && (ser.buffer == old(ser.buffer) || fresh(ser.buffer))
        invariant ser.Written() == old(ser.Written()) + EncAll(Script, Strings(names[..k]))
      {
        ser.PutBytes(names[k]);
        EncAllSnoc(Script, Strings(names[..k]), Str(names[k]));
        assert Strings(names[..k + 1]) == Strings(names[..k]) + [Str(names[k])];
        k := k + 1;
      }
      assert names[..k] == names;
    }

    method PutCounts()
      requires columnsType.Some? && ser.Writing() && ser.writer == Script
      modifies ser, ser.buffer
      ensures ser.Writing() && (ser.buffer == old(ser.buffer) || fresh(ser.buffer))
      ensures ser.Written() == old(ser.Written())
              + (Enc(Script, Varint(if columnsName.None? then FLAG_NO_COLUMN_NAME else 0))
              + (Enc(Script, Varint(|rows|)) + Enc(Script, Str(columnsType.value))))
    {
      hide Enc, Serializer.Written;
      var flag := 0;
      if columnsName.None? {
        flag := FLAG_NO_COLUMN_NAME;
      }
      ser.PutVarint(flag);
      ser.PutVarint(|rows|);
      ser.PutBytes(columnsType.value);
    }

    method PutHeader()
      requires columnsType.Some? && ser.Writing() && ser.writer == Script
      modifies ser, ser.buffer
      ensures ser.Writing() && (ser.buffer == old(ser.buffer) || fresh(ser.buffer))
      ensures ser.Written() == old(ser.Written()) + EncAll(Script, Header(Types(), columnsName, |rows|))
    {
      hide EncAll, Enc, Header, Serializer.Written;
      EncAllEmpty(Script);
      PutCounts();
      if columnsName.Some? {
        PutNames(columnsName.value);
      }
      HeaderBytes(columnsType.value, columnsName, |rows|);
    }

    /** The loop over the first row. */
    method InferTypes()
      modifies this`columnsType
      ensures columnsType == Some(Inferred(rows))
    {
      var types := [];
      if |rows| >= 1 {
        var j := 0;
        while j < |rows[0]|
          invariant 0 <= j <= |rows[0]| && types == Inferred(rows)[..j]
        {
          types := types + [LetterOf(rows[0][j])];
          j := j + 1;
        }
      }
      assert types == Inferred(rows);
      columnsType := Some(types);
    }

    method Build() returns (out: seq<byte>, ok: bool)
      requires ser.Writing() && ser.writer == Script && AllTyped(Types(), rows)
      modifies this`columnsType, ser, ser.buffer
      ensures columnsType == Some(old(Types()))
      ensures ser.Writing() && (ser.buffer == old(ser.buffer) || fresh(ser.buffer))
      ensures ok <==> Known(Types())
      ensures ok ==> Wide(rows, |Types()|) && out == old(ser.Written()) + TableBytes(Script, Data())
    {
      hide Inferred, AllTyped, Known, TableBytes, Serializer.Writing, Serializer.Written;
      if columnsType.None? {
        InferTypes();
      }
      ok := PutTable();
      out := ser.Build();
    }

    /** Header and columns of a table whose types are known. */
    method PutTable() returns (ok: bool)
      requires columnsType.Some? && ser.Writing() && ser.writer == Script && AllTyped(columnsType.value, rows)
      modifies ser, ser.buffer
      ensures ser.Writing() && (ser.buffer == old(ser.buffer) || fresh(ser.buffer))
      ensures ok <==> Known(columnsType.value)
      ensures ok ==> Wide(rows, |Types()|) && ser.Written() == old(ser.Written()) + TableBytes(Script, Data())
    {
      hide EncAll, KindOf, ColumnMajor, Header, Serializer.Written, AllTyped, Known, TableBytes;
      PutHeader();
      ok := PutRowsData(rows);
      if ok {
        KnownAll(columnsType.value);
        TableBytesIs(Data());
      }
    }

    method GetColumn(k: Kind, n: nat, grid: array2<Value>, j: nat) returns (ok: bool)
      requires ser.Valid() && grid.Length0 == n && j < grid.Length1
      modifies ser`pos, grid
      ensures forall a, b :: 0 <= a < n && 0 <= b < grid.Length1 && b != j ==> grid[a, b] == old(grid[a, b])
      ensures match DecAll(Repeat(k, n), ser.Window(), old(ser.pos))
              case RangeError => !ok
              case Parsed(col, p) => ok && ser.pos == p && forall a :: 0 <= a < n ==> grid[a, j] == col[a]
    {
      hide Dec, DecAll, Repeat;
      ghost var v := ser.Window();
      DecAllNone(k, v, ser.pos);
      var i := 0;
      while i < n
        invariant 0 <= i <= n && ser.Window() == v
        invariant forall a, b :: 0 <= a < n && 0 <= b < grid.Length1 && b != j ==> grid[a, b] == old(grid[a, b])
        invariant var r := DecAll(Repeat(k, i), v, old(ser.pos));
                  r.Parsed? && r.next == ser.pos && forall a :: 0 <= a < i ==> grid[a, j] == r.value[a]
      {
        DecAllNext(k, i, v, old(ser.pos));
        var x := ser.Get(k);
        if x.RangeError? {
          DecAllFails(k, i + 1, n, v, old(ser.pos));
          return false;
        }
        grid[i, j] := x.value;
        i := i + 1;
      }
      ok := true;
    }

    /** Reads `rowCnt` rows column by column into a grid filled in place. */
    method GetRowsData(rowCnt: nat) returns (r: Loaded<seq<Row>>)
      requires columnsType.Some? && ser.Valid()
      modifies ser`pos
      ensures r == DecRows(columnsType.value, rowCnt, ser.Window(), old(ser.pos))
      ensures r.Loaded? ==> ser.pos == r.next
    {
      hide DecAll;
      ghost var v := ser.Window();
      var types := columnsType.value;
      var colCnt := |types|;
      var grid := new Value[rowCnt, colCnt]((_, _) => Bool(false));
      var j := 0;
      while j < colCnt
        invariant 0 <= j <= colCnt && ser.Window() == v && fresh(grid)
        invariant var d := DecColumns(types, j, rowCnt, v, old(ser.pos));
                  && d.Loaded? && d.next == ser.pos
                  && forall a, b :: 0 <= a < rowCnt && 0 <= b < j ==> grid[a, b] == d.value[b][a]
      {
        var k := KindOf(types[j]);
        if k.None? {
          DecColumnsFails(types, j + 1, rowCnt, v, old(ser.pos));
          return UnknownType;
        }
        var ok := GetColumn(k.value, rowCnt, grid, j);
        if !ok {
          DecColumnsFails(types, j + 1, rowCnt, v, old(ser.pos));
          return BadRange;
        }
        j := j + 1;
      }
      var out := seq(rowCnt, a requires 0 <= a < rowCnt reads grid =>
                       seq(colCnt, b requires 0 <= b < colCnt reads grid => grid[a, b]));
      ghost var cols := DecColumns(types, colCnt, rowCnt, v, old(ser.pos)).value;
      forall a | 0 <= a < rowCnt ensures out[a] == RowsOf(cols, rowCnt)[a] {
        forall b | 0 <= b < colCnt ensures out[a][b] == RowsOf(cols, rowCnt)[a][b] {
          assert out[a][b] == grid[a, b] == cols[b][a];
        }
      }
      assert out == RowsOf(cols, rowCnt);
      r := Loaded(out, ser.pos);
    }

    method Load() returns (r: Loaded<()>)
      requires ser.Valid()
      modifies this, ser`pos
      ensures ser == old(ser)
      ensures match DecTable(ser.Window(), old(ser.pos), old(columnsName))
              case Loaded(t, p) => r == Loaded((), p) && Data() == t && ser.pos == p
              case BadRange => r == BadRange
              case UnknownType => r == UnknownType
    {
      hide DecVarint, DecBytes, DecRows;
      ghost var v := ser.Window();
      var flag := ser.GetVarint();
      if flag.RangeError? { return BadRange; }
      var rowCnt := ser.GetVarint();
      if rowCnt.RangeError? { return BadRange; }
      var types := ser.GetBytes();
      if types.RangeError? { return BadRange; }
      columnsType := Some(types.value);
      if flag.value % 2 == 0 {
        columnsName := Some([]);
        ghost var p := ser.pos;
        var i := 0;
        while i < |types.value|
          invariant 0 <= i <= |types.value| && ser == old(ser) && ser.Valid() && ser.Window() == v
          invariant columnsName.Some? && columnsType == Some(types.value)
          invariant DecNames(i, v, p) == Parsed(columnsName.value, ser.pos)
        {
          var name := ser.GetBytes();
          if name.RangeError? {
            DecNamesFails(i + 1, |types.value|, v, p);
            return BadRange;
          }
          columnsName := Some(columnsName.value + [name.value]);
          i := i + 1;
        }
      }
      var got := GetRowsData(rowCnt.value);
      match got
      case BadRange => return BadRange;
      case UnknownType => return UnknownType;
      case Loaded(data, p) =>
        rows := data;
        return Loaded((), p);
    }
  }

  // ---------- a failed prefix fails the whole read ----------

  lemma RepeatSnoc(k: Kind, n: nat)
    ensures Repeat(k, n + 1) == Repeat(k, n) + [k] && Repeat(k, n + 1)[..n] == Repeat(k, n)
  {
  }

  lemma DecAllNone(k: Kind, v: View, pos: nat)
    requires v.Valid()
    ensures DecAll(Repeat(k, 0), v, pos) == Parsed([], pos)
  {
  }

  /** A column one cell longer. */
  lemma DecAllNext(k: Kind, i: nat, v: View, pos: nat)
    requires v.Valid() && DecAll(Repeat(k, i), v, pos).Parsed?
    ensures DecAll(Repeat(k, i + 1), v, pos) ==
              match Dec(k, v, DecAll(Repeat(k, i), v, pos).next)
              case Parsed(x, q) => Parsed(DecAll(Repeat(k, i), v, pos).value + [x], q)
              case RangeError => RangeError
  {
    hide Dec, Repeat;
    RepeatSnoc(k, i);
  }

  lemma {:induction false} DecAllFails(k: Kind, i: nat, n: nat, v: View, pos: nat)
    requires v.Valid() && i <= n && DecAll(Repeat(k, i), v, pos).RangeError?
    ensures DecAll(Repeat(k, n), v, pos).RangeError?
  {
    hide Dec, Repeat;
    if i < n {
      DecAllFails(k, i, n - 1, v, pos);
      RepeatSnoc(k, n - 1);
    } else {
      assert i == n;
    }
  }

  lemma {:induction false} DecColumnsFails(types: seq<byte>, c: nat, n: nat, v: View, pos: nat)
    requires v.Valid() && c <= |types| && !DecColumns(types, c, n, v, pos).Loaded?
    ensures DecColumns(types, |types|, n, v, pos) == DecColumns(types, c, n, v, pos)
  {
    DecColumnsFailsAt(types, c, |types|, n, v, pos);
  }

  lemma {:induction false} DecColumnsFailsAt(types: seq<byte>, c: nat, d: nat, n: nat, v: View, pos: nat)
    requires v.Valid() && c <= d <= |types| && !DecColumns(types, c, n, v, pos).Loaded?
    ensures DecColumns(types, d, n, v, pos) == DecColumns(types, c, n, v, pos)
  {
    hide DecAll, Repeat, KindOf;
    if c < d {
      DecColumnsFailsAt(types, c, d - 1, n, v, pos);
    }
  }

  lemma {:induction false} DecNamesFails(i: nat, n: nat, v: View, pos: nat)
    requires v.Valid() && i <= n && DecNames(i, v, pos).RangeError?
    ensures DecNames(n, v, pos).RangeError?
  {
    if i < n {
      DecNamesFails(i, n - 1, v, pos);
    }
  }
}

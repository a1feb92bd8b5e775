/** The column-stored table serializer of the C++ layer: one vector per column,
    filled cell by cell or row by row, and written with the C varint writer. */
module ColumnTable {
  import opened Prelude
  import opened Wire
  import opened Values
  import opened SerializerModule
  import opened Table

  datatype Columns = Columns(
    types: seq<byte>, names: seq<seq<byte>>, rowCnt: nat, cols: seq<seq<Value>>, posX: int)

  // ---------- adding values ----------

  /** The next cell, left to right and top to bottom; a new row is counted
      when its first cell is reached. */
  function NextCell(t: Columns): (r: Columns)
    requires -1 <= t.posX
  {
    var x := if t.posX + 1 >= |t.cols| then 0 else t.posX + 1;
    t.(posX := x, rowCnt := if x == 0 then t.rowCnt + 1 else t.rowCnt)
  }

  function AddedValue(t: Columns, v: Value): (r: Columns)
    requires -1 <= t.posX && |t.cols| > 0
    ensures -1 <= r.posX && |r.cols| == |t.cols|
  {
    var u := NextCell(t);
    u.(cols := u.cols[u.posX := u.cols[u.posX] + [v]])
  }

  function AddedValues(t: Columns, vs: seq<Value>): (r: Columns)
    requires -1 <= t.posX && |t.cols| > 0
    ensures -1 <= r.posX && |r.cols| == |t.cols|
  {
    if vs == [] then t else AddedValue(AddedValues(t, vs[..|vs| - 1]), vs[|vs| - 1])
  }

  function AddedRow(t: Columns, row: Row): Columns
    requires |t.types| <= |t.cols| && |t.types| <= |row|
  {
    t.(rowCnt := t.rowCnt + 1,
       cols := seq(|t.cols|, j requires 0 <= j < |t.cols| => if j < |t.types| then t.cols[j] + [row[j]] else t.cols[j]))
  }

  /** The cells of column `j` are every `c`-th of `vs`. */
  ghost predicate CellsOf(col: seq<Value>, vs: seq<Value>, c: nat, j: nat) {
    forall i :: 0 <= i < |col| ==> 0 <= i * c + j < |vs| && col[i] == vs[i * c + j]
  }

  /** The table after q full rows and m further cells of `vs`. */
  ghost predicate Filled(t: Columns, c: nat, vs: seq<Value>, q: nat, m: nat) {
    && 0 < c == |t.cols| && m < c && |vs| == q * c + m
    && t.rowCnt == (if m == 0 then q else q + 1)
    && (if m > 0 then t.posX == m - 1 else t.posX == c - 1 || t.posX == -1)
    && forall j :: 0 <= j < c ==>
         |t.cols[j]| == (if j < m then q + 1 else q) && CellsOf(t.cols[j], vs, c, j)
  }

  function Empty(types: seq<byte>, names: seq<seq<byte>>): Columns {
    Columns(types, names, 0, seq(|types|, _ => []), -1)
  }

  lemma FilledStep(t: Columns, c: nat, vs: seq<Value>, q: nat, m: nat, v: Value)
    requires Filled(t, c, vs, q, m)
    ensures if m + 1 < c then Filled(AddedValue(t, v), c, vs + [v], q, m + 1)
            else Filled(AddedValue(t, v), c, vs + [v], q + 1, 0)
  {
    var u := AddedValue(t, v);
    assert u.posX == m;
    assert (q + 1) * c == q * c + c;
    forall j | 0 <= j < c
      ensures CellsOf(u.cols[j], vs + [v], c, j)
    {
      assert CellsOf(t.cols[j], vs, c, j);
      forall i | 0 <= i < |u.cols[j]|
        ensures 0 <= i * c + j < |vs + [v]| && u.cols[j][i] == (vs + [v])[i * c + j]
      {
        if j == m && i == q {
        } else {
          assert u.cols[j][i] == t.cols[j][i];
        }
      }
    }
  }

  lemma {:induction false} AddedValuesFilled(types: seq<byte>, names: seq<seq<byte>>, vs: seq<Value>, q: nat, m: nat)
    requires m < |types| && |vs| == q * |types| + m
    ensures Filled(AddedValues(Empty(types, names), vs), |types|, vs, q, m)
  {
    var c := |types|;
    if vs != [] {
      var init := vs[..|vs| - 1];
      assert vs == init + [vs[|vs| - 1]];
      if m > 0 {
        AddedValuesFilled(types, names, init, q, m - 1);
        FilledStep(AddedValues(Empty(types, names), init), c, init, q, m - 1, vs[|vs| - 1]);
      } else {
        assert q > 0 && q * c == (q - 1) * c + c;
        AddedValuesFilled(types, names, init, q - 1, c - 1);
        FilledStep(AddedValues(Empty(types, names), init), c, init, q - 1, c - 1, vs[|vs| - 1]);
      }
    } else {
      assert q == 0 && m == 0 by {
        if q > 0 { MulAtLeast(q, c); }
      }
    }
  }

  /** A row can be added as a whole wherever one is complete: it is as if its
      cells had been added one by one. */
  lemma RowIsCells(t: Columns, vs: seq<Value>, q: nat, row: Row)
    requires Filled(t, |t.cols|, vs, q, 0) && |t.types| == |t.cols| == |row|
    ensures Filled(AddedRow(t, row), |t.cols|, vs + row, q + 1, 0)
  {
    hide AddedRow;
    var c, u := |t.cols|, AddedRow(t, row);
    AddedRowIs(t, row);
    assert (q + 1) * c == q * c + c;
    forall j | 0 <= j < c
      ensures |u.cols[j]| == q + 1 && CellsOf(u.cols[j], vs + row, c, j)
    {
      RowColumn(t, vs, q, row, j);
    }
  }

  lemma AddedRowIs(t: Columns, row: Row)
    requires |t.types| == |t.cols| == |row|
    ensures var u := AddedRow(t, row);
            && u.rowCnt == t.rowCnt + 1 && u.posX == t.posX && |u.cols| == |t.cols|
            && forall j :: 0 <= j < |t.cols| ==> u.cols[j] == t.cols[j] + [row[j]]
  {
  }

  lemma RowColumn(t: Columns, vs: seq<Value>, q: nat, row: Row, j: nat)
    requires Filled(t, |t.cols|, vs, q, 0) && |t.types| == |t.cols| == |row| && j < |t.cols|
    ensures |t.cols[j] + [row[j]]| == q + 1 && CellsOf(t.cols[j] + [row[j]], vs + row, |t.cols|, j)
  {
    hide Filled;
    var col := t.cols[j] + [row[j]];
    RowCell(t, vs, q, row, j, 0);
    forall i | 0 <= i < |col| ensures 0 <= i * |t.cols| + j < |vs + row| && col[i] == (vs + row)[i * |t.cols| + j] {
      RowCell(t, vs, q, row, j, i);
    }
  }

  lemma RowCell(t: Columns, vs: seq<Value>, q: nat, row: Row, j: nat, i: nat)
    requires Filled(t, |t.cols|, vs, q, 0) && |t.types| == |t.cols| == |row| && j < |t.cols| && i <= q
    ensures |t.cols[j] + [row[j]]| == q + 1
    ensures var c := |t.cols|;
            0 <= i * c + j < |vs + row| && (t.cols[j] + [row[j]])[i] == (vs + row)[i * c + j]
  {
    if i < q {
      assert t.cols[j][i] == vs[i * |t.cols| + j];
    }
  }

  /** `values` cut into rows of `c` cells. */
  function Chunk(vs: seq<Value>, r: nat, c: nat): (rows: seq<Row>)
    requires |vs| == r * c
    ensures |rows| == r && forall i :: 0 <= i < r ==> |rows[i]| == c
  {
    seq(r, i requires 0 <= i < r =>
      seq(c, j requires 0 <= j < c => (CellInRange(i, j, r, c); vs[i * c + j])))
  }

  lemma CellInRange(i: nat, j: nat, r: nat, c: nat)
    requires i < r && j < c
    ensures i * c + j < r * c
  {
    assert r * c == i * c + (r - i) * c;
    MulAtLeast(r - i, c);
  }

  /** r * c cells added one by one to an empty table of c columns make exactly
      the r rows of the row-stored table, cell (i, j) being value i * c + j. */
  lemma CellsMakeRows(types: seq<byte>, names: seq<seq<byte>>, vs: seq<Value>, r: nat)
    requires |types| > 0 && |vs| == r * |types|
    ensures var t := AddedValues(Empty(types, names), vs);
            && t.rowCnt == r && |t.cols| == |types|
            && forall j :: 0 <= j < |types| ==> t.cols[j] == Column(Chunk(vs, r, |types|), j)
  {
    AddedValuesFilled(types, names, vs, r, 0);
    var t := AddedValues(Empty(types, names), vs);
    var rows := Chunk(vs, r, |types|);
    forall j | 0 <= j < |types| ensures t.cols[j] == Column(rows, j) {
      forall i | 0 <= i < r ensures t.cols[j][i] == rows[i][j] {
        CellInRange(i, j, r, |types|);
      }
    }
  }

  // ---------- the bytes ----------

  /** Columns of the letters the C++ switch writes; any other letter is
      skipped without an error. */
  function ColumnPieces(t: Columns, c: nat): seq<Value>
    requires c <= |t.types| <= |t.cols|
  {
    if c == 0 then [] else
      ColumnPieces(t, c - 1) + (if Writes(t.types[c - 1]) then t.cols[c - 1] else [])
  }

  /** The letters of the columns that are written. */
  const LETTERS: seq<byte> := ['i' as int, 'l' as int, 'f' as int, 'd' as int, 'b' as int, 's' as int, 'c' as int]

  predicate Writes(letter: byte) {
    letter != 'o' as int && KindOf(letter).Some?
  }

  function NoNames(t: Columns): bool {
    |t.names| == 0 && |t.types| > 0
  }

  function ColumnBytes(t: Columns): seq<byte>
    requires |t.types| <= |t.cols|
  {
    EncAll(C, Header(t.types, if NoNames(t) then None else Some(t.names), t.rowCnt) + ColumnPieces(t, |t.types|))
  }

  /** `t` stores the rows of `d` column by column. */
  ghost predicate Transposes(t: Columns, d: TableData) {
    && t.types == d.types && |t.cols| == |t.types| && t.rowCnt == |d.rows|
    && d.names == (if NoNames(t) then None else Some(t.names))
    && Wide(d.rows, |d.types|)
    && forall j :: 0 <= j < |t.types| ==> t.cols[j] == Column(d.rows, j)
  }

  lemma {:induction false} SamePieces(t: Columns, d: TableData, c: nat)
    requires Transposes(t, d) && c <= |t.types| && Wide(d.rows, c)
    requires forall j :: 0 <= j < |t.types| ==> Writes(t.types[j])
    ensures ColumnPieces(t, c) == ColumnMajor(d.rows, c)
  {
    if c > 0 {
      SamePieces(t, d, c - 1);
    }
  }

  /** The values a table is written as, header first. */
  function TableValues(d: TableData): seq<Value>
    requires Wide(d.rows, |d.types|)
  {
    Header(d.types, d.names, |d.rows|) + ColumnMajor(d.rows, |d.types|)
  }

  /** The column-stored writer and the row-stored writer emit the same bytes
      exactly when no length and no row count in the table is 255, the value
      on which the two varint writers differ. */
  lemma StoresAgree(t: Columns, d: TableData)
    requires Transposes(t, d)
    requires forall j :: 0 <= j < |t.types| ==> t.types[j] in LETTERS
    ensures ColumnBytes(t) == TableBytes(Script, d) <==> Count255(TableValues(d)) == 0
  {
    hide EncAll, Count255;
    LettersWritten(t.types);
    SamePieces(t, d, |t.types|);
    WritersAgree(TableValues(d));
  }

  lemma LettersWritten(types: seq<byte>)
    ensures (forall j :: 0 <= j < |types| ==> Writes(types[j]))
       <==> forall j :: 0 <= j < |types| ==> types[j] in LETTERS
  {
  }

  /** A cell a column of that letter holds; none of its lengths is 255. */
  predicate CellFor(letter: byte, x: Value) {
    && x.Fitting()
    && (letter == 'i' as int ==> x.Int32?)
    && (letter == 'l' as int ==> x.Int64?)
    && (letter == 'f' as int ==> x.Float32?)
    && (letter == 'd' as int ==> x.Float64?)
    && (letter == 'b' as int ==> x.Bytes? && |x.data| != 255)
    && (letter == 's' as int ==> x.Str? && |x.utf8| != 255)
    && (letter == 'c' as int ==> x.Bool?)
  }

  /** Full columns of written letters, a name for each or no names, and no length
      or count that is 255 or does not fit its field. */
  predicate Loadable(t: Columns) {
    && |t.cols| == |t.types| < TWO32 && t.rowCnt < TWO32 && |t.types| != 255 && t.rowCnt != 255
    && (t.names == [] || |t.names| == |t.types|)
    && (forall k :: 0 <= k < |t.names| ==> |t.names[k]| < TWO32 && |t.names[k]| != 255)
    && forall j :: 0 <= j < |t.types| ==>
         && t.types[j] in LETTERS && |t.cols[j]| == t.rowCnt
         && forall i :: 0 <= i < t.rowCnt ==> CellFor(t.types[j], t.cols[j][i])
  }

  /** What `load` makes of it. */
  function AsRows(t: Columns): TableData
    requires Loadable(t)
  {
    TableData(t.types, if t.names == [] && t.types != [] then None else Some(t.names), RowsOf(t.cols, t.rowCnt))
  }

  /** What the C++ serializer writes, `load` reads back: types, names and every
      cell, and it consumes exactly the bytes written. */
  lemma BuiltLoads(t: Columns, v: View, pos: nat)
    requires Loadable(t) && v.Holds(pos, ColumnBytes(t))
    ensures DecTable(v, pos, None) == Loaded(AsRows(t), pos + |ColumnBytes(t)|)
  {
    hide DecTable, TableBytes, ColumnBytes, Count255, View.Holds, Value.Fitting;
    var d := AsRows(t);
    RowsFit(t);
    StoresAgree(t, d);
    NoLongValue(t, d);
    RoundTrip(d, v, pos);
  }

  lemma RowsFit(t: Columns)
    requires Loadable(t)
    ensures WellFormed(AsRows(t)) && Transposes(t, AsRows(t)) && Wide(AsRows(t).rows, |t.types|)
  {
    hide Value.Fitting;
    var d := AsRows(t);
    forall i | 0 <= i < |d.rows| ensures Typed(d.types, d.rows[i]) && FittingRow(d.rows[i]) {
      forall j | 0 <= j < |t.types|
        ensures KindOf(t.types[j]) == Some(d.rows[i][j].Kind()) && d.rows[i][j].Fitting()
      {
        assert CellFor(t.types[j], t.cols[j][i]);
      }
    }
  }

  lemma {:induction false} NoneCounted(xs: seq<Value>)
    requires forall k :: 0 <= k < |xs| ==> Escapes255(xs[k]) == 0
    ensures Count255(xs) == 0
  {
    if xs != [] {
      NoneCounted(xs[..|xs| - 1]);
    }
  }

  lemma {:induction false} MajorShort(rows: seq<Row>, c: nat)
    requires Wide(rows, c)
    requires forall i, j :: 0 <= i < |rows| && 0 <= j < c ==> Escapes255(rows[i][j]) == 0
    ensures forall k :: 0 <= k < |ColumnMajor(rows, c)| ==> Escapes255(ColumnMajor(rows, c)[k]) == 0
  {
    hide Escapes255;
    if c > 0 {
      MajorShort(rows, c - 1);
    }
  }

  lemma NoLongValue(t: Columns, d: TableData)
    requires Loadable(t) && d == AsRows(t) && Wide(d.rows, |d.types|)
    ensures Count255(TableValues(d)) == 0
  {
    hide Value.Fitting, ColumnMajor;
    forall i, j | 0 <= i < |d.rows| && 0 <= j < |d.types| ensures Escapes255(d.rows[i][j]) == 0 {
      assert CellFor(t.types[j], t.cols[j][i]);
    }
    MajorShort(d.rows, |d.types|);
    NoneCounted(TableValues(d));
  }

  /** A column of any other letter, an object's among them, is announced in the
      types and left out of the bytes. */
  lemma OtherLettersSkipped(t: Columns, letter: byte, col: seq<Value>)
    requires |t.types| == |t.cols| && letter !in LETTERS && t.names != []
    ensures var u := t.(types := t.types + [letter], cols := t.cols + [col]);
            ColumnBytes(u) == EncAll(C, Header(u.types, Some(u.names), u.rowCnt) + ColumnPieces(t, |t.types|))
  {
    hide EncAll;
    var u := t.(types := t.types + [letter], cols := t.cols + [col]);
    PiecesPrefix(t, u, |t.types|);
    LettersWritten([letter]);
    assert [letter][0] == letter && !Writes(letter);
    assert u.types[|u.types| - 1] == letter;
    var none: seq<Value> := [];
    assert ColumnPieces(u, |u.types|) == ColumnPieces(t, |t.types|) + none == ColumnPieces(t, |t.types|);
  }

  lemma {:induction false} PiecesPrefix(t: Columns, u: Columns, c: nat)
    requires c <= |t.types| <= |t.cols| && t.types <= u.types && t.cols <= u.cols && |u.types| <= |u.cols|
    ensures ColumnPieces(u, c) == ColumnPieces(t, c)
  {
    if c > 0 {
      PiecesPrefix(t, u, c - 1);
    }
  }

  // ---------- the object ----------

  class ColumnSerializer {
    var columnsType: seq<byte>
    var columnsName: seq<seq<byte>>
    var rowCnt: nat
    var cols: seq<seq<Value>>
    var currentAddValuePosX: int

    ghost function State(): Columns
      reads this
    {
      Columns(columnsType, columnsName, rowCnt, cols, currentAddValuePosX)
    }

    constructor ()
      ensures State() == Empty([], [])
    {
      columnsType, columnsName, rowCnt, cols, currentAddValuePosX := [], [], 0, [], -1;
    }

    method SetColumnsInfo(types: seq<byte>, names: seq<seq<byte>>)
      requires |cols| <= |types|
      modifies this
      ensures State() == old(State()).(types := types, names := names,
                                       cols := old(cols) + seq(|types| - old(|cols|), _ => []))
    {
      columnsType, columnsName := types, names;
      var i := |cols|;
      while i < |columnsType|
        invariant old(|cols|) <= i <= |types| && columnsType == types && columnsName == names
        invariant rowCnt == old(rowCnt) && currentAddValuePosX == old(currentAddValuePosX)
        invariant cols == old(cols) + seq(i - old(|cols|), _ => [])
      {
        cols := cols + [[]];
        i := i + 1;
      }
    }

    method MoveToNextValuePosX()
      requires -1 <= currentAddValuePosX
      modifies this
      ensures State() == NextCell(old(State()))
    {
      currentAddValuePosX := currentAddValuePosX + 1;
      if currentAddValuePosX >= |cols| {
        currentAddValuePosX := 0;
      }
      if currentAddValuePosX == 0 {
        rowCnt := rowCnt + 1;
      }
    }

    /** If the table held just the values `vs`, left to right and top to bottom,
        it now holds those and `v` after them. */
    method AddValue(v: Value)
      requires -1 <= currentAddValuePosX && |cols| > 0
      modifies this
      ensures State() == AddedValue(old(State()), v)
      ensures forall vs: seq<Value>, q: nat, m: nat :: Filled(old(State()), |cols|, vs, q, m) ==>
                if m + 1 < |cols| then Filled(State(), |cols|, vs + [v], q, m + 1)
                else Filled(State(), |cols|, vs + [v], q + 1, 0)
    {
      hide Filled;
      forall vs: seq<Value>, q: nat, m: nat | Filled(State(), |cols|, vs, q, m)
        ensures if m + 1 < |cols| then Filled(AddedValue(State(), v), |cols|, vs + [v], q, m + 1)
                else Filled(AddedValue(State(), v), |cols|, vs + [v], q + 1, 0)
      {
        FilledStep(State(), |cols|, vs, q, m, v);
      }
      MoveToNextValuePosX();
      cols := cols[currentAddValuePosX := cols[currentAddValuePosX] + [v]];
    }

    method AddRow(row: Row)
      requires |columnsType| <= |cols| && |columnsType| <= |row|
      modifies this
      ensures State() == AddedRow(old(State()), row)
    {
      var j := 0;
      while j < |columnsType|
        invariant 0 <= j <= |columnsType| && |cols| == old(|cols|)
        invariant State() == old(State()).(cols := cols)
        invariant forall k :: 0 <= k < j ==> cols[k] == old(cols)[k] + [row[k]]
        invariant forall k :: j <= k < |cols| ==> cols[k] == old(cols)[k]
      {
        cols := cols[j := cols[j] + [row[j]]];
        j := j + 1;
      }
      rowCnt := rowCnt + 1;
      assert cols == AddedRow(old(State()), row).cols;
    }

    method PutColumn(ser: Serializer, col: seq<Value>)
      requires ser.Writing() && ser.writer == C
      modifies ser, ser.buffer
      ensures ser.Writing() && (ser.buffer == old(ser.buffer) || fresh(ser.buffer))
      ensures ser.Written() == old(ser.Written()) + EncAll(C, col)
    {
      hide EncAll, Enc;
      EncAllEmpty(C);
      var i := 0;
      while i < |col|
        invariant 0 <= i <= |col|
        invariant ser.Writing() && (ser.buffer == old(ser.buffer) || fresh(ser.buffer))
        invariant ser.Written() == old(ser.Written()) + EncAll(C, col[..i])
      {
        ser.Put(col[i]);
        EncAllSnoc(C, col[..i], col[i]);
        assert col[..i + 1] == col[..i] + [col[i]];
        i := i + 1;
      }
      assert col[..i] == col;
    }

    method PutNames(ser: Serializer)
      requires ser.Writing() && ser.writer == C
      modifies ser, ser.buffer
      ensures ser.Writing() && (ser.buffer == old(ser.buffer) || fresh(ser.buffer))
      ensures ser.Written() == old(ser.Written()) + EncAll(C, Strings(columnsName))
    {
      hide EncAll, Enc;
      EncAllEmpty(C);
      var i := 0;
      while i < |columnsName|
        invariant 0 <= i <= |columnsName|
        invariant ser.Writing() && (ser.buffer == old(ser.buffer) || fresh(ser.buffer))
        invariant ser.Written() == old(ser.Written()) + EncAll(C, Strings(columnsName[..i]))
      {
        ser.PutBytes(columnsName[i]);
        NamesStep(columnsName, i);
        i := i + 1;
      }
      assert columnsName[..i] == columnsName;
    }

    method PutColumns(ser: Serializer)
      requires ser.Writing() && ser.writer == C && |columnsType| <= |cols|
      modifies ser, ser.buffer
      ensures ser.Writing() && (ser.buffer == old(ser.buffer) || fresh(ser.buffer))
      ensures ser.Written() == old(ser.Written()) + EncAll(C, ColumnPieces(State(), |columnsType|))
    {
      hide EncAll;
      EncAllEmpty(C);
      var j := 0;
      while j < |columnsType|
        invariant 0 <= j <= |columnsType|
        invariant ser.Writing() && (ser.buffer == old(ser.buffer) || fresh(ser.buffer))
        invariant ser.Written() == old(ser.Written()) + EncAll(C, ColumnPieces(State(), j))
      {
        if Writes(columnsType[j]) {
          PutColumn(ser, cols[j]);
        }
        ColumnPiecesStep(State(), j);
        j := j + 1;
      }
    }

    method BuildSer(ser: Serializer)
      requires ser.Writing() && ser.writer == C && |columnsType| <= |cols|
      modifies ser, ser.buffer
      ensures ser.Writing() && (ser.buffer == old(ser.buffer) || fresh(ser.buffer))
      ensures ser.Written() == old(ser.Written()) + ColumnBytes(State())
      ensures Loadable(State()) ==>
                DecTable(Whole(ser.Written()), |old(ser.Written())|, None) == Loaded(AsRows(State()), |ser.Written()|)
    {
      hide EncAll, Enc, ColumnBytes, ColumnPieces, Strings, Loadable, AsRows, DecTable;
      ghost var was, t := ser.Written(), State();
      var flag := 0;
      if |columnsName| == 0 && |columnsType| > 0 {
        flag := FLAG_NO_COLUMN_NAME;
      }
      ser.PutVarint(flag);
      ser.PutVarint(rowCnt);
      ser.PutBytes(columnsType);
      if flag % 2 == 0 {
        PutNames(ser);
      }
      PutColumns(ser);
      BytesByPart(t, flag);
      Regroup(was, Enc(C, Varint(flag)), Enc(C, Varint(t.rowCnt)), Enc(C, Str(t.types)),
              if NoNames(t) then [] else EncAll(C, Strings(t.names)), EncAll(C, ColumnPieces(t, |t.types|)));
      if Loadable(t) {
        WrittenLoads(was, t);
      }
    }

    method GetRow(rowIndex: nat) returns (row: Row)
      requires forall j :: 0 <= j < |cols| ==> rowIndex < |cols[j]|
      ensures |row| == |cols| && forall j :: 0 <= j < |cols| ==> row[j] == cols[j][rowIndex]
    {
      row := [];
      for j := 0 to |cols|
        invariant |row| == j && forall k :: 0 <= k < j ==> row[k] == cols[k][rowIndex]
      {
        row := row + [cols[j][rowIndex]];
      }
    }
  }

  lemma WrittenLoads(was: seq<byte>, t: Columns)
    requires |t.types| <= |t.cols| && Loadable(t)
    ensures var s := was + ColumnBytes(t); DecTable(Whole(s), |was|, None) == Loaded(AsRows(t), |s|)
  {
    hide ColumnBytes, Loadable, DecTable, AsRows;
    var s := was + ColumnBytes(t);
    assert s[|was|..] == ColumnBytes(t) && s[|was|..|s|] == s[|was|..];
    BuiltLoads(t, Whole(s), |was|);
  }

  lemma ColumnPiecesStep(t: Columns, c: nat)
    requires c < |t.types| <= |t.cols|
    ensures EncAll(C, ColumnPieces(t, c + 1))
         == EncAll(C, ColumnPieces(t, c)) + (if Writes(t.types[c]) then EncAll(C, t.cols[c]) else [])
  {
    hide EncAll;
    EncAllAppend(C, ColumnPieces(t, c), t.cols[c]);
    assert ColumnPieces(t, c) + [] == ColumnPieces(t, c);
  }

  lemma NamesStep(names: seq<seq<byte>>, k: nat)
    requires k < |names|
    ensures EncAll(C, Strings(names[..k + 1])) == EncAll(C, Strings(names[..k])) + Enc(C, Str(names[k]))
  {
    EncAllSnoc(C, Strings(names[..k]), Str(names[k]));
    assert Strings(names[..k + 1]) == Strings(names[..k]) + [Str(names[k])];
  }

  lemma Regroup(w: seq<byte>, a: seq<byte>, b: seq<byte>, c: seq<byte>, d: seq<byte>, e: seq<byte>)
    ensures w + a + b + c + d + e == w + (a + b + c + d + e)
  {
  }

  lemma BytesByPart(t: Columns, flag: nat)
    requires |t.types| <= |t.cols|
    requires flag == if NoNames(t) then FLAG_NO_COLUMN_NAME else 0
    ensures ColumnBytes(t)
         == Enc(C, Varint(flag)) + Enc(C, Varint(t.rowCnt)) + Enc(C, Str(t.types))
            + (if NoNames(t) then [] else EncAll(C, Strings(t.names))) + EncAll(C, ColumnPieces(t, |t.types|))
  {
    hide EncAll, Enc;
    var fixed, names := [Varint(flag), Varint(t.rowCnt), Str(t.types)], if NoNames(t) then [] else Strings(t.names);
    EncAllEmpty(C);
    EncAllAppend(C, fixed + names, ColumnPieces(t, |t.types|));
    EncAllAppend(C, fixed, names);
    EncAllSnoc(C, [], fixed[0]);
    EncAllSnoc(C, fixed[..1], fixed[1]);
    EncAllSnoc(C, fixed[..2], fixed[2]);
    assert [] + [fixed[0]] == fixed[..1] && fixed[..1] + [fixed[1]] == fixed[..2] && fixed[..2] + [fixed[2]] == fixed;
  }

  /** Adding whole rows transposes: the row-stored table grows by that row. */
  lemma AddRowTransposes(t: Columns, d: TableData, row: Row)
    requires Transposes(t, d) && |row| == |t.types|
    ensures Transposes(AddedRow(t, row), d.(rows := d.rows + [row]))
  {
    var u, e := AddedRow(t, row), d.(rows := d.rows + [row]);
    forall j | 0 <= j < |t.types| ensures u.cols[j] == Column(e.rows, j) {
      assert u.cols[j] == t.cols[j] + [row[j]];
    }
  }
}

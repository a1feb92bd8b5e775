/** The table format: row-major tables written column by column behind a
    header of flag, row count, type string and optional column names. */
module Table {
  import opened Prelude
  import opened Wire
  import opened Values
  import opened SerializerModule

  const FLAG_NO_COLUMN_NAME: nat := 1

  /** The kind a column-type letter stands for; None is "Unknown Type". */
  function KindOf(letter: byte): Option<Kind> {
    if letter == 'i' as int then Some(KInt)
    else if letter == 'l' as int then Some(KLong)
    else if letter == 'f' as int then Some(KFloat)
    else if letter == 'd' as int then Some(KDouble)
    else if letter == 'b' as int then Some(KBytes)
    else if letter == 's' as int then Some(KStr)
    else if letter == 'c' as int then Some(KBool)
    else if letter == 'o' as int then Some(KRef)
    else None
  }

  type Row = seq<Value>

  datatype TableData = TableData(types: seq<byte>, names: Option<seq<seq<byte>>>, rows: seq<Row>)

  /** `row` has a value of the column's kind in every column. */
  predicate Typed(types: seq<byte>, row: Row) {
    && |row| == |types|
    && forall j :: 0 <= j < |types| ==> KindOf(types[j]) == None || KindOf(types[j]) == Some(row[j].Kind())
  }

  predicate Known(types: seq<byte>) {
    forall j :: 0 <= j < |types| ==> KindOf(types[j]).Some?
  }

  predicate FittingRow(row: Row) {
    forall j :: 0 <= j < |row| ==> row[j].Fitting()
  }

  predicate WellFormed(t: TableData) {
    && Known(t.types)
    && |t.types| < TWO32 && |t.rows| < TWO32
    && (t.names.Some? ==> |t.names.value| == |t.types| && forall n :: n in t.names.value ==> |n| < TWO32)
    && forall i :: 0 <= i < |t.rows| ==> Typed(t.types, t.rows[i]) && FittingRow(t.rows[i])
  }

  // ---------- the bytes of a table ----------

  predicate Wide<T>(rows: seq<seq<T>>, c: nat) {
    forall i :: 0 <= i < |rows| ==> |rows[i]| >= c
  }

  function Column<T>(rows: seq<seq<T>>, j: nat): (col: seq<T>)
    requires Wide(rows, j + 1)
    ensures |col| == |rows| && forall i :: 0 <= i < |rows| ==> col[i] == rows[i][j]
  {
    seq(|rows|, i requires 0 <= i < |rows| => rows[i][j])
  }

  function ColumnMajor<T>(rows: seq<seq<T>>, c: nat): seq<T>
    requires Wide(rows, c)
  {
    if c == 0 then [] else ColumnMajor(rows, c - 1) + Column(rows, c - 1)
  }

  function Strings(names: seq<seq<byte>>): (xs: seq<Value>)
    ensures |xs| == |names| && forall i :: 0 <= i < |names| ==> xs[i] == Str(names[i])
  {
    seq(|names|, i requires 0 <= i < |names| => Str(names[i]))
  }

  function Header(types: seq<byte>, names: Option<seq<seq<byte>>>, rowCnt: nat): seq<Value> {
    [Varint(if names.None? then FLAG_NO_COLUMN_NAME else 0), Varint(rowCnt), Str(types)]
    + (if names.None? then [] else Strings(names.value))
  }

  function TableBytes(w: Writer, t: TableData): seq<byte>
    requires Wide(t.rows, |t.types|)
  {
    EncAll(w, Header(t.types, t.names, |t.rows|) + ColumnMajor(t.rows, |t.types|))
  }

  // ---------- reading a table ----------

  datatype Loaded<+T> = Loaded(value: T, next: nat) | BadRange | UnknownType

  /** The kinds of a column of `n` cells. */
  function Repeat(k: Kind, n: nat): (ks: seq<Kind>)
    ensures |ks| == n && forall i :: 0 <= i < n ==> ks[i] == k
  {
    seq(n, _ => k)
  }

  function DecColumns(types: seq<byte>, c: nat, n: nat, v: View, pos: nat): (r: Loaded<seq<seq<Value>>>)
    requires v.Valid() && c <= |types|
    ensures r.Loaded? ==> |r.value| == c && forall j :: 0 <= j < c ==> |r.value[j]| == n
  {
    if c == 0 then Loaded([], pos) else
      match DecColumns(types, c - 1, n, v, pos)
      case BadRange => BadRange
      case UnknownType => UnknownType
      case Loaded(cols, p) =>
        match KindOf(types[c - 1])
        case None => UnknownType
        case Some(k) =>
          match DecAll(Repeat(k, n), v, p)
          case Parsed(col, q) => Loaded(cols + [col], q)
          case RangeError => BadRange
  }

  /** Columns of equal length turned into rows. */
  function RowsOf(cols: seq<seq<Value>>, n: nat): (rows: seq<Row>)
    requires forall j :: 0 <= j < |cols| ==> |cols[j]| == n
    ensures |rows| == n
    ensures forall i :: 0 <= i < n ==> |rows[i]| == |cols|
    ensures forall i, j :: 0 <= i < n && 0 <= j < |cols| ==> rows[i][j] == cols[j][i]
  {
    seq(n, i requires 0 <= i < n => seq(|cols|, j requires 0 <= j < |cols| => cols[j][i]))
  }

  function DecRows(types: seq<byte>, n: nat, v: View, pos: nat): (r: Loaded<seq<Row>>)
    requires v.Valid()
    ensures r.Loaded? ==> |r.value| == n && forall i :: 0 <= i < n ==> |r.value[i]| == |types|
  {
    match DecColumns(types, |types|, n, v, pos)
    case Loaded(cols, p) => Loaded(RowsOf(cols, n), p)
    case BadRange => BadRange
    case UnknownType => UnknownType
  }

  function DecNames(c: nat, v: View, pos: nat): (r: Parse<seq<seq<byte>>>)
    requires v.Valid()
    ensures r.Parsed? ==> |r.value| == c
  {
    if c == 0 then Parsed([], pos) else
      match DecNames(c - 1, v, pos)
      case RangeError => RangeError
      case Parsed(names, p) =>
        match DecBytes(v, p)
        case Parsed(name, q) => Parsed(names + [name], q)
        case RangeError => RangeError
  }

  function DecBody(types: seq<byte>, names: Option<seq<seq<byte>>>, n: nat, v: View, pos: nat): Loaded<TableData>
    requires v.Valid()
  {
    match DecRows(types, n, v, pos)
    case Loaded(rows, p) => Loaded(TableData(types, names, rows), p)
    case BadRange => BadRange
    case UnknownType => UnknownType
  }

  /** `load` on a serializer at `pos`; `names` is what the object held before,
      which a table without column names leaves in place. */
  function DecTable(v: View, pos: nat, names: Option<seq<seq<byte>>>): Loaded<TableData>
    requires v.Valid()
  {
    match DecVarint(v, pos)
    case RangeError => BadRange
    case Parsed(flag, p1) =>
      match DecVarint(v, p1)
      case RangeError => BadRange
      case Parsed(n, p2) =>
        match DecBytes(v, p2)
        case RangeError => BadRange
        case Parsed(types, p3) =>
          if flag % 2 == 0 then
            match DecNames(|types|, v, p3)
            case RangeError => BadRange
            case Parsed(read, p4) => DecBody(types, Some(read), n, v, p4)
          else DecBody(types, names, n, v, p3)
  }

  // ---------- the letters ----------

  lemma OneCell(letter: byte, k: Kind, v: View, x: Value, q: nat)
    requires v.Valid() && KindOf(letter) == Some(k) && Dec(k, v, 0) == Parsed(x, q)
    ensures DecRows([letter], 1, v, 0) == Loaded([[x]], q)
  {
    hide Dec, DecAll, KindOf, DecColumns, RowsOf;
    OneColumn(letter, k, v, x, q);
    var cols: seq<seq<Value>> := [[x]];
    var rows := RowsOf(cols, 1);
    assert rows[0][0] == cols[0][0];
    assert rows[0] == [x];
    assert rows == [[x]];
  }

  lemma OneColumn(letter: byte, k: Kind, v: View, x: Value, q: nat)
    requires v.Valid() && KindOf(letter) == Some(k) && Dec(k, v, 0) == Parsed(x, q)
    ensures DecColumns([letter], 1, 1, v, 0) == Loaded([[x]], q)
  {
    hide Dec, DecAll, KindOf;
    var ks: seq<Kind> := [];
    var xs: seq<Value> := [];
    assert Repeat(k, 1) == ks + [k] && xs + [x] == [x];
    assert DecAll([], v, 0) == Parsed([], 0) by { NothingRead(v); }
    DecAllSnoc([], k, v, 0, [], 0, x, q);
    var types := [letter];
    assert types[1 - 1] == letter && DecColumns(types, 0, 1, v, 0) == Loaded([], 0);
    assert DecAll(Repeat(k, 1), v, 0) == Parsed([x], q);
    var none: seq<seq<Value>> := [];
    assert none + [[x]] == [[x]];
  }

  lemma NothingRead(v: View)
    requires v.Valid()
    ensures DecAll([], v, 0) == Parsed([], 0)
  {
  }

  /** What the letters of a type string mean, for any bytes: 'i' and 'l' are
      signed numbers of four and eight bytes, 'f' and 'd' the patterns of floats
      of that many, 'o' an index, 'c' a boolean, 'b' and 's' counted bytes. */
  lemma WordLetters(b: seq<byte>)
    requires |b| == 4
    ensures DecRows(['i' as int], 1, Whole(b), 0) == Loaded([[Int32(SignedWord(b))]], 4)
    ensures DecRows(['f' as int], 1, Whole(b), 0) == Loaded([[Float32(Word(b))]], 4)
    ensures DecRows(['o' as int], 1, Whole(b), 0) == Loaded([[Ref(SignedWord(b))]], 4)
  {
    hide FromLE, Word, SignedWord, DecRows;
    var v := Whole(b);
    WordReads(b);
    assert b[0..4] == b;
    OneCell('i' as int, KInt, v, Int32(SignedWord(b)), 4);
    OneCell('f' as int, KFloat, v, Float32(Word(b)), 4);
    OneCell('o' as int, KRef, v, Ref(SignedWord(b)), 4);
  }

  lemma LongLetters(b: seq<byte>)
    requires |b| == 8
    ensures DecRows(['l' as int], 1, Whole(b), 0)
         == Loaded([[Int64(Word(b[..4]) + 0x1_0000_0000 * SignedWord(b[4..]))]], 8)
    ensures DecRows(['d' as int], 1, Whole(b), 0)
         == Loaded([[Float64(Word(b[..4]) + 0x1_0000_0000 * Word(b[4..]))]], 8)
  {
    hide FromLE, Word, SignedWord, DecRows;
    var v := Whole(b);
    LongReads(b);
    assert b[0..8] == b;
    OneCell('l' as int, KLong, v, Int64(Word(b[..4]) + 0x1_0000_0000 * SignedWord(b[4..])), 8);
    OneCell('d' as int, KDouble, v, Float64(Word(b[..4]) + 0x1_0000_0000 * Word(b[4..])), 8);
  }

  lemma CountedLetters(data: seq<byte>, x: byte)
    requires |data| < 255 && x < 255
    ensures DecRows(['b' as int], 1, Whole([|data|] + data), 0) == Loaded([[Bytes(data)]], 1 + |data|)
    ensures DecRows(['s' as int], 1, Whole([|data|] + data), 0) == Loaded([[Str(data)]], 1 + |data|)
    ensures DecRows(['c' as int], 1, Whole([x]), 0) == Loaded([[Bool(x != 0)]], 1)
  {
    hide DecRows;
    var s := [|data|] + data;
    ByteLE(|data|);
    ByteLE(x);
    assert s[0..1] == [|data|] && s[1..1 + |data|] == data && [x][0..1] == [x];
    OneCell('b' as int, KBytes, Whole(s), Bytes(data), 1 + |data|);
    OneCell('s' as int, KStr, Whole(s), Str(data), 1 + |data|);
    OneCell('c' as int, KBool, Whole([x]), Bool(x != 0), 1);
  }

  /** Those eight letters, and no others, are known. */
  lemma KnownLetters(types: seq<byte>)
    ensures Known(types) <==> forall j :: 0 <= j < |types| ==>
              types[j] in ['i' as int, 'l' as int, 'f' as int, 'd' as int]
              || types[j] in ['b' as int, 's' as int, 'c' as int, 'o' as int]
  {
  }

  /** The cells of a table are written column by column, each from top to
      bottom. */
  lemma {:induction false} CellPlace<T>(rows: seq<seq<T>>, c: nat, i: nat, j: nat)
    requires Wide(rows, c) && i < |rows| && j < c
    ensures |ColumnMajor(rows, c)| == c * |rows|
    ensures 0 <= j * |rows| + i < c * |rows| && ColumnMajor(rows, c)[j * |rows| + i] == rows[i][j]
  {
    assert c * |rows| == (c - 1) * |rows| + |rows|;
    if j < c - 1 {
      CellPlace(rows, c - 1, i, j);
    } else {
      MajorLength(rows, c - 1);
      assert 0 <= (c - 1) * |rows|;
    }
  }

  lemma {:induction false} MajorLength<T>(rows: seq<seq<T>>, c: nat)
    requires Wide(rows, c)
    ensures |ColumnMajor(rows, c)| == c * |rows|
  {
    if c > 0 {
      MajorLength(rows, c - 1);
      assert c * |rows| == (c - 1) * |rows| + |rows|;
    }
  }

  /** A table begins with its flag, 1 if it has no column names and else 0, its
      row count and its type string; here when none of them is long. */
  lemma TableBegins(t: TableData)
    requires Wide(t.rows, |t.types|) && |t.rows| < 255 && |t.types| < 255
    ensures [if t.names.None? then 1 else 0, |t.rows|, |t.types|] + t.types <= TableBytes(Script, t)
  {
    hide EncAll, ColumnMajor, TableBytes;
    TableParts(t);
    var head := [if t.names.None? then 1 else 0, |t.rows|, |t.types|] + t.types;
    var tail := EncAll(Script, Strings(NamesOf(t))) + EncAll(Script, ColumnMajor(t.rows, |t.types|));
    assert EncVarint(Script, FlagOf(t)) == [if t.names.None? then 1 else 0];
    assert EncBytes(Script, t.types) == [|t.types|] + t.types;
    assert TableBytes(Script, t) == head + tail;
  }

  /** The lowest bit of the flag says whether the table has no column names; then
      those the reader held before stay. */
  lemma FlagBit(flag: byte, names: Option<seq<seq<byte>>>)
    requires flag < 255
    ensures DecTable(Whole([flag, 0, 0]), 0, names)
         == Loaded(TableData([], if flag % 2 == 1 then names else Some([]), []), 3)
  {
    var s: seq<byte> := [flag, 0, 0];
    var v := Whole(s);
    ByteLE(flag);
    ByteLE(0);
    assert s[0..1] == [flag] && s[1..2] == [0] && s[2..3] == [0] && s[3..3] == [];
    assert DecVarint(v, 0) == Parsed(flag, 1) && DecVarint(v, 1) == Parsed(0, 2) && DecBytes(v, 2) == Parsed([], 3);
    var types: seq<byte> := [];
    assert DecColumns(types, 0, 0, v, 3) == Loaded([], 3);
    assert RowsOf([], 0) == [];
  }

  // ---------- the round trip ----------

  lemma {:induction false} DecColumnsOf(t: TableData, c: nat, v: View, pos: nat)
    requires WellFormed(t) && c <= |t.types|
    requires Wide(t.rows, c) && v.Holds(pos, EncAll(Script, ColumnMajor(t.rows, c)))
    ensures var r := DecColumns(t.types, c, |t.rows|, v, pos);
            && r.Loaded? && r.next == pos + |EncAll(Script, ColumnMajor(t.rows, c))|
            && forall j :: 0 <= j < c ==> r.value[j] == Column(t.rows, j)
  {
    hide EncAll, View.Holds, DecAll, Value.Fitting;
    EncAllEmpty(Script);
    if c > 0 {
      var before, col := ColumnMajor(t.rows, c - 1), Column(t.rows, c - 1);
      EncAllAppend(Script, before, col);
      HoldsSplit(v, pos, EncAll(Script, before), EncAll(Script, col));
      DecColumnsOf(t, c - 1, v, pos);
      forall x | x in col ensures x.Fitting() {
        var i :| 0 <= i < |col| && col[i] == x;
        assert FittingRow(t.rows[i]);
      }
      var k := KindOf(t.types[c - 1]).value;
      assert Kinds(col) == Repeat(k, |t.rows|) by {
        forall i | 0 <= i < |col| ensures col[i].Kind() == k {
          assert Typed(t.types, t.rows[i]);
        }
      }
      DecAllOf(col, v, pos + |EncAll(Script, before)|);
    }
  }

  lemma DecRowsOf(t: TableData, v: View, pos: nat)
    requires WellFormed(t)
    requires Wide(t.rows, |t.types|) && v.Holds(pos, EncAll(Script, ColumnMajor(t.rows, |t.types|)))
    ensures DecRows(t.types, |t.rows|, v, pos)
         == Loaded(t.rows, pos + |EncAll(Script, ColumnMajor(t.rows, |t.types|))|)
  {
    hide EncAll, View.Holds, DecColumns, ColumnMajor;
    DecColumnsOf(t, |t.types|, v, pos);
    var cols := DecColumns(t.types, |t.types|, |t.rows|, v, pos).value;
    var rows := RowsOf(cols, |t.rows|);
    forall i | 0 <= i < |rows| ensures rows[i] == t.rows[i] {
      assert Typed(t.types, t.rows[i]);
      forall j | 0 <= j < |t.types| ensures rows[i][j] == t.rows[i][j] {
        assert cols[j] == Column(t.rows, j);
      }
    }
    assert rows == t.rows;
  }

  lemma StringsSnoc(init: seq<seq<byte>>, last: seq<byte>)
    ensures Strings(init + [last]) == Strings(init) + [Str(last)]
  {
  }

  lemma {:induction false} DecNamesOf(names: seq<seq<byte>>, v: View, pos: nat)
    requires forall n :: n in names ==> |n| < TWO32
    requires v.Holds(pos, EncAll(Script, Strings(names)))
    ensures DecNames(|names|, v, pos) == Parsed(names, pos + |EncAll(Script, Strings(names))|)
  {
    hide EncAll, View.Holds, DecBytes, EncBytes, Strings;
    EncAllEmpty(Script);
    if names == [] {
      NoStrings();
    } else {
      var init, last := names[..|names| - 1], names[|names| - 1];
      assert names == init + [last];
      StringsSnoc(init, last);
      EncAllSnoc(Script, Strings(init), Str(last));
      HoldsSplit(v, pos, EncAll(Script, Strings(init)), EncBytes(Script, last));
      DecNamesOf(init, v, pos);
      DecBytesOf(v, pos + |EncAll(Script, Strings(init))|, last);
    }
  }

  lemma EncAllThree(a: Value, b: Value, c: Value, rest: seq<Value>)
    ensures EncAll(Script, [a, b, c] + rest)
         == Enc(Script, a) + (Enc(Script, b) + (Enc(Script, c) + EncAll(Script, rest)))
  {
    hide EncAll, Enc;
    EncAllEmpty(Script);
    EncAllAppend(Script, [a, b, c], rest);
    EncAllSnoc(Script, [a, b], c);
    EncAllSnoc(Script, [a], b);
    EncAllSnoc(Script, [], a);
    assert [a, b] + [c] == [a, b, c] && [a] + [b] == [a, b] && [] + [a] == [a];
  }

  function FlagOf(t: TableData): nat { if t.names.None? then FLAG_NO_COLUMN_NAME else 0 }

  function NamesOf(t: TableData): seq<seq<byte>> { if t.names.None? then [] else t.names.value }

  /** The five stretches a table's bytes consist of. */
  lemma TableParts(t: TableData)
    requires Wide(t.rows, |t.types|)
    ensures TableBytes(Script, t)
         == EncVarint(Script, FlagOf(t)) + (EncVarint(Script, |t.rows|) + (EncBytes(Script, t.types)
            + (EncAll(Script, Strings(NamesOf(t))) + EncAll(Script, ColumnMajor(t.rows, |t.types|)))))
  {
    hide EncAll, EncVarint, EncBytes, ColumnMajor;
    var names, body := Strings(NamesOf(t)), ColumnMajor(t.rows, |t.types|);
    assert Header(t.types, t.names, |t.rows|) + body
        == [Varint(FlagOf(t)), Varint(|t.rows|), Str(t.types)] + (names + body);
    EncAllThree(Varint(FlagOf(t)), Varint(|t.rows|), Str(t.types), names + body);
    EncAllAppend(Script, names, body);
  }

  lemma HoldsFive(v: View, pos: nat, a: seq<byte>, b: seq<byte>, c: seq<byte>, d: seq<byte>, e: seq<byte>)
    requires v.Holds(pos, a + (b + (c + (d + e))))
    ensures v.Holds(pos, a) && v.Holds(pos + |a|, b) && v.Holds(pos + |a| + |b|, c)
    ensures v.Holds(pos + |a| + |b| + |c|, d) && v.Holds(pos + |a| + |b| + |c| + |d|, e)
  {
    hide View.Holds;
    HoldsSplit(v, pos, a, b + (c + (d + e)));
    HoldsSplit(v, pos + |a|, b, c + (d + e));
    HoldsSplit(v, pos + |a| + |b|, c, d + e);
    HoldsSplit(v, pos + |a| + |b| + |c|, d, e);
  }

  /** `load` after `build` gives back the types, names and rows and consumes
      exactly the bytes written, wherever they sit in a larger buffer. */
  lemma RoundTrip(t: TableData, v: View, pos: nat)
    requires WellFormed(t)
    requires Wide(t.rows, |t.types|) && v.Holds(pos, TableBytes(Script, t))
    ensures DecTable(v, pos, None) == Loaded(t, pos + |TableBytes(Script, t)|)
  {
    hide EncAll, View.Holds, DecVarint, DecBytes, DecNames, DecRows;
    hide EncVarint, EncBytes, ColumnMajor, TableBytes, Strings;
    var a, b, c := EncVarint(Script, FlagOf(t)), EncVarint(Script, |t.rows|), EncBytes(Script, t.types);
    var d, e := EncAll(Script, Strings(NamesOf(t))), EncAll(Script, ColumnMajor(t.rows, |t.types|));
    TableParts(t);
    HoldsFive(v, pos, a, b, c, d, e);
    DecVarintOf(v, pos, FlagOf(t));
    DecVarintOf(v, pos + |a|, |t.rows|);
    DecBytesOf(v, pos + |a| + |b|, t.types);
    DecNamesOf(NamesOf(t), v, pos + |a| + |b| + |c|);
    NoStrings();
    DecRowsOf(t, v, pos + |a| + |b| + |c| + |d|);
  }

  lemma NoStrings()
    ensures EncAll(Script, Strings([])) == []
  {
    EncAllEmpty(Script);
    assert Strings([]) == [];
  }
}

/** Object columns on the server: an object is put into the reference pool and
    travels as its index, null as -1, and an index read back names an object
    again. */
module ObjectTable {
  import opened Prelude
  import opened Wire
  import opened Values
  import opened Table
  import opened Marshal
  import opened RefPool
  import opened SerializerModule
  import opened TableSerializerModule

  /** A cell of a row on the server; `Object(None)` is null. */
  datatype Cell = Plain(value: Value) | Object(obj: Option<Obj>)

  type CellRow = seq<Cell>

  /** The pool and the values after some cells have been put. */
  datatype Placing = Placing(pool: Pool, values: seq<Value>)

  ghost function PutCell(s: Placing, cell: Cell): (t: Placing)
    requires Inv(s.pool)
    ensures Inv(t.pool)
  {
    match cell
    case Plain(v) => Placing(s.pool, s.values + [v])
    case Object(None) => Placing(s.pool, s.values + [Ref(-1)])
    case Object(Some(o)) =>
      AllocatedForKeeps(s.pool, o);
      Placing(AllocatedFor(s.pool, o), s.values + [Ref(NextIndex(s.pool))])
  }

  /** `allocRefFor` of every object among the cells, in order. */
  ghost function Place(p: Pool, cells: seq<Cell>): (t: Placing)
    requires Inv(p)
    ensures Inv(t.pool) && |t.values| == |cells|
  {
    if cells == [] then Placing(p, []) else PutCell(Place(p, cells[..|cells| - 1]), cells[|cells| - 1])
  }

  /** A read that names no slot is an exception. */
  datatype Fetched = Got(cell: Cell) | NoSlot

  /** What the server makes of a value read from a column. */
  function Fetch(p: Pool, v: Value): Fetched {
    match v
    case Ref(i) =>
      if i == -1 then Got(Object(None))
      else if 0 <= i < |p.slots| then Got(Object(p.slots[i].target))
      else NoSlot
    case _ => Got(Plain(v))
  }

  /** Reading an index is an exception exactly if it is neither -1 nor that of a
      slot. */
  lemma FetchesSlots(p: Pool, v: Value)
    requires v.Ref?
    ensures Fetch(p, v) == NoSlot <==> v.index < -1 || v.index >= |p.slots|
    ensures v.index == -1 ==> Fetch(p, v) == Got(Object(None))
    ensures 0 <= v.index < |p.slots| ==> Fetch(p, v) == Got(Object(Deref(p, v.index)))
  {
  }

  /** References appear only as objects. */
  predicate CellOk(cell: Cell) { cell.Plain? ==> !cell.value.Ref? }

  /** `v` stands for `cell`: an object's index is in use. */
  predicate Handle(p: Pool, v: Value, cell: Cell) {
    && Fetch(p, v) == Got(cell)
    && (cell == Object(None) ==> v == Ref(-1))
    && (cell.Object? && cell.obj.Some? ==> v.Ref? && 0 <= v.index < |p.slots| && v.index in InUse(p))
  }

  lemma PutGives(s: Placing, cell: Cell)
    requires Inv(s.pool) && CellOk(cell)
    ensures |PutCell(s, cell).values| == |s.values| + 1
    ensures Handle(PutCell(s, cell).pool, PutCell(s, cell).values[|s.values|], cell)
  {
    hide Inv, InUse, AllocatedFor, NextIndex, WithRoom;
    if cell.Object? && cell.obj.Some? {
      AllocatedForKeeps(s.pool, cell.obj.value);
    }
  }

  lemma PutSpares(s: Placing, cell: Cell, v: Value, other: Cell)
    requires Inv(s.pool) && Handle(s.pool, v, other)
    ensures Handle(PutCell(s, cell).pool, v, other) && s.values <= PutCell(s, cell).values
    ensures cell.Object? && cell.obj.Some? && other.Object? && other.obj.Some? ==>
              PutCell(s, cell).values[|s.values|] != v
  {
    hide Inv, InUse, NextIndex, WithRoom;
    if cell.Object? && cell.obj.Some? {
      AllocatedForKeeps(s.pool, cell.obj.value);
      AllocatedKeeps(s.pool);
    }
  }

  /** What was put comes back, as long as the pool has not changed. */
  lemma {:induction false} PlacedFetch(p: Pool, cells: seq<Cell>, k: nat)
    requires Inv(p) && k < |cells| && CellOk(cells[k])
    ensures Handle(Place(p, cells).pool, Place(p, cells).values[k], cells[k])
  {
    hide Inv, Handle, PutCell;
    var init, last := cells[..|cells| - 1], cells[|cells| - 1];
    var s := Place(p, init);
    if k < |init| {
      PlacedFetch(p, init, k);
      PutSpares(s, last, s.values[k], cells[k]);
    } else {
      PutGives(s, last);
    }
  }

  /** Two objects put get two indices, even if they are the same object. */
  lemma {:induction false} PlacedApart(p: Pool, cells: seq<Cell>, j: nat, k: nat)
    requires Inv(p) && j < k < |cells| && cells[j].Object? && cells[k].Object?
    requires cells[j].obj.Some? && cells[k].obj.Some?
    ensures Place(p, cells).values[j] != Place(p, cells).values[k]
  {
    hide Inv, Handle, PutCell;
    var init, last := cells[..|cells| - 1], cells[|cells| - 1];
    var s := Place(p, init);
    PlacedFetch(p, init, j);
    PutSpares(s, last, s.values[j], cells[j]);
    if k < |init| {
      PlacedApart(p, init, j, k);
      PlacedFetch(p, init, k);
      PutSpares(s, last, s.values[k], cells[k]);
    }
  }

  /** An object put into the pool is fetched by its index through any run of
      allocations, frees of other handles and growth; null stays null. */
  lemma HandleFetched(p: Pool, cells: seq<Cell>, k: nat, ops: seq<Op>)
    requires Inv(p) && k < |cells| && cells[k].Object?
    requires LegalRun(Place(p, cells).pool, ops)
    requires cells[k].obj.Some? ==> PlacedAt(p, cells, k) >= 0 && Spares(ops, PlacedAt(p, cells, k))
    ensures Fetch(Run(Place(p, cells).pool, ops), Place(p, cells).values[k]) == Got(cells[k])
  {
    hide Inv, Run, LegalRun, Place;
    var q := Place(p, cells);
    PlacedFetch(p, cells, k);
    if cells[k].obj.Some? {
      HandleStable(q.pool, ops, q.values[k].index);
    }
  }

  ghost function PlacedAt(p: Pool, cells: seq<Cell>, k: nat): int
    requires Inv(p) && k < |cells|
  {
    var v := Place(p, cells).values[k];
    if v.Ref? then v.index else -1
  }

  /** An object returned in a result of any type and later passed back, in an
      argument of any type, is the same object on the server, whatever was
      allocated and freed in between, as long as its own handle was not; and
      null comes back as null. */
  lemma ObjectsComeBack(p: Pool, tResult: seq<byte>, cells: seq<Cell>, k: nat, result: View,
                        ops: seq<Op>, tParam: seq<byte>, args: Row, m: nat, param: View)
    requires Inv(p) && k < |cells| && cells[k].Object?
    requires Known(tResult) && |tResult| < TWO32
    requires Typed(tResult, Place(p, cells).values) && FittingRow(Place(p, cells).values)
    requires Shows(result, WriteResult(tResult, ReturnedAs(tResult, Place(p, cells).values)))
    requires LegalRun(Place(p, cells).pool, ops)
    requires cells[k].obj.Some? ==> PlacedAt(p, cells, k) >= 0 && Spares(ops, PlacedAt(p, cells, k))
    requires Known(tParam) && |tParam| < TWO32 && Typed(tParam, args) && FittingRow(args)
    requires Shows(param, SerArgs(tParam, args))
    requires m < |args| && args[m] == Place(p, cells).values[k]
    ensures UnserRet(tResult, result) == Loaded(ReturnedAs(tResult, Place(p, cells).values), result.length)
    ensures ReadParameter(tParam, param) == Loaded(args, param.length)
    ensures Fetch(Run(Place(p, cells).pool, ops), args[m]) == Got(cells[k])
  {
    hide Inv, Run, LegalRun, Place, UnserRet, ReadParameter, SerArgs, WriteResult, Fetch;
    var r := ReturnedAs(tResult, Place(p, cells).values);
    assert ResultRow(r) == Place(p, cells).values;
    ResultArrives(tResult, r, result);
    ArgumentsArrive(tParam, args, param);
    HandleFetched(p, cells, k, ops);
  }

  lemma PlacedOne(o: Obj)
    ensures Inv(START) && Place(START, [Object(Some(o))]).values == [Ref(0)]
  {
    StartInv();
    PlaceSnoc(START, [], Object(Some(o)));
    assert [] + [Object(Some(o))] == [Object(Some(o))];
  }

  lemma OneAllocation(p: Pool, other: Obj)
    requires Inv(p)
    ensures LegalRun(p, [AllocFor(other)]) && Spares([AllocFor(other)], 0)
  {
    hide Inv;
    StepKeeps(p, AllocFor(other));
  }

  const LETTER: seq<byte> := ['o' as int]

  lemma OneTyped(i: int)
    requires Fits(i, 4)
    ensures Known(LETTER) && Typed(LETTER, [Ref(i)]) && FittingRow([Ref(i)])
    ensures ReturnedAs(LETTER, [Ref(i)]) == Single(Ref(i)) && ResultTyped(LETTER, Single(Ref(i)))
  {
  }

  /** For one: an object returned alone from an empty pool comes back when its
      handle is passed back alone, although another was put beside it. */
  lemma OneComesBack(o: Obj, other: Obj)
    ensures Inv(START)
    ensures var p := Place(START, [Object(Some(o))]).pool;
            LegalRun(p, [AllocFor(other)]) && Fetch(Run(p, [AllocFor(other)]), Ref(0)) == Got(Object(Some(o)))
  {
    hide Inv, Place, LegalRun, Run, Fetch, WriteResult, SerArgs, UnserRet, ReadParameter;
    hide Known, Typed, FittingRow, Spares;
    PlacedOne(o);
    OneAllocation(Place(START, [Object(Some(o))]).pool, other);
    Pow256Values();
    OneTyped(0);
    var ret, arg := WriteResult(LETTER, Single(Ref(0))), SerArgs(LETTER, [Ref(0)]);
    ObjectsComeBack(START, LETTER, [Object(Some(o))], 0, Whole(ret),
                    [AllocFor(other)], LETTER, [Ref(0)], 0, Whole(arg));
  }

  // ---------- the serializer bound to a server ----------

  /** `row` has an object in every object column and a value of the column's
      kind in every other. */
  predicate CellsTyped(types: seq<byte>, row: CellRow) {
    && |row| == |types|
    && forall j :: 0 <= j < |types| && KindOf(types[j]).Some? ==>
         if KindOf(types[j]) == Some(KRef) then row[j].Object?
         else row[j].Plain? && KindOf(types[j]) == Some(row[j].value.Kind())
  }

  predicate AllCells(types: seq<byte>, rows: seq<CellRow>) {
    forall i :: 0 <= i < |rows| ==> CellsTyped(types, rows[i])
  }

  /** `TableSerializer` with a server context. */
  class ServerTable {
    const serv: Server
    const ser: Serializer
    var columnsType: seq<byte>

    constructor (serv: Server, ser: Serializer, types: seq<byte>)
      ensures this.serv == serv && this.ser == ser && columnsType == types
    {
      this.serv, this.ser, columnsType := serv, ser, types;
    }

    /** The pool and the bytes are what putting `cells` makes of them. */
    ghost predicate Has(p: Pool, cells: seq<Cell>, was: seq<byte>)
      requires Inv(p)
      reads serv, serv.refPool, serv.chain, ser, ser.buffer
    {
      && serv.Valid() && ser.Writing() && ser.writer == Script
      && serv.State() == Place(p, cells).pool && ser.Written() == was + EncAll(Script, Place(p, cells).values)
    }

    /** The pool's slots are `was` and new ones after them. */
    twostate predicate Grew()
      reads serv
    {
      && old(serv.refPool) <= serv.refPool
      && forall k :: |old(serv.refPool)| <= k < |serv.refPool| ==> fresh(serv.refPool[k])
    }

    /** One value, after the pool has taken whatever object it stands for. */
    method PutValue(v: Value, ghost xs: seq<Value>, ghost was: seq<byte>)
      requires ser.Writing() && ser.writer == Script && ser.Written() == was + EncAll(Script, xs)
      modifies ser, ser.buffer
      ensures ser.Writing() && ser.Written() == was + EncAll(Script, xs + [v])
      ensures ser.buffer == old(ser.buffer) || fresh(ser.buffer)
    {
      hide EncAll, Enc;
      ser.Put(v);
      EncAllSnoc(Script, xs, v);
    }

    /** One cell: an object is put into the pool and its index written. */
    method PutCellOf(cell: Cell, ghost p: Pool, ghost cells: seq<Cell>, ghost was: seq<byte>)
      requires Inv(p) && Has(p, cells, was)
      modifies serv, serv.refPool, ser, ser.buffer
      ensures Has(p, cells + [cell], was)
      ensures Grew()
              && (ser.buffer == old(ser.buffer) || fresh(ser.buffer))
    {
      hide EncAll, Inv, Server.Valid, Server.State, AllocatedFor, NextIndex, Place, Serializer.Written;
      PlaceSnoc(p, cells, cell);
      ghost var s := Place(p, cells);
      match cell
      case Plain(v) => PutValue(v, s.values, was);
      case Object(None) => PutValue(Ref(-1), s.values, was);
      case Object(Some(o)) =>
        AllocatedForKeeps(s.pool, o);
        var r := serv.AllocRefFor(o);
        PutValue(Ref(r.index), s.values, was);
    }

    /** One column, top to bottom. */
    method PutColumnOf(rows: seq<CellRow>, j: nat, ghost p: Pool, ghost done: seq<Cell>, ghost was: seq<byte>)
      requires Inv(p) && Wide(rows, j + 1) && Has(p, done, was)
      modifies serv, serv.refPool, ser, ser.buffer
      ensures Has(p, done + Column(rows, j), was)
      ensures Grew()
              && (ser.buffer == old(ser.buffer) || fresh(ser.buffer))
    {
      hide Has, Inv;
      ghost var col := Column(rows, j);
      var i := 0;
      assert done + col[..0] == done;
      while i < |rows|
        invariant 0 <= i <= |rows| && Has(p, done + col[..i], was)
        invariant Grew()
                  && (ser.buffer == old(ser.buffer) || fresh(ser.buffer))
      {
        PutCellOf(rows[i][j], p, done + col[..i], was);
        assert done + col[..i] + [rows[i][j]] == done + col[..i + 1];
        i := i + 1;
      }
      assert col[..i] == col;
    }

    /** `putRowsData`: column by column, objects into the pool in that order;
        false stands for "Unknown Type". */
    method PutRowsData(rows: seq<CellRow>) returns (ok: bool)
      requires serv.Valid() && Inv(serv.State()) && ser.Writing() && ser.writer == Script && AllCells(columnsType, rows)
      modifies serv, serv.refPool, ser, ser.buffer
      ensures ok <==> Known(columnsType)
      ensures Wide(rows, KnownColumns(columnsType))
      ensures Has(old(serv.State()), ColumnMajor(rows, KnownColumns(columnsType)), old(ser.Written()))
    {
      hide EncAll, Place, Server.Valid, Inv, Has, KindOf, ColumnMajor, CellsTyped;
      ghost var p, was := serv.State(), ser.Written();
      NothingPut(p, was);
      MajorNone(rows);
      var j := 0;
      while j < |columnsType|
        invariant 0 <= j <= |columnsType| && Wide(rows, j) && Has(p, ColumnMajor(rows, j), was)
        invariant forall k :: 0 <= k < j ==> KindOf(columnsType[k]).Some?
        invariant Grew() && (ser.buffer == old(ser.buffer) || fresh(ser.buffer))
      {
        MajorNext(columnsType, rows, j);
        if KindOf(columnsType[j]).None? {
          KnownColumnsIs(columnsType, j);
          return false;
        }
        PutColumnOf(rows, j, p, ColumnMajor(rows, j), was);
        j := j + 1;
      }
      KnownColumnsIs(columnsType, j);
      ok := true;
    }

    /** One cell read: an index is looked up in the pool; None is a failed read
        or an index that names no slot. */
    method GetCell(k: Kind) returns (cell: Option<Cell>)
      requires ser.Valid() && serv.Valid()
      modifies ser`pos
      ensures match Dec(k, ser.Window(), old(ser.pos))
              case RangeError => cell == None
              case Parsed(v, p) =>
                if Fetch(serv.State(), v).Got? then ser.pos == p && cell == Some(Fetch(serv.State(), v).cell)
                else cell == None
    {
      hide Dec, SlotsOf;
      SlotsKnown(serv.refPool);
      var x := ser.Get(k);
      if x.RangeError? {
        return None;
      }
      match x.value
      case Ref(i) =>
        if i == -1 {
          cell := Some(Object(None));
        } else if i < 0 || i >= |serv.refPool| {
          cell := None;
        } else {
          cell := Some(Object(serv.refPool[i].target));
        }
      case _ => cell := Some(Plain(x.value));
    }

    /** One column read into the grid. */
    method GetColumnOf(k: Kind, n: nat, grid: array2<Cell>, j: nat) returns (ok: bool)
      requires ser.Valid() && serv.Valid() && grid.Length0 == n && j < grid.Length1
      modifies ser`pos, grid
      ensures forall a, b :: 0 <= a < n && 0 <= b < grid.Length1 && b != j ==> grid[a, b] == old(grid[a, b])
      ensures match DecAll(Repeat(k, n), ser.Window(), old(ser.pos))
              case RangeError => !ok
              case Parsed(col, p) =>
                && (ok <==> Fetches(serv.State(), col))
                && (ok ==> ser.pos == p && forall a :: 0 <= a < n ==> grid[a, j] == Fetch(serv.State(), col[a]).cell)
    {
      hide Dec, DecAll, Repeat, Fetch, SlotsOf;
      DecAllNone(k, ser.Window(), ser.pos);
      ghost var v, p := ser.Window(), ser.pos;
      ghost var state := serv.State();
      var i := 0;
      while i < n
        invariant 0 <= i <= n && ser.Window() == v && serv.State() == state
        invariant forall a, b :: 0 <= a < n && 0 <= b < grid.Length1 && b != j ==> grid[a, b] == old(grid[a, b])
        invariant var r := DecAll(Repeat(k, i), v, p);
                  && r.Parsed? && r.next == ser.pos && Fetches(state, r.value)
                  && forall a :: 0 <= a < i ==> grid[a, j] == Fetch(state, r.value[a]).cell
      {
        ghost var r, x := DecAll(Repeat(k, i), v, p), Dec(k, v, ser.pos);
        DecAllNext(k, i, v, p);
        var cell := GetCell(k);
        if cell.None? {
          if x.Parsed? {
            FetchFails(state, k, i, n, v, p);
          } else {
            DecAllFails(k, i + 1, n, v, p);
          }
          return false;
        }
        grid[i, j] := cell.value;
        i := i + 1;
      }
      ok := true;
    }

    /** `getRowsData`: as the reader of plain tables, every index looked up; it
        fails exactly if that reader does or an index names no slot. */
    method GetRowsData(rowCnt: nat) returns (r: GotRows)
      requires ser.Valid() && serv.Valid()
      modifies ser`pos
      ensures Reads(r, DecRows(columnsType, rowCnt, ser.Window(), old(ser.pos)), serv.State())
      ensures r.Rows? ==> ser.pos == r.next
    {
      hide DecAll, Fetch, KindOf, SlotsOf;
      ghost var v, p, state := ser.Window(), ser.pos, serv.State();
      var colCnt := |columnsType|;
      var grid := new Cell[rowCnt, colCnt]((_, _) => Object(None));
      var j := 0;
      while j < colCnt
        invariant 0 <= j <= colCnt && ser.Window() == v && serv.State() == state && fresh(grid)
        invariant var d := DecColumns(columnsType, j, rowCnt, v, p);
                  && d.Loaded? && d.next == ser.pos
                  && forall a, b :: 0 <= a < rowCnt && 0 <= b < j ==> Fetch(state, d.value[b][a]) == Got(grid[a, b])
      {
        var k := KindOf(columnsType[j]);
        if k.None? {
          DecColumnsFails(columnsType, j + 1, rowCnt, v, p);
          return Failed;
        }
        var ok := GetColumnOf(k.value, rowCnt, grid, j);
        if !ok {
          ColumnFails(columnsType, j, rowCnt, v, p, state);
          return Failed;
        }
        j := j + 1;
      }
      var out := seq(rowCnt, a requires 0 <= a < rowCnt reads grid =>
                       seq(colCnt, b requires 0 <= b < colCnt reads grid => grid[a, b]));
      r := Rows(out, ser.pos);
      ColumnsRead(columnsType, rowCnt, v, p, state, r);
    }

    lemma NothingPut(p: Pool, was: seq<byte>)
      requires serv.Valid() && Inv(p) && serv.State() == p
      requires ser.Writing() && ser.writer == Script && ser.Written() == was
      ensures Has(p, [], was)
    {
      hide EncAll, Inv;
      EncAllEmpty(Script);
      assert was + [] == was;
    }
  }

  /** Every value names something. */
  predicate Fetches(p: Pool, xs: seq<Value>) {
    forall a :: 0 <= a < |xs| ==> Fetch(p, xs[a]).Got?
  }

  /** An index that names no slot fails the whole column. */
  lemma {:induction false} FetchFails(p: Pool, k: Kind, i: nat, n: nat, v: View, pos: nat)
    requires v.Valid() && i < n
    requires var r := DecAll(Repeat(k, i + 1), v, pos); r.Parsed? && !Fetch(p, r.value[i]).Got?
    ensures var r := DecAll(Repeat(k, n), v, pos); r.Parsed? ==> !Fetches(p, r.value)
  {
    hide Dec, Fetch;
    if i + 1 < n {
      FetchFails(p, k, i, n - 1, v, pos);
      RepeatSnoc(k, n - 1);
      var r, s := DecAll(Repeat(k, n), v, pos), DecAll(Repeat(k, n - 1), v, pos);
      if r.Parsed? {
        var a :| 0 <= a < |s.value| && !Fetch(p, s.value[a]).Got?;
        assert r.value[a] == s.value[a];
      }
    }
  }

  datatype GotRows = Rows(rows: seq<CellRow>, next: nat) | Failed

  /** `r` is the table of values `t` with every index looked up in the pool. */
  predicate Reads(r: GotRows, t: Loaded<seq<Row>>, p: Pool) {
    match t
    case Loaded(data, next) =>
      && (r.Rows? <==> forall i :: 0 <= i < |data| ==> Fetches(p, data[i]))
      && (r.Rows? ==>
            && r.next == next && |r.rows| == |data|
            && forall i :: 0 <= i < |data| ==> Looked(r.rows[i], data[i], p))
    case _ => r == Failed
  }

  predicate Looked(cells: CellRow, row: Row, p: Pool) {
    && |cells| == |row|
    && forall j :: 0 <= j < |row| ==> Fetch(p, row[j]).Got? && cells[j] == Fetch(p, row[j]).cell
  }

  lemma ColumnsRead(types: seq<byte>, n: nat, v: View, pos: nat, p: Pool, r: GotRows)
    requires v.Valid() && r.Rows? && |r.rows| == n && DecColumns(types, |types|, n, v, pos).Loaded?
    requires var d := DecColumns(types, |types|, n, v, pos);
             && r.next == d.next
             && forall a :: 0 <= a < n ==>
                  && |r.rows[a]| == |types|
                  && forall b :: 0 <= b < |types| ==> Fetch(p, d.value[b][a]) == Got(r.rows[a][b])
    ensures Reads(r, DecRows(types, n, v, pos), p)
  {
    hide Fetch, DecColumns;
    var data := DecRows(types, n, v, pos).value;
    var cols := DecColumns(types, |types|, n, v, pos).value;
    forall a | 0 <= a < n ensures Fetches(p, data[a]) && Looked(r.rows[a], data[a], p) {
      forall b | 0 <= b < |types| ensures Fetch(p, data[a][b]) == Got(r.rows[a][b]) {
        assert data[a][b] == cols[b][a];
      }
    }
  }

  lemma {:induction false} DecColumnsPrefix(types: seq<byte>, c: nat, d: nat, n: nat, v: View, pos: nat)
    requires v.Valid() && c <= d <= |types| && DecColumns(types, d, n, v, pos).Loaded?
    ensures DecColumns(types, c, n, v, pos).Loaded?
    ensures forall j :: 0 <= j < c ==>
              DecColumns(types, c, n, v, pos).value[j] == DecColumns(types, d, n, v, pos).value[j]
  {
    hide DecAll;
    if c < d {
      DecColumnsPrefix(types, c, d - 1, n, v, pos);
    }
  }

  /** A column that cannot be read or names a missing slot fails the table. */
  lemma ColumnFails(types: seq<byte>, j: nat, n: nat, v: View, pos: nat, p: Pool)
    requires v.Valid() && j < |types| && KindOf(types[j]).Some? && DecColumns(types, j, n, v, pos).Loaded?
    requires match DecAll(Repeat(KindOf(types[j]).value, n), v, DecColumns(types, j, n, v, pos).next)
             case RangeError => true
             case Parsed(col, _) => !Fetches(p, col)
    ensures Reads(Failed, DecRows(types, n, v, pos), p)
  {
    hide DecAll, Fetch, KindOf;
    if DecColumns(types, |types|, n, v, pos).Loaded? {
      DecColumnsPrefix(types, j + 1, |types|, n, v, pos);
      var data, cols := DecRows(types, n, v, pos).value, DecColumns(types, |types|, n, v, pos).value;
      var a :| 0 <= a < n && !Fetch(p, cols[j][a]).Got?;
      assert data[a][j] == cols[j][a];
    }
  }

  lemma MajorNone(rows: seq<CellRow>)
    ensures Wide(rows, 0) && ColumnMajor(rows, 0) == []
  {
  }

  lemma MajorNext(types: seq<byte>, rows: seq<CellRow>, j: nat)
    requires AllCells(types, rows) && j < |types| && Wide(rows, j)
    ensures Wide(rows, j + 1) && ColumnMajor(rows, j + 1) == ColumnMajor(rows, j) + Column(rows, j)
  {
    forall i | 0 <= i < |rows| ensures |rows[i]| >= j + 1 {
      assert CellsTyped(types, rows[i]);
    }
  }

  lemma PlaceSnoc(p: Pool, cells: seq<Cell>, cell: Cell)
    requires Inv(p)
    ensures Place(p, cells + [cell]) == PutCell(Place(p, cells), cell)
  {
    assert (cells + [cell])[..|cells|] == cells;
  }
}

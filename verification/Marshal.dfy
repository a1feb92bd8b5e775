/** Typed calls: how arguments and results cross the wire. */
module Marshal {
  import opened Prelude
  import opened Wire
  import opened Values
  import opened Table

  const RAW: seq<byte> := ['b' as int]

  /** What a callable returns: nothing, one value or several. */
  datatype Returned = Void | Single(value: Value) | Several(row: Row)

  /** The view shows exactly `s`: a parameter or a result in its packet. */
  predicate Shows(v: View, s: seq<byte>) {
    v.Holds(0, s) && v.length == |s|
  }

  function Shown(v: View): seq<byte>
    requires v.Valid()
  {
    v.buffer[v.offset..v.offset + v.length]
  }

  // ---------- arguments ----------

  /** A single bytes argument is sent raw, any others as a one-row table
      without a header. */
  function SerArgs(tParam: seq<byte>, args: Row): seq<byte>
    requires Typed(tParam, args)
  {
    if tParam == RAW && args[0].Bytes? then args[0].data
    else EncAll(Script, ColumnMajor([args], |tParam|))
  }

  function ReadParameter(tParam: seq<byte>, v: View): Loaded<Row>
    requires v.Valid()
  {
    if tParam == RAW then Loaded([Bytes(Shown(v))], v.length) else
      match DecRows(tParam, 1, v, 0)
      case Loaded(rows, p) => Loaded(rows[0], p)
      case BadRange => BadRange
      case UnknownType => UnknownType
  }

  lemma OneRow(types: seq<byte>, row: Row, v: View)
    requires Known(types) && |types| < TWO32 && Typed(types, row) && FittingRow(row)
    requires Shows(v, EncAll(Script, ColumnMajor([row], |types|)))
    ensures DecRows(types, 1, v, 0) == Loaded([row], v.length)
  {
    hide EncAll, DecRows, ColumnMajor;
    var t := TableData(types, None, [row]);
    assert WellFormed(t);
    DecRowsOf(t, v, 0);
  }

  /** The server reads exactly the arguments the client passed, wherever they
      lie in the packet. */
  lemma ArgumentsArrive(tParam: seq<byte>, args: Row, v: View)
    requires Known(tParam) && |tParam| < TWO32 && Typed(tParam, args) && FittingRow(args)
    requires Shows(v, SerArgs(tParam, args))
    ensures ReadParameter(tParam, v) == Loaded(args, v.length)
  {
    hide EncAll, DecRows, ColumnMajor;
    if tParam == RAW {
      assert KindOf(tParam[0]) == Some(KBytes);
      assert args == [args[0]];
    } else {
      OneRow(tParam, args, v);
    }
  }

  /** A single bytes argument crosses the wire as it is; any other single
      argument as its encoding, without a header. */
  lemma OneArgument(letter: byte, x: Value)
    requires Typed([letter], [x]) && Known([letter])
    ensures letter == 'b' as int ==> x.Bytes? && SerArgs([letter], [x]) == x.data
    ensures letter != 'b' as int ==> SerArgs([letter], [x]) == Enc(Script, x)
  {
    OneEncoded(x);
    assert [letter][0] == letter && RAW[0] == 'b' as int;
  }

  lemma OneEncoded(x: Value)
    ensures EncAll(Script, ColumnMajor([[x]], 1)) == Enc(Script, x)
  {
    hide Enc;
    var rows: seq<Row> := [[x]];
    assert Column(rows, 0) == [x];
    assert ColumnMajor(rows, 0) == [];
    assert ColumnMajor(rows, 1) == [x] by { var none: Row := []; assert none + [x] == [x]; }
    EncAllEmpty(Script);
    EncAllSnoc(Script, [], x);
    assert [] + [x] == [x];
  }

  // ---------- results ----------

  /** `r` is a result of the declared type. */
  predicate ResultTyped(tResult: seq<byte>, r: Returned) {
    match r
    case Void => |tResult| == 0
    case Single(v) => |tResult| == 1 && Typed(tResult, [v])
    case Several(row) => |tResult| > 1 && Typed(tResult, row)
  }

  function ResultRow(r: Returned): Row {
    match r case Void => [] case Single(v) => [v] case Several(row) => row
  }

  /** How a row of results of the declared type is returned. */
  function ReturnedAs(tResult: seq<byte>, row: Row): Returned
    requires |row| == |tResult|
  {
    if |tResult| == 1 then Single(row[0]) else if |tResult| == 0 then Void else Several(row)
  }

  function WriteResult(tResult: seq<byte>, r: Returned): seq<byte>
    requires ResultTyped(tResult, r)
  {
    if tResult == RAW && r.Single? && r.value.Bytes? then r.value.data
    else EncAll(Script, ColumnMajor([ResultRow(r)], |tResult|))
  }

  function UnserRet(tResult: seq<byte>, v: View): Loaded<Returned>
    requires v.Valid()
  {
    if tResult == RAW then Loaded(Single(Bytes(Shown(v))), v.length) else
      match DecRows(tResult, 1, v, 0)
      case BadRange => BadRange
      case UnknownType => UnknownType
      case Loaded(rows, p) => Loaded(ReturnedAs(tResult, rows[0]), p)
  }

  /** The client gets exactly the result the callable returned. */
  lemma ResultArrives(tResult: seq<byte>, r: Returned, v: View)
    requires Known(tResult) && |tResult| < TWO32 && ResultTyped(tResult, r) && FittingRow(ResultRow(r))
    requires Shows(v, WriteResult(tResult, r))
    ensures UnserRet(tResult, v) == Loaded(r, v.length)
  {
    hide EncAll, DecRows, ColumnMajor;
    if tResult == RAW {
      assert KindOf(tResult[0]) == Some(KBytes);
    } else {
      OneRow(tResult, ResultRow(r), v);
    }
  }

  /** A single bytes result crosses the wire as it is; any other single result as
      its encoding; none as nothing. */
  lemma OneResult(letter: byte, x: Value)
    requires Typed([letter], [x]) && Known([letter])
    ensures letter == 'b' as int ==> x.Bytes? && WriteResult([letter], Single(x)) == x.data
    ensures letter != 'b' as int ==> WriteResult([letter], Single(x)) == Enc(Script, x)
    ensures WriteResult([], Void) == []
  {
    OneEncoded(x);
    assert [letter][0] == letter && RAW[0] == 'b' as int;
    EncAllEmpty(Script);
    var rows: seq<Row> := [[]];
    assert ColumnMajor(rows, 0) == [];
  }
}

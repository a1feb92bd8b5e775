/** Truncation is always detected: reading is monotone in the bytes available,
    so no proper prefix of a built table loads. */
module TablePrefix {
  import opened Prelude
  import opened Wire
  import opened Values
  import opened Table

  /** `w` shows the bytes of `v` and possibly more after them. */
  predicate Extends(v: View, w: View) {
    && v.offset == w.offset == 0
    && v.length == |v.buffer| && w.length == |w.buffer|
    && v.buffer <= w.buffer
  }

  lemma WordMonotone(v: View, w: View, pos: nat, n: nat)
    requires Extends(v, w) && DecWord(v, pos, n).Parsed?
    ensures DecWord(w, pos, n) == DecWord(v, pos, n) && DecWord(v, pos, n).next <= v.length
  {
    assert v.buffer[pos..pos + n] == w.buffer[pos..pos + n];
  }

  lemma VarintMonotone(v: View, w: View, pos: nat)
    requires Extends(v, w) && DecVarint(v, pos).Parsed?
    ensures DecVarint(w, pos) == DecVarint(v, pos) && DecVarint(v, pos).next <= v.length
  {
    WordMonotone(v, w, pos, 1);
    if DecWord(v, pos, 1).value == 0xff {
      WordMonotone(v, w, pos + 1, 4);
    }
  }

  lemma BytesMonotone(v: View, w: View, pos: nat)
    requires Extends(v, w) && DecBytes(v, pos).Parsed?
    ensures DecBytes(w, pos) == DecBytes(v, pos) && DecBytes(v, pos).next <= v.length
  {
    VarintMonotone(v, w, pos);
    var n, p := DecVarint(v, pos).value, DecVarint(v, pos).next;
    assert v.buffer[p..p + n] == w.buffer[p..p + n];
  }

  lemma ValueMonotone(k: Kind, v: View, w: View, pos: nat)
    requires Extends(v, w) && Dec(k, v, pos).Parsed?
    ensures Dec(k, w, pos) == Dec(k, v, pos) && Dec(k, v, pos).next <= v.length
  {
    hide DecWord, DecVarint, DecBytes;
    match k
    case KBytes => BytesMonotone(v, w, pos);
    case KStr => BytesMonotone(v, w, pos);
    case KBool => VarintMonotone(v, w, pos);
    case KVarint => VarintMonotone(v, w, pos);
    case KInt => WordMonotone(v, w, pos, 4);
    case KFloat => WordMonotone(v, w, pos, 4);
    case KRef => WordMonotone(v, w, pos, 4);
    case KLong => WordMonotone(v, w, pos, 8);
    case KDouble => WordMonotone(v, w, pos, 8);
  }

  lemma {:induction false} AllMonotone(ks: seq<Kind>, v: View, w: View, pos: nat)
    requires Extends(v, w) && pos <= v.length && DecAll(ks, v, pos).Parsed?
    ensures DecAll(ks, w, pos) == DecAll(ks, v, pos) && DecAll(ks, v, pos).next <= v.length
  {
    hide Dec;
    if ks != [] {
      var init := ks[..|ks| - 1];
      AllMonotone(init, v, w, pos);
      ValueMonotone(ks[|ks| - 1], v, w, DecAll(init, v, pos).next);
    }
  }

  lemma {:induction false} ColumnsMonotone(types: seq<byte>, c: nat, n: nat, v: View, w: View, pos: nat)
    requires Extends(v, w) && pos <= v.length && c <= |types| && DecColumns(types, c, n, v, pos).Loaded?
    ensures DecColumns(types, c, n, w, pos) == DecColumns(types, c, n, v, pos)
    ensures DecColumns(types, c, n, v, pos).next <= v.length
  {
    hide DecAll;
    if c > 0 {
      ColumnsMonotone(types, c - 1, n, v, w, pos);
      AllMonotone(Repeat(KindOf(types[c - 1]).value, n), v, w, DecColumns(types, c - 1, n, v, pos).next);
    }
  }

  lemma {:induction false} NamesMonotone(c: nat, v: View, w: View, pos: nat)
    requires Extends(v, w) && pos <= v.length && DecNames(c, v, pos).Parsed?
    ensures DecNames(c, w, pos) == DecNames(c, v, pos) && DecNames(c, v, pos).next <= v.length
  {
    hide DecBytes;
    if c > 0 {
      NamesMonotone(c - 1, v, w, pos);
      BytesMonotone(v, w, DecNames(c - 1, v, pos).next);
    }
  }

  lemma TableMonotone(v: View, w: View, pos: nat, names: Option<seq<seq<byte>>>)
    requires Extends(v, w) && pos <= v.length && DecTable(v, pos, names).Loaded?
    ensures DecTable(w, pos, names) == DecTable(v, pos, names) && DecTable(v, pos, names).next <= v.length
  {
    hide DecVarint, DecBytes, DecNames, DecColumns;
    VarintMonotone(v, w, pos);
    var flag := DecVarint(v, pos);
    VarintMonotone(v, w, flag.next);
    var n := DecVarint(v, flag.next);
    BytesMonotone(v, w, n.next);
    var types := DecBytes(v, n.next);
    var p := types.next;
    if flag.value % 2 == 0 {
      NamesMonotone(|types.value|, v, w, p);
      p := DecNames(|types.value|, v, p).next;
    }
    ColumnsMonotone(types.value, |types.value|, n.value, v, w, p);
  }

  lemma NoProperPrefixLoads(t: TableData, k: nat)
    requires WellFormed(t) && Wide(t.rows, |t.types|) && k < |TableBytes(Script, t)|
    ensures !DecTable(Whole(TableBytes(Script, t)[..k]), 0, None).Loaded?
  {
    hide DecTable, TableBytes;
    var s := TableBytes(Script, t);
    var v, w := Whole(s[..k]), Whole(s);
    assert w.Holds(0, s);
    RoundTrip(t, w, 0);
    if DecTable(v, 0, None).Loaded? {
      TableMonotone(v, w, 0, None);
      assert false;
    }
  }
}

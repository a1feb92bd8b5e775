/** The session protocol and the reference pool together: the server's state
    contains the pool, its steps are the only ones that change the pool, and an
    object returned by one call of a run is the object a later call of the same
    run passes back. */
module ServedObjects {
  import opened Prelude
  import opened Wire
  import opened Values
  import opened Table
  import opened Session
  import SessionRuns
  import opened Marshal
  import P = RefPool
  import O = ObjectTable

  const FREE_INDEX: int := -2

  /** What a free request for the indices in `param` does to the pool. */
  ghost predicate Frees(param: seq<byte>, ops: seq<P.Op>) {
    && |param| == 4 * |ops|
    && forall k :: 0 <= k < |ops| ==> ops[k].Free? && ops[k].i == IntAt(param, 4 * k)
  }

  ghost predicate Closes(ops: seq<P.Op>) {
    exists k :: 0 <= k < |ops| && ops[k] == P.Close
  }

  /** Some callable has not returned. */
  ghost predicate AtWork(s: System) {
    exists tag :: tag in s.server.inflight && AtCall(s.server.inflight[tag])
  }

  /** What a step itself does to the pool.  A free request frees what its
      parameter lists; a callable may allocate and free before it returns or
      throws; and the pool is closed when the server stops. */
  ghost predicate Own(s: System, step: Step, ops: seq<P.Op>)
    requires Enabled(s, step)
  {
    match step
    case Complete(tag, outcome) =>
      if s.server.inflight[tag].index == FREE_INDEX
      then outcome == Ok([]) && Frees(s.server.inflight[tag].param, ops)
      else !Closes(ops)
    case Throw(_) => ops != [] && ops[|ops| - 1] == P.Close && !Closes(ops[..|ops| - 1])
    case _ => ops == if s.server.running && !Apply(s, step).server.running then [P.Close] else []
  }

  /** Before a step, the callables at work may have allocated and freed. */
  ghost predicate Does(s: System, step: Step, ops: seq<P.Op>)
    requires Enabled(s, step)
  {
    exists j :: 0 <= j <= |ops| && !Closes(ops[..j]) && (j > 0 ==> AtWork(s)) && Own(s, step, ops[j..])
  }

  ghost predicate PoolRuns(p: P.Pool, ops: seq<P.Op>, q: P.Pool) {
    P.Inv(p) && P.LegalRun(p, ops) && q == P.Run(p, ops)
  }

  /** A run of client, channels, server and the server's pool. */
  ghost predicate IsServedRun(states: seq<System>, steps: seq<Step>, pools: seq<P.Pool>, ops: seq<seq<P.Op>>) {
    && IsRun(states, steps) && |pools| == |states| == |steps| + 1 && |ops| == |steps| && pools[0] == P.START
    && forall n :: 0 <= n < |steps| ==> Does(states[n], steps[n], ops[n]) && PoolRuns(pools[n], ops[n], pools[n + 1])
  }

  // ---------- the pool along a run ----------

  lemma {:induction false} RunClosed(p: P.Pool, ops: seq<P.Op>)
    requires P.Inv(p) && P.LegalRun(p, ops)
    ensures P.Run(p, ops).running <==> p.running && !Closes(ops)
    decreases |ops|
  {
    hide P.Inv, P.AllocatedFor, P.Freed, P.WithRoom, P.NextIndex, P.InUse;
    if ops != [] {
      OpCloses(p, ops[0]);
      P.StepKeeps(p, ops[0]);
      RunClosed(P.Step(p, ops[0]), ops[1..]);
      ClosesFirst(ops);
    }
  }

  lemma OpCloses(p: P.Pool, op: P.Op)
    requires P.Inv(p) && P.Legal(p, op)
    ensures P.Step(p, op).running <==> p.running && op != P.Close
  {
    hide P.Inv, P.InUse, P.NextIndex;
    if op.AllocFor? {
      P.AllocatedForKeeps(p, op.obj);
    }
  }

  lemma ClosesFirst(ops: seq<P.Op>)
    requires ops != []
    ensures Closes(ops) <==> ops[0] == P.Close || Closes(ops[1..])
  {
    if Closes(ops) && ops[0] != P.Close {
      var k :| 0 <= k < |ops| && ops[k] == P.Close;
      assert ops[1..][k - 1] == P.Close;
    }
    if Closes(ops[1..]) {
      var k :| 0 <= k < |ops[1..]| && ops[1..][k] == P.Close;
      assert ops[k + 1] == P.Close;
    }
  }

  lemma StepStops(s: System, step: Step, ops: seq<P.Op>)
    requires Enabled(s, step) && Does(s, step, ops)
    ensures Apply(s, step).server.running <==> s.server.running && !Closes(ops)
  {
    hide Apply, Own;
    var j :| 0 <= j <= |ops| && !Closes(ops[..j]) && Own(s, step, ops[j..]);
    ClosesSplit(ops, j);
    OwnStops(s, step, ops[j..]);
  }

  lemma OwnStops(s: System, step: Step, ops: seq<P.Op>)
    requires Enabled(s, step) && Own(s, step, ops)
    ensures Apply(s, step).server.running <==> s.server.running && !Closes(ops)
    ensures s.server.running && !Apply(s, step).server.running ==>
              ops != [] && ops[|ops| - 1] == P.Close && !Closes(ops[..|ops| - 1])
  {
    hide OnReply, Broken, Finished, WireOf, Reply, IntAt;
    if step.Run? {
      RanStops(s, step.tag);
    }
    if ops != [] && ops[|ops| - 1] == P.Close {
      assert Closes(ops);
    }
  }

  lemma ClosesSplit(ops: seq<P.Op>, j: nat)
    requires j <= |ops|
    ensures Closes(ops) <==> Closes(ops[..j]) || Closes(ops[j..])
  {
    if Closes(ops) {
      var k :| 0 <= k < |ops| && ops[k] == P.Close;
      assert k < j ==> ops[..j][k] == P.Close;
      assert k >= j ==> ops[j..][k - j] == P.Close;
    }
    if Closes(ops[j..]) {
      var k :| 0 <= k < |ops[j..]| && ops[j..][k] == P.Close;
      assert ops[j + k] == P.Close;
    }
  }

  lemma RanStops(s: System, tag: nat)
    requires Enabled(s, Run(tag))
    ensures Ran(s, tag).server.running ==> s.server.running
  {
    hide Reply, IntAt;
  }

  /** In every run the pool is closed exactly when the server has stopped, and it
      keeps its invariant. */
  lemma {:induction false} PoolServes(
    states: seq<System>, steps: seq<Step>, pools: seq<P.Pool>, ops: seq<seq<P.Op>>, n: nat)
    requires IsServedRun(states, steps, pools, ops) && n < |states|
    ensures P.Inv(pools[n]) && (pools[n].running <==> states[n].server.running)
  {
    hide P.Inv, Enabled, Apply, Does, P.Run, P.LegalRun;
    if n == 0 {
      P.StartInv();
    } else {
      PoolServes(states, steps, pools, ops, n - 1);
      assert PoolRuns(pools[n - 1], ops[n - 1], pools[n]);
      RunClosed(pools[n - 1], ops[n - 1]);
      StepStops(states[n - 1], steps[n - 1], ops[n - 1]);
    }
  }

  /** In every run, when the server stops, every finalizer installed until then
      has run exactly once. */
  lemma StopFinalizes(states: seq<System>, steps: seq<Step>, pools: seq<P.Pool>, ops: seq<seq<P.Op>>, n: nat, k: nat)
    requires IsServedRun(states, steps, pools, ops) && n < |steps|
    requires states[n].server.running && !states[n + 1].server.running && k < pools[n + 1].installs
    ensures multiset(pools[n + 1].ran)[k] == 1
  {
    hide P.Inv, Enabled, Apply, Does, P.Run, P.LegalRun, P.Closed;
    PoolServes(states, steps, pools, ops, n);
    assert PoolRuns(pools[n], ops[n], pools[n + 1]);
    StopsLast(states[n], steps[n], ops[n]);
    var init := ops[n][..|ops[n]| - 1];
    assert ops[n] == init + [P.Close];
    P.RunSplit(pools[n], init, [P.Close]);
    P.RunAppend(pools[n], init, [P.Close]);
    RunClosed(pools[n], init);
    CloseFires(P.Run(pools[n], init), k);
  }

  /** In every run, the first turn of a request to close stops the server, closes
      the pool and has every finalizer installed until then run exactly once. */
  lemma CloseRequestFinalizes(
    states: seq<System>, steps: seq<Step>, pools: seq<P.Pool>, ops: seq<seq<P.Op>>, n: nat, tag: nat, k: nat)
    requires IsServedRun(states, steps, pools, ops) && n < |steps| && steps[n] == Run(tag)
    requires states[n].server.running && tag in states[n].server.inflight && tag in states[n].client.recs
    requires states[n].client.recs[tag].kind == Close && states[n].server.inflight[tag].stack == [Begin]
    ensures !states[n + 1].server.running && !pools[n + 1].running
    ensures k < pools[n + 1].installs ==> multiset(pools[n + 1].ran)[k] == 1
  {
    hide P.Inv, Enabled, Apply, Does, P.Run, P.LegalRun;
    SessionRuns.ServerStops(states, steps, n);
    PoolServes(states, steps, pools, ops, n + 1);
    if k < pools[n + 1].installs {
      StopFinalizes(states, steps, pools, ops, n, k);
    }
  }

  lemma StopsLast(s: System, step: Step, ops: seq<P.Op>)
    requires Enabled(s, step) && Does(s, step, ops) && s.server.running && !Apply(s, step).server.running
    ensures ops != [] && ops[|ops| - 1] == P.Close && !Closes(ops[..|ops| - 1])
  {
    hide Apply, Own;
    var j :| 0 <= j <= |ops| && !Closes(ops[..j]) && Own(s, step, ops[j..]);
    OwnStops(s, step, ops[j..]);
    var init := ops[..|ops| - 1];
    ClosesSplit(init, j);
    assert init[..j] == ops[..j] && init[j..] == ops[j..][..|ops| - j - 1];
  }

  lemma CloseFires(p: P.Pool, k: nat)
    requires P.Inv(p) && p.running
    ensures P.LegalRun(p, [P.Close]) && P.Run(p, [P.Close]) == P.Closed(p)
    ensures k < P.Closed(p).installs ==> multiset(P.Closed(p).ran)[k] == 1
  {
    hide P.Balanced;
    P.RunOne(p, P.Close);
    if k < p.installs {
      P.EachFired(p, k);
    }
  }

  /** What is done to the pool from step `a` up to step `b`. */
  function Between(ops: seq<seq<P.Op>>, a: nat, b: nat): seq<P.Op>
    requires a <= b <= |ops|
    decreases b
  {
    if a == b then [] else Between(ops, a, b - 1) + ops[b - 1]
  }

  lemma {:induction false} PoolBetween(
    states: seq<System>, steps: seq<Step>, pools: seq<P.Pool>, ops: seq<seq<P.Op>>, a: nat, b: nat)
    requires IsServedRun(states, steps, pools, ops) && a <= b < |states|
    ensures PoolRuns(pools[a], Between(ops, a, b), pools[b])
  {
    hide P.Inv, Enabled, Apply, Does, P.Run, P.LegalRun;
    PoolServes(states, steps, pools, ops, a);
    if a == b {
      NothingDone(pools[a]);
    } else {
      PoolBetween(states, steps, pools, ops, a, b - 1);
      assert PoolRuns(pools[b - 1], ops[b - 1], pools[b]);
      P.RunAppend(pools[a], Between(ops, a, b - 1), ops[b - 1]);
    }
  }

  lemma NothingDone(p: P.Pool)
    requires P.Inv(p)
    ensures PoolRuns(p, [], p)
  {
    hide P.Inv;
  }

  /** From step `a` to step `b` index `i` is not freed. */
  ghost predicate NotFreed(ops: seq<seq<P.Op>>, a: nat, b: nat, i: nat) {
    forall n :: a <= n < b && n < |ops| ==> P.Free(i) !in ops[n]
  }

  /** While the server runs, what happens to the pool spares every handle that is
      not freed. */
  lemma {:induction false} SparesBetween(
    states: seq<System>, steps: seq<Step>, pools: seq<P.Pool>, ops: seq<seq<P.Op>>, a: nat, b: nat, i: nat)
    requires IsServedRun(states, steps, pools, ops) && a <= b < |states|
    requires states[b].server.running && NotFreed(ops, a, b, i)
    ensures P.Spares(Between(ops, a, b), i)
  {
    hide P.Inv, Enabled, Apply, Does, P.Run, P.LegalRun;
    if a < b {
      StepStops(states[b - 1], steps[b - 1], ops[b - 1]);
      SparesBetween(states, steps, pools, ops, a, b - 1, i);
    }
  }

  // ---------- free requests ----------

  lemma {:induction false} FreesGone(p: P.Pool, ops: seq<P.Op>, k: nat)
    requires P.Inv(p) && P.LegalRun(p, ops) && k < |ops| && forall j :: 0 <= j < |ops| ==> ops[j].Free?
    ensures ops[k].i !in P.InUse(P.Run(p, ops)) && P.InUse(P.Run(p, ops)) <= P.InUse(p)
    decreases |ops|
  {
    hide P.Inv, P.Freed, P.InUse;
    P.FreedKeeps(p, ops[0].i);
    P.StepKeeps(p, ops[0]);
    var q := P.Step(p, ops[0]);
    if k > 0 {
      FreesGone(q, ops[1..], k - 1);
    } else if |ops| > 1 {
      FreesGone(q, ops[1..], 0);
    } else {
      assert ops[1..] == [];
    }
  }

  /** In every run, a free request that has been answered without an error has
      freed every index its parameter lists. */
  lemma FreeRequestFrees(
    states: seq<System>, steps: seq<Step>, pools: seq<P.Pool>, ops: seq<seq<P.Op>>,
    n: nat, tag: nat, outcome: Outcome, k: nat)
    requires IsServedRun(states, steps, pools, ops) && n < |steps| && steps[n] == Complete(tag, outcome)
    requires tag in states[n].server.inflight && states[n].server.inflight[tag].index == -2
    requires 4 * k + 4 <= |states[n].server.inflight[tag].param|
    ensures outcome == Ok([])
    ensures var i := IntAt(states[n].server.inflight[tag].param, 4 * k); i >= 0 && i !in P.InUse(pools[n + 1])
  {
    hide P.Inv, P.Run, P.LegalRun, P.InUse, IntAt, Apply;
    var s, all := states[n], ops[n];
    assert Does(s, steps[n], all) && PoolRuns(pools[n], all, pools[n + 1]);
    var j :| 0 <= j <= |all| && Own(s, steps[n], all[j..]);
    assert Frees(s.server.inflight[tag].param, all[j..]);
    assert all == all[..j] + all[j..];
    P.RunSplit(pools[n], all[..j], all[j..]);
    P.RunAppend(pools[n], all[..j], all[j..]);
    FreesGone(P.Run(pools[n], all[..j]), all[j..], k);
  }

  // ---------- objects through a run ----------

  /** The allocations `Place` makes. */
  ghost function Allocs(cells: seq<O.Cell>): seq<P.Op> {
    if cells == [] then [] else
      var last := cells[|cells| - 1];
      Allocs(cells[..|cells| - 1]) +
      if last.Object? && last.obj.Some? then [P.AllocFor(last.obj.value)] else []
  }

  lemma {:induction false} PlaceRuns(p: P.Pool, cells: seq<O.Cell>)
    requires P.Inv(p)
    ensures PoolRuns(p, Allocs(cells), O.Place(p, cells).pool)
  {
    hide P.Inv, P.Run, P.LegalRun, P.AllocatedFor, P.NextIndex, P.WithRoom;
    if cells == [] {
      NothingDone(p);
    } else {
      var init, last := cells[..|cells| - 1], cells[|cells| - 1];
      PlaceRuns(p, init);
      var q := O.Place(p, init).pool;
      if last.Object? && last.obj.Some? {
        P.AllocatedForKeeps(q, last.obj.value);
        P.RunOne(q, P.AllocFor(last.obj.value));
        P.RunAppend(p, Allocs(init), [P.AllocFor(last.obj.value)]);
      } else {
        assert Allocs(cells) == Allocs(init);
      }
    }
  }

  predicate Declared(types: seq<byte>, row: Row) {
    Known(types) && |types| < TWO32 && Typed(types, row) && FittingRow(row)
  }

  /** The step ends call `tag`, whose callable has done `before` to the pool and
      then returned `cells` as a result of type `types`. */
  ghost predicate Returns(p: P.Pool, step: Step, ops: seq<P.Op>, tag: nat,
                          types: seq<byte>, before: seq<P.Op>, cells: seq<O.Cell>)
  {
    && P.Inv(p) && P.LegalRun(p, before) && before <= ops && ops[|before|..] == Allocs(cells)
    && var row := O.Place(P.Run(p, before), cells).values;
       Declared(types, row) && step == Complete(tag, Ok(WriteResult(types, ReturnedAs(types, row))))
  }

  /** The caller of call `tag` has got a result, and `v` is the value it finds in
      place `k` of it. */
  predicate Got(s: System, tag: nat, types: seq<byte>, result: View, k: nat, v: Value) {
    && tag in s.client.recs && s.client.recs[tag].kind == Call
    && |s.client.recs[tag].seen| == 1 && Shows(result, s.client.recs[tag].seen[0].body)
    && match UnserRet(types, result)
       case Loaded(r, _) => k < |ResultRow(r)| && v == ResultRow(r)[k]
       case _ => false
  }

  /** The callable of request `tag` is at work, and its caller made the request
      with the serialized arguments `args`. */
  predicate Serves(s: System, tag: nat, types: seq<byte>, args: Row) {
    && Declared(types, args)
    && tag in s.server.inflight && AtCall(s.server.inflight[tag])
    && tag in s.client.recs && s.client.recs[tag].param == SerArgs(types, args)
  }

  /** What the caller of a call has got is what the callable returned. */
  lemma ReturnedSeen(states: seq<System>, steps: seq<Step>, a: nat, c: nat, tag: nat, outcome: Outcome)
    requires IsRun(states, steps) && a < c < |states| && steps[a] == Complete(tag, outcome)
    requires tag in states[c].client.recs && states[c].client.recs[tag].kind == Call
    requires |states[c].client.recs[tag].seen| == 1
    ensures states[c].client.recs[tag].seen == [outcome]
  {
    hide Apply;
    CompleteRecords(states[a], tag, outcome);
    SessionRuns.RunGrows(states, steps, a + 1, c);
    SessionRuns.CallsResolveOnce(states, steps, c, tag);
    var done, all := states[a + 1].computed[tag], states[c].computed[tag];
    assert |all| <= 1 && done <= all;
    assert states[c].client.recs[tag].seen == all;
  }

  lemma CompleteRecords(s: System, tag: nat, outcome: Outcome)
    requires Enabled(s, Complete(tag, outcome))
    ensures var u := Apply(s, Complete(tag, outcome));
            tag in u.computed && u.computed[tag] != [] && u.computed[tag][|u.computed[tag]| - 1] == outcome
  {
  }

  /** The value the caller finds stands, in the pool the callable left, for the
      cell it returned. */
  lemma GotHandle(p: P.Pool, s: System, tag: nat, types: seq<byte>, cells: seq<O.Cell>, result: View, k: nat, v: Value)
    requires P.Inv(p) && k < |cells| && cells[k].Object?
    requires Declared(types, O.Place(p, cells).values)
    requires Got(s, tag, types, result, k, v)
    requires s.client.recs[tag].seen == [Ok(WriteResult(types, ReturnedAs(types, O.Place(p, cells).values)))]
    ensures v == O.Place(p, cells).values[k] && O.Handle(O.Place(p, cells).pool, v, cells[k])
  {
    hide P.Inv, O.Place, UnserRet, WriteResult, O.Handle;
    var row := O.Place(p, cells).values;
    var r := ReturnedAs(types, row);
    assert ResultRow(r) == row;
    ResultArrives(types, r, result);
    O.PlacedFetch(p, cells, k);
  }

  /** In every run: a callable returns objects at step `a`, its caller gets the
      result and finds `args[m]` in place `k` of it, and another request of the
      same run passes `args[m]` on.  If the handle was not freed since and the
      server still runs, the callable of that request fetches the very object
      returned in place `k`, and null if that was null. */
  lemma ObjectsServedBack(
    states: seq<System>, steps: seq<Step>, pools: seq<P.Pool>, ops: seq<seq<P.Op>>,
    a: nat, tag: nat, tResult: seq<byte>, before: seq<P.Op>, cells: seq<O.Cell>, k: nat, c: nat, result: View,
    b: nat, other: nat, tParam: seq<byte>, args: Row, m: nat, param: View)
    requires IsServedRun(states, steps, pools, ops) && a < b < |states| && a < c < |states|
    requires Returns(pools[a], steps[a], ops[a], tag, tResult, before, cells) && k < |cells| && cells[k].Object?
    requires Serves(states[b], other, tParam, args) && states[b].server.running
    requires m < |args| && Got(states[c], tag, tResult, result, k, args[m])
    requires args[m].Ref? && args[m].index >= 0 ==> NotFreed(ops, a + 1, b, args[m].index)
    requires Shows(param, states[b].server.inflight[other].param)
    ensures ReadParameter(tParam, param) == Loaded(args, param.length)
    ensures O.Fetch(pools[b], args[m]) == O.Got(cells[k])
  {
    hide P.Inv, P.Run, P.LegalRun, O.Place, UnserRet, WriteResult, SerArgs, ReadParameter, IsRun, Does, Apply, Enabled,
      O.Handle, O.Fetch, Declared, Allocs;
    ReturnedSeen(states, steps, a, c, tag, steps[a].outcome);
    var p := P.Run(pools[a], before);
    GotHandle(p, states[c], tag, tResult, cells, result, k, args[m]);
    PlaceRuns(p, cells);
    P.RunAppend(pools[a], before, Allocs(cells));
    assert ops[a] == before + Allocs(cells) && PoolRuns(pools[a], ops[a], pools[a + 1]);
    PoolBetween(states, steps, pools, ops, a + 1, b);
    HandleKept(states, steps, pools, ops, a + 1, b, args[m], cells[k]);
    ServedArguments(states, steps, b, other, tParam, args, param);
  }

  lemma ServedArguments(
    states: seq<System>, steps: seq<Step>, b: nat, tag: nat, types: seq<byte>, args: Row, param: View)
    requires IsRun(states, steps) && b < |states| && Serves(states[b], tag, types, args)
    requires Shows(param, states[b].server.inflight[tag].param)
    ensures ReadParameter(types, param) == Loaded(args, param.length)
  {
    hide IsRun, ReadParameter, SerArgs;
    SessionRuns.ServedAsMade(states, steps, b, tag);
    ArgumentsArrive(types, args, param);
  }

  /** A handle that is not freed stands for the same object at the end. */
  lemma HandleKept(states: seq<System>, steps: seq<Step>, pools: seq<P.Pool>, ops: seq<seq<P.Op>>,
                   a: nat, b: nat, v: Value, cell: O.Cell)
    requires IsServedRun(states, steps, pools, ops) && a <= b < |states| && states[b].server.running
    requires O.Handle(pools[a], v, cell) && cell.Object?
    requires v.Ref? && v.index >= 0 ==> NotFreed(ops, a, b, v.index)
    ensures O.Fetch(pools[b], v) == O.Got(cell)
  {
    hide P.Inv, P.Run, P.LegalRun, IsRun, Does, Apply, Enabled;
    if cell.obj.Some? {
      PoolBetween(states, steps, pools, ops, a, b);
      SparesBetween(states, steps, pools, ops, a, b, v.index);
      P.HandleStable(pools[a], Between(ops, a, b), v.index);
    }
  }
}

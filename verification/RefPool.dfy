/** The scripting server's reference pool: an intrusive free list threaded
    through a growing array of slots, with finalizers run on free and on
    close.  The pure part states what each operation does to the pool; the
    object below it does the same on linked slots. */
module RefPool {
  import opened Prelude

  const EXPAND_COUNT: nat := 256

  datatype Obj = Obj(id: nat, closeable: bool)

  /** A finalizer is named by its installation number. */
  datatype Slot = Slot(target: Option<Obj>, onFree: Option<nat>)

  const EMPTY := Slot(None, None)

  /** `free` lists the free slots in chain order; `ran` logs the finalizers in
      the order they ran; `installs` counts those installed. */
  datatype Pool = Pool(slots: seq<Slot>, free: seq<nat>, running: bool, installs: nat, ran: seq<nat>)

  function Empties(n: nat): (s: seq<Slot>)
    ensures |s| == n
  {
    seq(n, _ => EMPTY)
  }

  function Expanded(p: Pool): Pool {
    p.(slots := p.slots + Empties(EXPAND_COUNT), free := Range(|p.slots|, EXPAND_COUNT) + p.free)
  }

  function WithRoom(p: Pool): (q: Pool)
    ensures q.free != []
  {
    if p.free == [] then Expanded(p) else p
  }

  /** The slot the next allocation takes. */
  function NextIndex(p: Pool): nat {
    WithRoom(p).free[0]
  }

  function Allocated(p: Pool): Pool {
    var q := WithRoom(p);
    q.(free := q.free[1..])
  }

  function Install(p: Pool, i: nat, obj: Obj): Pool
    requires i < |p.slots|
  {
    if obj.closeable
    then p.(slots := p.slots[i := Slot(Some(obj), Some(p.installs))], installs := p.installs + 1)
    else p.(slots := p.slots[i := Slot(Some(obj), p.slots[i].onFree)])
  }

  function AllocatedFor(p: Pool, obj: Obj): Pool
    requires NextIndex(p) < |WithRoom(p).slots|
  {
    Install(Allocated(p), NextIndex(p), obj)
  }

  function Fire(ran: seq<nat>, s: Slot): seq<nat> {
    if s.onFree.Some? then ran + [s.onFree.value] else ran
  }

  function Freed(p: Pool, i: nat): Pool
    requires i < |p.slots|
  {
    p.(slots := p.slots[i := EMPTY], free := [i] + p.free, ran := Fire(p.ran, p.slots[i]))
  }

  /** The finalizers still installed, in slot order. */
  function Pending(slots: seq<Slot>): seq<nat> {
    if slots == [] then [] else Fire(Pending(slots[..|slots| - 1]), slots[|slots| - 1])
  }

  function Closed(p: Pool): Pool {
    if !p.running then p else
      p.(slots := Empties(|p.slots|), running := false, ran := p.ran + Pending(p.slots))
  }

  function Deref(p: Pool, i: nat): Option<Obj> {
    if i < |p.slots| then p.slots[i].target else None
  }

  // ---------- what every operation keeps ----------

  /** The chain is duplicate-free and its slots are empty. */
  ghost predicate FreeList(p: Pool) {
    && NoDup(p.free)
    && forall k :: 0 <= k < |p.free| ==> p.free[k] < |p.slots| && p.slots[p.free[k]] == EMPTY
  }

  /** The finalizers run plus those still installed are the ones ever
      installed, each once. */
  ghost predicate Balanced(p: Pool) {
    multiset(p.ran) + multiset(Pending(p.slots)) == multiset(Range(0, p.installs))
  }

  ghost predicate Inv(p: Pool) {
    FreeList(p) && Balanced(p)
  }

  /** The allocated slots: the complement of the free chain. */
  function InUse(p: Pool): set<nat> {
    set i | 0 <= i < |p.slots| && i !in p.free
  }

  lemma {:induction false} PendingAppend(a: seq<Slot>, b: seq<Slot>)
    ensures Pending(a + b) == Pending(a) + Pending(b)
  {
    if b == [] {
      assert a + b == a;
    } else {
      PendingAppend(a, b[..|b| - 1]);
      assert (a + b)[..|a + b| - 1] == a + b[..|b| - 1];
    }
  }

  lemma {:induction false} PendingEmpty(n: nat)
    ensures Pending(Empties(n)) == []
  {
    if n > 0 {
      PendingEmpty(n - 1);
      assert Empties(n)[..n - 1] == Empties(n - 1);
    }
  }

  lemma PendingOne(s: Slot)
    ensures Pending([s]) == Fire([], s)
  {
    assert [s][..0] == [];
  }

  lemma PendingSplit(slots: seq<Slot>, i: nat)
    requires i < |slots|
    ensures Pending(slots) == Pending(slots[..i]) + (Fire([], slots[i]) + Pending(slots[i + 1..]))
  {
    hide Pending, Fire;
    SplitAt(slots, i);
    PendingOne(slots[i]);
    PendingAppend([slots[i]], slots[i + 1..]);
    PendingAppend(slots[..i], [slots[i]] + slots[i + 1..]);
  }

  lemma PendingUpdate(slots: seq<Slot>, i: nat, s: Slot)
    requires i < |slots|
    ensures multiset(Pending(slots[i := s])) + multiset(Fire([], slots[i]))
         == multiset(Pending(slots)) + multiset(Fire([], s))
  {
    hide Pending, Fire;
    PendingSplit(slots, i);
    PendingSplit(slots[i := s], i);
    assert slots[i := s][..i] == slots[..i] && slots[i := s][i + 1..] == slots[i + 1..];
  }

  lemma ExpandedKeeps(p: Pool)
    requires Inv(p)
    ensures Inv(Expanded(p)) && InUse(Expanded(p)) == InUse(p)
  {
    var q := Expanded(p);
    var more := Empties(EXPAND_COUNT);
    PendingAppend(p.slots, more);
    PendingEmpty(EXPAND_COUNT);
    assert Pending(q.slots) == Pending(p.slots);
    var fresh_ := Range(|p.slots|, EXPAND_COUNT);
    forall i | |p.slots| <= i < |q.slots| ensures i in q.free {
      assert q.free[i - |p.slots|] == i;
    }
    forall i | i in p.free ensures i in q.free {
      var k :| 0 <= k < |p.free| && p.free[k] == i;
      assert q.free[EXPAND_COUNT + k] == i;
    }
    assert forall i :: i in q.free ==> i in fresh_ || i in p.free;
    assert forall i :: i in fresh_ ==> i >= |p.slots|;
  }

  /** An allocation, with or without growth, hands out a slot that was not in
      use and adds exactly that slot to those in use. */
  lemma AllocatedKeeps(p: Pool)
    requires Inv(p)
    ensures Inv(Allocated(p))
    ensures NextIndex(p) !in InUse(p) && NextIndex(p) < |Allocated(p).slots|
    ensures InUse(Allocated(p)) == InUse(p) + {NextIndex(p)}
    ensures p.slots <= Allocated(p).slots && Allocated(p).slots[NextIndex(p)] == EMPTY
  {
    if p.free == [] { ExpandedKeeps(p); }
    var q := WithRoom(p);
    assert q.free == [q.free[0]] + q.free[1..];
    assert q.free[0] !in q.free[1..];
  }

  lemma AllocatedForKeeps(p: Pool, obj: Obj)
    requires Inv(p)
    ensures NextIndex(p) < |WithRoom(p).slots| && |p.slots| <= |WithRoom(p).slots|
    ensures Inv(AllocatedFor(p, obj))
    ensures InUse(AllocatedFor(p, obj)) == InUse(p) + {NextIndex(p)}
    ensures Deref(AllocatedFor(p, obj), NextIndex(p)) == Some(obj)
    ensures forall i :: 0 <= i < |p.slots| && i != NextIndex(p) ==> AllocatedFor(p, obj).slots[i] == p.slots[i]
  {
    hide Balanced, Pending;
    AllocatedKeeps(p);
    InstallBalanced(Allocated(p), NextIndex(p), obj);
    assert NextIndex(p) !in Allocated(p).free;
  }

  lemma Rebalance(
    ran: multiset<nat>, was: multiset<nat>, now: multiset<nat>, fired: multiset<nat>, added: multiset<nat>)
    requires now + fired == was + added
    ensures ran + fired + now == ran + was + added
    ensures fired == added == multiset{} ==> now == was
  {
    forall o ensures fired == added == multiset{} ==> now[o] == was[o] {
      assert (now + fired)[o] == (was + added)[o];
    }
    forall o ensures (ran + fired + now)[o] == (ran + was + added)[o] {
      assert (now + fired)[o] == (was + added)[o];
    }
  }

  lemma InstallBalanced(p: Pool, i: nat, obj: Obj)
    requires Balanced(p) && i < |p.slots| && p.slots[i] == EMPTY
    ensures Balanced(Install(p, i, obj))
  {
    hide Pending, Range;
    var q := Install(p, i, obj);
    PendingUpdate(p.slots, i, q.slots[i]);
    assert q.slots == p.slots[i := q.slots[i]];
    assert Fire([], p.slots[i]) == [];
    Rebalance(multiset(p.ran), multiset(Pending(p.slots)), multiset(Pending(q.slots)),
              multiset{}, multiset(Fire([], q.slots[i])));
    if obj.closeable {
      RangeSnoc(p.installs);
      assert Fire([], q.slots[i]) == [p.installs];
    } else {
      assert Fire([], q.slots[i]) == [];
    }
  }

  lemma FreedBalanced(p: Pool, i: nat)
    requires Balanced(p) && i < |p.slots|
    ensures Balanced(Freed(p, i))
  {
    hide Pending, Range;
    PendingUpdate(p.slots, i, EMPTY);
    var s, q := p.slots[i], Freed(p, i);
    assert Fire([], EMPTY) == [];
    assert Fire(p.ran, s) == p.ran + Fire([], s);
    assert multiset(q.ran) == multiset(p.ran) + multiset(Fire([], s));
    Rebalance(multiset(p.ran), multiset(Pending(p.slots)), multiset(Pending(q.slots)),
              multiset(Fire([], s)), multiset{});
  }

  lemma FreedKeeps(p: Pool, i: nat)
    requires Inv(p) && i in InUse(p)
    ensures Inv(Freed(p, i)) && InUse(Freed(p, i)) == InUse(p) - {i}
    ensures forall j :: 0 <= j < |p.slots| && j != i ==> Freed(p, i).slots[j] == p.slots[j]
  {
    hide Balanced;
    FreedBalanced(p, i);
    var q := Freed(p, i);
    assert forall k :: 1 <= k < |q.free| ==> q.free[k] == p.free[k - 1];
  }

  lemma ClosedKeeps(p: Pool)
    requires Inv(p)
    ensures Inv(Closed(p)) && InUse(Closed(p)) == InUse(p)
  {
    PendingEmpty(|p.slots|);
  }

  // ---------- runs ----------

  datatype Op = AllocFor(obj: Obj) | Free(i: nat) | Close

  /** The caller's one obligation: free only what is in use. */
  ghost predicate Legal(p: Pool, op: Op) {
    op.Free? ==> op.i in InUse(p)
  }

  ghost function Step(p: Pool, op: Op): Pool
    requires Inv(p) && Legal(p, op)
  {
    match op
    case AllocFor(obj) => AllocatedForKeeps(p, obj); AllocatedFor(p, obj)
    case Free(i) => Freed(p, i)
    case Close => Closed(p)
  }

  lemma StepKeeps(p: Pool, op: Op)
    requires Inv(p) && Legal(p, op)
    ensures Inv(Step(p, op))
  {
    match op
    case AllocFor(obj) => AllocatedForKeeps(p, obj);
    case Free(i) => FreedKeeps(p, i);
    case Close => ClosedKeeps(p);
  }

  ghost predicate LegalRun(p: Pool, ops: seq<Op>)
    requires Inv(p)
    decreases |ops|
  {
    ops == [] || (Legal(p, ops[0]) && (StepKeeps(p, ops[0]); LegalRun(Step(p, ops[0]), ops[1..])))
  }

  ghost function Run(p: Pool, ops: seq<Op>): (q: Pool)
    requires Inv(p) && LegalRun(p, ops)
    ensures Inv(q)
    decreases |ops|
  {
    if ops == [] then p else
      StepKeeps(p, ops[0]);
      Run(Step(p, ops[0]), ops[1..])
  }

  const START := Pool([], [], true, 0, [])

  lemma StartInv()
    ensures Inv(START)
  {
  }

  /** A run is its parts one after the other. */
  lemma {:induction false} RunAppend(p: Pool, a: seq<Op>, b: seq<Op>)
    requires Inv(p) && LegalRun(p, a) && LegalRun(Run(p, a), b)
    ensures LegalRun(p, a + b) && Run(p, a + b) == Run(Run(p, a), b)
    decreases |a|
  {
    hide Inv, Legal, Step;
    if a == [] {
      assert a + b == b;
    } else {
      StepKeeps(p, a[0]);
      RunAppend(Step(p, a[0]), a[1..], b);
      assert (a + b)[1..] == a[1..] + b;
    }
  }

  lemma {:induction false} RunSplit(p: Pool, a: seq<Op>, b: seq<Op>)
    requires Inv(p) && LegalRun(p, a + b)
    ensures LegalRun(p, a) && LegalRun(Run(p, a), b)
    decreases |a|
  {
    hide Inv, Legal, Step;
    if a == [] {
      assert a + b == b;
    } else {
      assert (a + b)[1..] == a[1..] + b;
      StepKeeps(p, a[0]);
      RunSplit(Step(p, a[0]), a[1..], b);
    }
  }

  lemma RunOne(p: Pool, op: Op)
    requires Inv(p) && Legal(p, op)
    ensures LegalRun(p, [op]) && Run(p, [op]) == Step(p, op)
  {
    hide Inv, Legal, Step;
    StepKeeps(p, op);
    assert [op][1..] == [];
  }

  // ---------- what callers hold ----------

  /** The pool, and the indices given to callers and not yet given back. */
  datatype Held = Held(pool: Pool, handed: set<nat>)

  /** An allocation gives an index to a caller; only an index that a caller holds
      is freed. */
  predicate Moves(s: Held, op: Op, t: Held) {
    match op
    case AllocFor(obj) =>
      NextIndex(s.pool) < |WithRoom(s.pool).slots|
      && t == Held(AllocatedFor(s.pool, obj), s.handed + {NextIndex(s.pool)})
    case Free(i) => i in s.handed && i < |s.pool.slots| && t == Held(Freed(s.pool, i), s.handed - {i})
    case Close => t == Held(Closed(s.pool), s.handed)
  }

  ghost predicate IsRun(states: seq<Held>, ops: seq<Op>) {
    && |states| == |ops| + 1 && states[0] == Held(START, {})
    && forall n :: 0 <= n < |ops| ==> Moves(states[n], ops[n], states[n + 1])
  }

  lemma MovesKeep(s: Held, op: Op, t: Held)
    requires Inv(s.pool) && InUse(s.pool) == s.handed && Moves(s, op, t)
    ensures Legal(s.pool, op) && t.pool == Step(s.pool, op) && Inv(t.pool) && InUse(t.pool) == t.handed
  {
    hide Inv, InUse, Freed, Closed, AllocatedFor, NextIndex, WithRoom;
    match op
    case AllocFor(obj) => AllocatedForKeeps(s.pool, obj);
    case Free(i) => FreedKeeps(s.pool, i);
    case Close => ClosedKeeps(s.pool);
  }

  /** In every run the slots off the free chain are exactly those whose indices
      callers hold, and the pool keeps its invariant. */
  lemma {:induction false} RunHeld(states: seq<Held>, ops: seq<Op>, n: nat)
    requires IsRun(states, ops) && n < |states|
    ensures Inv(states[n].pool) && InUse(states[n].pool) == states[n].handed
    ensures Inv(START) && LegalRun(START, ops[..n]) && Run(START, ops[..n]) == states[n].pool
  {
    hide Inv, Moves, Legal, Step;
    StartInv();
    if n == 0 {
      StartFree();
    } else {
      RunHeld(states, ops, n - 1);
      MovesKeep(states[n - 1], ops[n - 1], states[n]);
      RunOne(states[n - 1].pool, ops[n - 1]);
      RunAppend(START, ops[..n - 1], [ops[n - 1]]);
      assert ops[..n] == ops[..n - 1] + [ops[n - 1]];
    }
  }

  lemma StartFree()
    ensures InUse(START) == {}
  {
  }

  /** In every run an allocation gives an index no caller holds, and the index
      names the object. */
  lemma RunHandsOut(states: seq<Held>, ops: seq<Op>, n: nat)
    requires IsRun(states, ops) && n < |ops| && ops[n].AllocFor?
    ensures exists i :: i !in states[n].handed && states[n + 1].handed == states[n].handed + {i}
                        && Deref(states[n + 1].pool, i) == Some(ops[n].obj)
  {
    hide Inv, InUse, Run, LegalRun, Deref, AllocatedFor, NextIndex, WithRoom;
    RunHeld(states, ops, n);
    AllocatedForKeeps(states[n].pool, ops[n].obj);
    var i := NextIndex(states[n].pool);
    assert i !in states[n].handed by { AllocatedKeeps(states[n].pool); }
  }

  /** Once the pool is closed, every finalizer installed while it was running
      has run exactly once, whether by a free or by the close. */
  lemma FinalizersRunOnce(ops: seq<Op>, k: nat)
    requires Inv(START) && LegalRun(START, ops)
    requires Run(START, ops).running && k < Run(START, ops).installs
    ensures multiset(Closed(Run(START, ops)).ran)[k] == 1
  {
    EachFired(Run(START, ops), k);
  }

  lemma EachFired(p: Pool, k: nat)
    requires Inv(p) && p.running && k < p.installs
    ensures multiset(Closed(p).ran)[k] == 1
  {
    assert multiset(Closed(p).ran) == multiset(Range(0, p.installs));
    RangeOnce(p.installs, k);
  }

  /** At any time no finalizer has run twice, and one still installed has not
      run at all. */
  lemma NeverTwice(p: Pool, k: nat)
    requires Inv(p)
    ensures multiset(p.ran)[k] <= 1
    ensures multiset(p.ran)[k] == 1 ==> k < p.installs && k !in Pending(p.slots)
  {
    RangeOnce(p.installs, k);
    assert (multiset(p.ran) + multiset(Pending(p.slots)))[k] == multiset(Range(0, p.installs))[k];
    if k in Pending(p.slots) {
      assert k in multiset(Pending(p.slots));
    }
  }

  predicate Spares(ops: seq<Op>, i: nat) {
    forall k :: 0 <= k < |ops| ==> ops[k] != Free(i) && ops[k] != Close
  }

  /** A handle in use keeps naming the same object through any run of other
      allocations, frees and pool growth. */
  lemma {:induction false} HandleStable(p: Pool, ops: seq<Op>, i: nat)
    requires Inv(p) && LegalRun(p, ops) && i in InUse(p) && Spares(ops, i)
    ensures Deref(Run(p, ops), i) == Deref(p, i) && i in InUse(Run(p, ops))
    decreases |ops|
  {
    hide Balanced, Range, Empties;
    if ops != [] {
      var op := ops[0];
      match op {
        case AllocFor(obj) => AllocatedForKeeps(p, obj); AllocatedKeeps(p);
        case Free(j) => FreedKeeps(p, j);
        case Close =>
      }
      StepKeeps(p, op);
      HandleStable(Step(p, op), ops[1..], i);
    }
  }

  // ---------- finalizers and their objects ----------

  /** An allocation for an object that has a `close` installs one finalizer, a new
      one, in its slot; for any other object it installs none.  Nothing runs.
      An exhausted pool grows by 256 slots, and the first of them is taken. */
  lemma AllocatedForInstalls(p: Pool, obj: Obj)
    requires Inv(p)
    ensures NextIndex(p) < |WithRoom(p).slots|
    ensures var q, i := AllocatedFor(p, obj), NextIndex(p);
            && q.ran == p.ran && i < |q.slots|
            && |q.slots| == |p.slots| + (if p.free == [] then 256 else 0)
            && i == (if p.free == [] then |p.slots| else p.free[0])
            && if obj.closeable
               then q.installs == p.installs + 1 && q.slots[i].onFree == Some(p.installs) && p.installs !in q.ran
               else q.installs == p.installs && q.slots[i].onFree == None
  {
    AllocatedKeeps(p);
    InstalledBefore(p);
    hide Balanced;
  }

  /** Only finalizers that were installed have run or are still in a slot. */
  lemma InstalledBefore(p: Pool)
    requires Inv(p)
    ensures p.installs !in p.ran
  {
    assert p.installs !in multiset(Range(0, p.installs));
    assert p.installs !in multiset(p.ran) + multiset(Pending(p.slots));
  }

  /** A slot freed names nothing and is the next to be taken. */
  lemma FreedNext(p: Pool, i: nat)
    requires i < |p.slots|
    ensures Deref(Freed(p, i), i) == None && NextIndex(Freed(p, i)) == i && |Freed(p, i).slots| == |p.slots|
  {
  }

  /** After the close no index names an object, and the finalizers have run in
      the order of their slots. */
  lemma ClosedForgets(p: Pool, i: nat)
    requires p.running
    ensures Deref(Closed(p), i) == None && !Closed(p).running && |Closed(p).slots| == |p.slots|
    ensures i < |p.slots| && p.slots[i].onFree.Some? ==>
              var before := |p.ran| + |Pending(p.slots[..i])|;
              before < |Closed(p).ran| && Closed(p).ran[before] == p.slots[i].onFree.value
  {
    if i < |p.slots| {
      PendingSplit(p.slots, i);
    }
  }

  /** In every run: the index given out for an object at step `m` is freed, or
      the pool closed, at step `n`, and neither was done since.  Exactly if the
      object has a `close`, a finalizer was installed with it, had not run until
      then, and has now; a free runs no other.  Only the close of a pool already
      closed when the object was put does nothing. */
  lemma ObjectFinalized(states: seq<Held>, ops: seq<Op>, m: nat, n: nat, i: nat)
    requires IsRun(states, ops) && m < n < |ops| && ops[m].AllocFor?
    requires i !in states[m].handed && i in states[m + 1].handed
    requires Spares(ops[m + 1..n], i) && (ops[n] == Free(i) || ops[n] == Close)
    ensures var f, was, now := states[m].pool.installs, states[n].pool, states[n + 1].pool;
            && states[m + 1].pool.installs == f + (if ops[m].obj.closeable then 1 else 0)
            && Deref(was, i) == Some(ops[m].obj) && (ops[m].obj.closeable ==> f !in was.ran)
            && if ops[n] == Close && !states[m].pool.running then now == was else
                 && Deref(now, i) == None && (ops[m].obj.closeable ==> f in now.ran)
                 && (ops[n] == Free(i) ==> now.ran == was.ran + if ops[m].obj.closeable then [f] else [])
  {
    hide Inv, Moves, Step, AllocatedFor, NextIndex, WithRoom, InUse, Freed, Closed, Range, Pending;
    RunHeld(states, ops, m);
    RunHeld(states, ops, m + 1);
    RunHeld(states, ops, n);
    AllocMove(states[m], ops[m].obj, states[m + 1], i);
    SlotKept(states, ops, m + 1, n, i);
    if ops[m].obj.closeable {
      FinalizerOnce(states[n].pool, i);
    }
    assert Moves(states[n], ops[n], states[n + 1]);
    EndMove(states[n], ops[n], states[n + 1], i);
  }

  lemma AllocMove(s: Held, obj: Obj, t: Held, i: nat)
    requires Inv(s.pool) && InUse(s.pool) == s.handed && Moves(s, AllocFor(obj), t)
    requires i !in s.handed && i in t.handed
    ensures i < |t.pool.slots|
    ensures t.pool.slots[i] == Slot(Some(obj), if obj.closeable then Some(s.pool.installs) else None)
    ensures t.pool.installs == s.pool.installs + if obj.closeable then 1 else 0
    ensures t.pool.running == s.pool.running
  {
    hide Inv, InUse, AllocatedFor, NextIndex, WithRoom;
    AllocatedForKeeps(s.pool, obj);
    AllocatedForInstalls(s.pool, obj);
    assert i == NextIndex(s.pool);
    AllocRunning(s.pool, obj);
  }

  lemma AllocRunning(p: Pool, obj: Obj)
    requires NextIndex(p) < |WithRoom(p).slots|
    ensures AllocatedFor(p, obj).running == p.running
  {
  }

  lemma EndMove(s: Held, op: Op, t: Held, i: nat)
    requires Moves(s, op, t) && (op == Free(i) || op == Close) && i < |s.pool.slots|
    ensures op == Close && !s.pool.running ==> t.pool == s.pool
    ensures op != Close || s.pool.running ==> Deref(t.pool, i) == None
    ensures (op != Close || s.pool.running) && s.pool.slots[i].onFree.Some? ==>
              s.pool.slots[i].onFree.value in t.pool.ran
    ensures op == Free(i) ==>
              t.pool.ran == s.pool.ran + match s.pool.slots[i].onFree case Some(f) => [f] case None => []
  {
    if op == Close && s.pool.running {
      ClosedForgets(s.pool, i);
    }
  }

  lemma FinalizerOnce(p: Pool, i: nat)
    requires Inv(p) && i < |p.slots| && p.slots[i].onFree.Some?
    ensures p.slots[i].onFree.value !in p.ran
  {
    hide Range;
    var f := p.slots[i].onFree.value;
    PendingSplit(p.slots, i);
    assert f in Pending(p.slots);
    NeverTwice(p, f);
    assert f !in multiset(p.ran);
  }

  /** A slot in use is left as it is by whatever spares its index. */
  lemma {:induction false} SlotKept(states: seq<Held>, ops: seq<Op>, m: nat, n: nat, i: nat)
    requires IsRun(states, ops) && m <= n < |states| && i in states[m].handed && Spares(ops[m..n], i)
    ensures i in states[n].handed && i < |states[n].pool.slots| && i < |states[m].pool.slots|
    ensures states[n].pool.slots[i] == states[m].pool.slots[i] && states[n].pool.running == states[m].pool.running
  {
    hide Inv, Moves, Step, InUse, Range, Pending;
    RunHeld(states, ops, n);
    if m == n {
      assert i in InUse(states[n].pool) && i < |states[n].pool.slots| by { InUseHas(states[n].pool, i); }
    } else {
      assert ops[m..n][..n - 1 - m] == ops[m..n - 1] && ops[m..n][n - 1 - m] == ops[n - 1];
      SlotKept(states, ops, m, n - 1, i);
      RunHeld(states, ops, n - 1);
      SlotSpared(states[n - 1], ops[n - 1], states[n], i);
    }
  }

  lemma InUseHas(p: Pool, i: nat)
    requires i in InUse(p)
    ensures i < |p.slots|
  {
  }

  lemma SlotSpared(s: Held, op: Op, t: Held, i: nat)
    requires Inv(s.pool) && InUse(s.pool) == s.handed && Moves(s, op, t) && i in s.handed
    requires op != Free(i) && op != Close
    ensures i in t.handed && i < |t.pool.slots| && i < |s.pool.slots|
    ensures t.pool.slots[i] == s.pool.slots[i] && t.pool.running == s.pool.running
  {
    hide Balanced;
    match op
    case AllocFor(obj) => AllocatedForKeeps(s.pool, obj); AllocatedKeeps(s.pool);
    case Free(j) => FreedKeeps(s.pool, j);
  }

  // ---------- the linked pool ----------

  class PxpRef {
    const index: nat
    var target: Option<Obj>
    var onFree: Option<nat>
    var nextFree: PxpRef?

    constructor (index: nat)
      ensures this.index == index && target == None && onFree == None && nextFree == null
    {
      this.index := index;
      target, onFree, nextFree := None, None, null;
    }
  }

  ghost function SlotsOf(refs: seq<PxpRef>): (s: seq<Slot>)
    reads refs`target, refs`onFree
    ensures |s| == |refs|
  {
    if refs == [] then [] else
      var last := refs[|refs| - 1];
      SlotsOf(refs[..|refs| - 1]) + [Slot(last.target, last.onFree)]
  }

  lemma {:induction false} SlotAt(refs: seq<PxpRef>, i: nat)
    requires i < |refs|
    ensures SlotsOf(refs)[i] == Slot(refs[i].target, refs[i].onFree)
  {
    if i < |refs| - 1 {
      SlotAt(refs[..|refs| - 1], i);
    }
  }

  lemma SlotsAre(refs: seq<PxpRef>, s: seq<Slot>)
    requires |s| == |refs| && forall i :: 0 <= i < |refs| ==> s[i] == Slot(refs[i].target, refs[i].onFree)
    ensures SlotsOf(refs) == s
  {
    hide SlotsOf;
    forall i | 0 <= i < |s| ensures SlotsOf(refs)[i] == s[i] {
      SlotAt(refs, i);
    }
  }

  lemma SlotsKnown(refs: seq<PxpRef>)
    ensures forall i :: 0 <= i < |refs| ==> SlotsOf(refs)[i] == Slot(refs[i].target, refs[i].onFree)
  {
    forall i | 0 <= i < |refs| ensures SlotsOf(refs)[i] == Slot(refs[i].target, refs[i].onFree) {
      SlotAt(refs, i);
    }
  }

  function Indices(chain: seq<PxpRef>): (s: seq<nat>)
    ensures |s| == |chain| && forall k :: 0 <= k < |s| ==> s[k] == chain[k].index
  {
    seq(|chain|, k requires 0 <= k < |chain| => chain[k].index)
  }

  lemma IndicesAppend(more: seq<PxpRef>, chain: seq<PxpRef>, start: nat)
    requires forall k :: 0 <= k < |more| ==> more[k].index == start + k
    ensures Indices(more + chain) == Range(start, |more|) + Indices(chain)
  {
  }

  lemma IndicesFront(r: PxpRef, chain: seq<PxpRef>)
    ensures Indices([r] + chain) == [r.index] + Indices(chain)
  {
  }

  /** Every slot of the chain links to the one after it, the last to null. */
  ghost predicate Linked(chain: seq<PxpRef>)
    reads chain`nextFree
  {
    forall k :: 0 <= k < |chain| ==> chain[k].nextFree == At(chain, k + 1)
  }

  function At(chain: seq<PxpRef>, k: nat): PxpRef? {
    if k < |chain| then chain[k] else null
  }

  lemma LinkedTail(chain: seq<PxpRef>)
    requires Linked(chain) && chain != []
    ensures Linked(chain[1..]) && chain[0].nextFree == At(chain, 1)
  {
    var tail := chain[1..];
    forall k | 0 <= k < |tail| ensures tail[k].nextFree == At(tail, k + 1) {
      assert tail[k] == chain[k + 1];
    }
  }

  lemma LinkedAppend(more: seq<PxpRef>, chain: seq<PxpRef>)
    requires Linked(chain) && more != []
    requires forall k :: 0 <= k < |more| - 1 ==> more[k].nextFree == more[k + 1]
    requires more[|more| - 1].nextFree == At(chain, 0)
    ensures Linked(more + chain)
  {
    var all := more + chain;
    forall k | 0 <= k < |all| ensures all[k].nextFree == At(all, k + 1) {
      if k >= |more| {
        assert all[k] == chain[k - |more|];
      }
    }
  }

  lemma LinkedFront(r: PxpRef, chain: seq<PxpRef>)
    requires forall k :: 0 <= k < |chain| ==> chain[k].nextFree == At(chain, k + 1)
    requires r.nextFree == At(chain, 0)
    ensures Linked([r] + chain)
  {
    forall k | 0 <= k < |chain| + 1 ensures ([r] + chain)[k].nextFree == At([r] + chain, k + 1) {
      if k > 0 {
        assert ([r] + chain)[k] == chain[k - 1];
      }
    }
  }

  predicate Numbered(refs: seq<PxpRef>) {
    forall i :: 0 <= i < |refs| ==> refs[i].index == i
  }

  class Server {
    var refPool: seq<PxpRef>
    var freeRefEntry: PxpRef?
    var running: bool
    var finalized: seq<nat>
    var installs: nat
    ghost var chain: seq<PxpRef>
    ghost var stuck: set<PxpRef>

    /** The slots are numbered by position and following `nextFree` from
        `freeRefEntry` visits exactly the slots of `chain`. */
    ghost predicate Valid()
      reads this, refPool, chain`nextFree
    {
      && Numbered(refPool)
      && freeRefEntry == At(chain, 0)
      && Linked(chain)
      && forall k :: 0 <= k < |chain| ==> chain[k].index < |refPool| && chain[k] == refPool[chain[k].index]
    }

    ghost function State(): Pool
      reads this, refPool`target, refPool`onFree
    {
      Pool(SlotsOf(refPool), Indices(chain), running, installs, finalized)
    }

    constructor ()
      ensures Valid() && State() == START.(running := false) && refPool == []
    {
      refPool, freeRefEntry, running, finalized, installs := [], null, false, [], 0;
      chain, stuck := [], {};
    }

    /** The first loop: new slots, numbered on from the last one. */
    method PushSlots(count: nat)
      requires Numbered(refPool)
      modifies this`refPool
      ensures Numbered(refPool) && SlotsOf(refPool) == old(SlotsOf(refPool)) + Empties(count)
      ensures |refPool| == |old(refPool)| + count && old(refPool) <= refPool
      ensures forall k :: |old(refPool)| <= k < |refPool| ==> fresh(refPool[k])
    {
      hide SlotsOf;
      var start := |refPool|;
      var i := start;
      while i < start + count
        invariant start <= i <= start + count && |refPool| == i && old(refPool) <= refPool && Numbered(refPool)
        invariant forall k :: start <= k < i ==>
                    fresh(refPool[k]) && refPool[k].target == None && refPool[k].onFree == None
      {
        var r := new PxpRef(i);
        refPool := refPool + [r];
        i := i + 1;
      }
      forall k | 0 <= k < start
        ensures (old(SlotsOf(refPool)) + Empties(count))[k] == Slot(refPool[k].target, refPool[k].onFree)
      {
        SlotAt(old(refPool), k);
        assert old(refPool)[k] == refPool[k];
      }
      SlotsAre(refPool, old(SlotsOf(refPool)) + Empties(count));
    }

    /** The second loop: each new slot is linked to its successor. */
    method LinkSlots(start: nat, end: nat)
      requires Numbered(refPool) && start <= end < |refPool|
      modifies refPool[start..]`nextFree
      ensures forall k :: start <= k < end ==> refPool[k].nextFree == refPool[k + 1]
    {
      var i := start;
      while i < end
        invariant start <= i <= end
        invariant forall k :: start <= k < i ==> refPool[k].nextFree == refPool[k + 1]
      {
        assert refPool[i] == refPool[start..][i - start];
        refPool[i].nextFree := refPool[i + 1];
        i := i + 1;
      }
    }

    method Grow()
      requires Valid()
      modifies this`refPool
      ensures Valid() && SlotsOf(refPool) == old(SlotsOf(refPool)) + Empties(EXPAND_COUNT)
      ensures |refPool| == |old(refPool)| + EXPAND_COUNT && old(refPool) <= refPool
      ensures forall k :: |old(refPool)| <= k < |refPool| ==> fresh(refPool[k])
      ensures forall k :: |old(refPool)| <= k < |refPool| - 1 ==> refPool[k].nextFree == refPool[k + 1]
    {
      hide SlotsOf, Empties, Linked;
      var start := |refPool|;
      PushSlots(EXPAND_COUNT);
      assert forall k :: 0 <= k < |chain| ==> chain[k] == old(refPool)[chain[k].index] == refPool[chain[k].index];
      assert forall n :: n in refPool[start..] ==> n.index >= start;
      assert forall n :: n in chain ==> n !in refPool[start..];
      LinkSlots(start, start + EXPAND_COUNT - 1);
    }

    ghost method Prepend(start: nat)
      requires Numbered(refPool) && start < |refPool| && freeRefEntry == refPool[start] && Linked(chain)
      requires forall k :: 0 <= k < |chain| ==> chain[k].index < |refPool| && chain[k] == refPool[chain[k].index]
      requires forall k :: start <= k < |refPool| - 1 ==> refPool[k].nextFree == refPool[k + 1]
      requires refPool[|refPool| - 1].nextFree == At(chain, 0)
      modifies this`chain
      ensures Valid() && chain == refPool[start..] + old(chain)
    {
      hide Linked;
      var more := refPool[start..];
      assert forall k :: 0 <= k < |more| ==> more[k] == refPool[start + k];
      LinkedAppend(more, chain);
      chain := more + chain;
    }

    /** The new slots, linked in order, are put before the old chain. */
    method Splice(start: nat, end: nat)
      requires Valid() && start <= end && end + 1 == |refPool|
      requires forall k :: 0 <= k < |chain| ==> chain[k].index < start
      requires forall k :: start <= k < end ==> refPool[k].nextFree == refPool[k + 1]
      modifies this`freeRefEntry, this`chain, refPool[end] as PxpRef`nextFree
      ensures Valid() && chain == refPool[start..] + old(chain)
    {
      hide Linked;
      assert forall n :: n in chain ==> n.index < start && n != refPool[end];
      refPool[end].nextFree := freeRefEntry;
      freeRefEntry := refPool[start];
      Prepend(start);
    }

    method ExpandRefPools()
      requires Valid()
      modifies this
      ensures Valid() && State() == Expanded(old(State()))
      ensures old(refPool) <= refPool && forall k :: |old(refPool)| <= k < |refPool| ==> fresh(refPool[k])
    {
      hide SlotsOf, Empties, Linked;
      var start := |refPool|;
      var end := start + EXPAND_COUNT - 1;
      Grow();
      Splice(start, end);
      IndicesAppend(refPool[start..], old(chain), start);
    }

    method AllocRef() returns (r: PxpRef)
      requires Valid()
      modifies this
      ensures Valid() && State() == Allocated(old(State()))
      ensures old(refPool) <= refPool && r.index < |refPool| && r == refPool[r.index]
      ensures r.index == NextIndex(old(State()))
      ensures forall k :: |old(refPool)| <= k < |refPool| ==> fresh(refPool[k])
    {
      hide SlotsOf, Empties, Range;
      if freeRefEntry == null {
        ExpandRefPools();
      }
      assert Indices(chain[1..]) == Indices(chain)[1..];
      LinkedTail(chain);
      r := freeRefEntry;
      freeRefEntry := freeRefEntry.nextFree;
      chain := chain[1..];
    }

    method Fill(r: PxpRef, obj: Obj)
      requires Numbered(refPool) && r.index < |refPool| && refPool[r.index] == r
      modifies this`installs, r`target, r`onFree
      ensures var p := Pool(old(SlotsOf(refPool)), Indices(chain), running, old(installs), finalized);
              State() == Install(p, r.index, obj)
    {
      hide SlotsOf, Indices;
      ghost var was := SlotsOf(refPool);
      SlotsKnown(refPool);
      r.target := Some(obj);
      if obj.closeable {
        r.onFree := Some(installs);
        installs := installs + 1;
      }
      SlotsAre(refPool, was[r.index := Slot(r.target, r.onFree)]);
    }

    /** `allocRefFor`: an object with a `close` gets it as its finalizer. */
    method AllocRefFor(obj: Obj) returns (r: PxpRef)
      requires Valid()
      modifies this, refPool
      ensures Valid() && r in refPool && r.index == NextIndex(old(State())) < |WithRoom(old(State())).slots|
      ensures State() == AllocatedFor(old(State()), obj)
      ensures old(refPool) <= refPool && forall k :: |old(refPool)| <= k < |refPool| ==> fresh(refPool[k])
    {
      hide SlotsOf, Indices, WithRoom, NextIndex, Linked;
      r := AllocRef();
      Fill(r, obj);
    }

    /** What `freeRef` does to the slot and the entry, whatever the chain. */
    method FreeSlot(r: PxpRef)
      requires Numbered(refPool) && r.index < |refPool| && refPool[r.index] == r
      modifies this`finalized, this`freeRefEntry, r
      ensures freeRefEntry == r && r.nextFree == old(freeRefEntry)
      ensures SlotsOf(refPool) == old(SlotsOf(refPool))[r.index := EMPTY]
      ensures finalized == Fire(old(finalized), old(SlotsOf(refPool))[r.index])
    {
      hide SlotsOf;
      ghost var was := SlotsOf(refPool);
      SlotsKnown(refPool);
      if r.onFree.Some? {
        finalized := finalized + [r.onFree.value];
        r.onFree := None;
      }
      r.target := None;
      r.nextFree := freeRefEntry;
      freeRefEntry := r;
      SlotsAre(refPool, was[r.index := EMPTY]);
    }

    /** The slot just freed leads to the chain. */
    ghost method Extend(r: PxpRef)
      requires Numbered(refPool) && r.index < |refPool| && refPool[r.index] == r
      requires freeRefEntry == r && r.nextFree == At(chain, 0)
      requires forall k :: 0 <= k < |chain| ==> chain[k].nextFree == At(chain, k + 1)
      requires forall k :: 0 <= k < |chain| ==> chain[k].index < |refPool| && chain[k] == refPool[chain[k].index]
      modifies this`chain
      ensures Valid() && chain == [r] + old(chain)
    {
      hide Linked, Numbered;
      LinkedFront(r, chain);
      chain := [r] + chain;
    }

    /** The slot just freed was on the chain: the chain up to it now leads round
        in a circle. */
    ghost method Tie(r: PxpRef)
      requires r in chain && freeRefEntry == r && r.nextFree == chain[0]
      requires forall j :: 0 <= j < |chain| && chain[j] != r ==> chain[j].nextFree == At(chain, j + 1)
      modifies this`stuck
      ensures Endless()
    {
      var k :| 0 <= k < |chain| && chain[k] == r;
      stuck := set j | 0 <= j <= k :: chain[j];
      forall n | n in stuck ensures n.nextFree != null && n.nextFree in stuck {
        var j :| 0 <= j <= k && n == chain[j];
        assert n == r || n.nextFree == chain[j + 1];
      }
    }

    /** The links before a free, spelt out. */
    lemma Links()
      requires Valid()
      ensures Numbered(refPool) && freeRefEntry == At(chain, 0)
      ensures forall k :: 0 <= k < |chain| ==> chain[k].nextFree == At(chain, k + 1)
      ensures forall k :: 0 <= k < |chain| ==> chain[k].index < |refPool| && chain[k] == refPool[chain[k].index]
    {
    }

    /** The links after a free of `r`: those of the chain, but for `r`, if there
        was one, else those of the slots that lead on forever. */
    ghost predicate Relinked(r: PxpRef, sound: bool)
      reads this, refPool, chain`nextFree, stuck`nextFree, r`nextFree
    {
      && Numbered(refPool) && r.index < |refPool| && refPool[r.index] == r && freeRefEntry == r
      && if sound then
           && r.nextFree == At(chain, 0)
           && forall k :: 0 <= k < |chain| ==>
                && (chain[k] == r || chain[k].nextFree == At(chain, k + 1))
                && chain[k].index < |refPool| && chain[k] == refPool[chain[k].index]
         else
           && r.nextFree != null && r.nextFree in stuck
           && forall n :: n in stuck ==> n == r || (n.nextFree != null && n.nextFree in stuck)
    }

    ghost method Relink(r: PxpRef, sound: bool)
      requires Relinked(r, sound)
      modifies this`chain, this`stuck
      ensures if sound && r !in old(chain) then Valid() && chain == [r] + old(chain) else Endless()
    {
      if !sound {
        stuck := stuck + {r};
      } else if r in chain {
        Tie(r);
      } else {
        Extend(r);
      }
    }

    /** `freeRef` on any slot of the pool.  A slot in use becomes the first of
        the chain; one already free closes the links into a cycle, which no
        later free opens again. */
    method FreeRef(r: PxpRef)
      requires Valid() || (Numbered(refPool) && Endless())
      requires r.index < |refPool| && refPool[r.index] == r
      modifies this`finalized, this`freeRefEntry, this`chain, this`stuck, r
      ensures if old(Valid()) && r !in old(chain) then Valid() && chain == [r] + old(chain)
              else Numbered(refPool) && Endless()
      ensures SlotsOf(refPool) == old(SlotsOf(refPool))[r.index := EMPTY]
      ensures finalized == Fire(old(finalized), old(SlotsOf(refPool))[r.index])
    {
      hide SlotsOf, Valid, Numbered, Fire;
      ghost var sound := Valid();
      if sound { Links(); }
      FreeSlot(r);
      Relink(r, sound);
    }

    /** From the slots of `stuck`, the entry among them, the links lead on
        forever. */
    ghost predicate Endless()
      reads this, stuck`nextFree
    {
      freeRefEntry != null && freeRefEntry in stuck
      && forall n :: n in stuck ==> n.nextFree != null && n.nextFree in stuck
    }

    /** Then no chain of slots starts at the entry and ends. */
    lemma {:induction false} EndlessHasNoChain(c: seq<PxpRef>, k: nat)
      requires Endless() && Linked(c) && freeRefEntry == At(c, 0) && k < |c|
      ensures c[k] in stuck && k + 1 < |c|
    {
      if k > 0 {
        EndlessHasNoChain(c, k - 1);
      }
    }

    /** What freeing the slots listed makes of the pool that was in state `p`;
        the chain stays sound exactly if they were distinct and in use. */
    ghost predicate FreedFrom(p: Pool, indices: seq<int>)
      requires AllSlots(indices, |p.slots|)
      reads this, refPool, chain`nextFree, stuck`nextFree
    {
      var q := FreedAll(p, indices);
      && Numbered(refPool) && SlotsOf(refPool) == q.slots && finalized == q.ran
      && running == q.running && installs == q.installs
      && if Frees(p, indices) then Valid() && Indices(chain) == q.free else Endless()
    }

    lemma NoneFreedFrom(indices: seq<int>)
      requires Valid() && indices == []
      ensures |State().slots| == |refPool| && FreedFrom(State(), indices)
    {
      hide SlotsOf, FreedAll, Linked;
      NoneFreed(State(), indices);
    }

    method FreeNext(i: nat, ghost p: Pool, ghost done: seq<int>)
      requires AllSlots(done, |p.slots|) && FreedFrom(p, done) && i < |refPool| == |p.slots|
      modifies this`finalized, this`freeRefEntry, this`chain, this`stuck, refPool[i]
      ensures AllSlots(done + [i], |p.slots|) && FreedFrom(p, done + [i])
    {
      hide SlotsOf, Frees, FreedAll, Linked;
      FreedAllFree(p, done);
      FreedAllStep(p, done, i);
      FreesStep(p, done, i);
      if Endless() { EndlessUnsound(); }
      if Valid() { InChain(refPool[i]); }
      IndicesFront(refPool[i], chain);
      FreeRef(refPool[i]);
    }

    lemma EndlessUnsound()
      requires Endless()
      ensures !Valid()
    {
      if Valid() {
        EndlessHasNoChain(chain, |chain| - 1);
        assert false;
      }
    }

    lemma InChain(r: PxpRef)
      requires Valid() && r.index < |refPool| && refPool[r.index] == r
      ensures r in chain <==> r.index in Indices(chain)
    {
      if r in chain {
        var k :| 0 <= k < |chain| && chain[k] == r;
        assert Indices(chain)[k] == r.index;
      }
    }

    /** `freeRefHandler`: frees the slots listed one after another, up to the
        first number that names none, which is an exception. */
    method FreeRefHandler(indices: seq<int>) returns (ok: bool, ghost n: nat)
      requires Valid()
      modifies this`finalized, this`freeRefEntry, this`chain, this`stuck, refPool
      ensures n <= |indices| && AllSlots(indices[..n], |refPool|) && refPool == old(refPool)
      ensures ok <==> n == |indices|
      ensures n < |indices| ==> !(0 <= indices[n] < |refPool|)
      ensures FreedFrom(old(State()), indices[..n])
    {
      hide FreedFrom, State;
      ghost var p := State();
      var k := 0;
      NoneFreedFrom(indices[..0]);
      while k < |indices|
        invariant 0 <= k <= |indices| && AllSlots(indices[..k], |refPool|)
        invariant refPool == old(refPool) && FreedFrom(p, indices[..k])
      {
        if indices[k] < 0 || indices[k] >= |refPool| {
          return false, k;
        }
        FreeNext(indices[k], p, indices[..k]);
        assert indices[..k + 1] == indices[..k] + [indices[k]];
        k := k + 1;
      }
      n := k;
      ok := true;
    }

    /** The loop of `close`: every slot is cleared, its finalizer run first. */
    method ClearSlots()
      requires Numbered(refPool)
      modifies this`finalized, refPool`target, refPool`onFree
      ensures SlotsOf(refPool) == Empties(|refPool|)
      ensures finalized == old(finalized) + Pending(old(SlotsOf(refPool)))
    {
      hide SlotsOf;
      ghost var was := SlotsOf(refPool);
      SlotsKnown(refPool);
      var k := 0;
      while k < |refPool|
        invariant 0 <= k <= |refPool|
        invariant forall i :: 0 <= i < k ==> refPool[i].target == None && refPool[i].onFree == None
        invariant forall i :: k <= i < |refPool| ==> Slot(refPool[i].target, refPool[i].onFree) == was[i]
        invariant finalized == old(finalized) + Pending(was[..k])
      {
        var r := refPool[k];
        assert was[..k + 1][..k] == was[..k] && Slot(r.target, r.onFree) == was[k];
        if r.onFree.Some? {
          finalized := finalized + [r.onFree.value];
          r.onFree := None;
        }
        r.target := None;
        k := k + 1;
      }
      assert was[..k] == was;
      SlotsAre(refPool, Empties(|refPool|));
    }

    method Close()
      requires Valid()
      modifies this, refPool
      ensures Valid() && refPool == old(refPool)
      ensures State() == Closed(old(State()))
    {
      hide SlotsOf, Empties, Indices, Pending;
      if !running { return; }
      running := false;
      ClearSlots();
    }
  }

  predicate AllSlots(indices: seq<int>, size: nat) {
    forall k :: 0 <= k < |indices| ==> 0 <= indices[k] < size
  }

  /** The slots listed are distinct and in use. */
  predicate Frees(p: Pool, indices: seq<int>) {
    NoDup(indices) && forall k :: 0 <= k < |indices| ==> indices[k] in InUse(p)
  }

  function FreedAll(p: Pool, indices: seq<int>): (q: Pool)
    requires AllSlots(indices, |p.slots|)
    ensures |q.slots| == |p.slots| && q.running == p.running && q.installs == p.installs
  {
    if indices == [] then p else
      Freed(FreedAll(p, indices[..|indices| - 1]), indices[|indices| - 1])
  }

  lemma NoneFreed(p: Pool, indices: seq<int>)
    requires indices == []
    ensures FreedAll(p, indices) == p && Frees(p, indices)
  {
  }

  lemma FreedAllStep(p: Pool, init: seq<int>, last: nat)
    requires AllSlots(init, |p.slots|) && last < |p.slots|
    ensures AllSlots(init + [last], |p.slots|) && FreedAll(p, init + [last]) == Freed(FreedAll(p, init), last)
  {
    assert (init + [last])[..|init|] == init;
  }

  /** Slots are freed in the order listed: the last is taken first, and the
      finalizers run in that order. */
  lemma {:induction false} FreedInOrder(p: Pool, indices: seq<int>, k: nat)
    requires AllSlots(indices, |p.slots|) && k <= |indices|
    ensures var q := FreedAll(p, indices);
            && |q.free| == |indices| + |p.free| && q.free[|indices|..] == p.free
            && (k < |indices| ==> q.free[|indices| - 1 - k] == indices[k])
            && AllSlots(indices[..k], |p.slots|) && FreedAll(p, indices[..k]).ran <= q.ran
  {
    hide Freed;
    if indices != [] {
      var init, last := indices[..|indices| - 1], indices[|indices| - 1];
      FreedInOrder(p, init, if k < |init| then k else |init|);
      FreedFirst(FreedAll(p, init), last);
      assert k <= |init| ==> init[..k] == indices[..k];
      assert k > |init| ==> indices[..k] == indices;
    } else {
      assert indices[..k] == indices;
    }
  }

  lemma FreedFirst(p: Pool, i: nat)
    requires i < |p.slots|
    ensures Freed(p, i).free == [i] + p.free && p.ran <= Freed(p, i).ran
  {
  }

  lemma {:induction false} FreedAllFree(p: Pool, indices: seq<int>)
    requires AllSlots(indices, |p.slots|)
    ensures forall i :: i in FreedAll(p, indices).free <==> i in p.free || i in indices
  {
    if indices != [] {
      var init, last := indices[..|indices| - 1], indices[|indices| - 1];
      FreedAllFree(p, init);
      assert indices == init + [last];
    }
  }

  lemma FreesStep(p: Pool, init: seq<int>, last: int)
    requires AllSlots(init + [last], |p.slots|)
    ensures Frees(p, init + [last]) <==> Frees(p, init) && last !in p.free && last !in init
  {
    var all := init + [last];
    if Frees(p, all) {
      assert all[|init|] in InUse(p);
      forall k | 0 <= k < |init| ensures init[k] in InUse(p) { assert all[k] in InUse(p); }
      forall j, k | 0 <= j < k < |init| ensures init[j] != init[k] { assert all[j] != all[k]; }
      forall k | 0 <= k < |init| ensures init[k] != last { assert all[k] != all[|init|]; }
    }
  }

  /** Freeing a list of distinct slots in use keeps the pool sound and frees
      exactly those. */
  lemma {:induction false} FreedAllKeeps(p: Pool, indices: seq<int>)
    requires Inv(p) && AllSlots(indices, |p.slots|) && Frees(p, indices)
    ensures Inv(FreedAll(p, indices))
    ensures InUse(FreedAll(p, indices)) == InUse(p) - set i | i in indices
  {
    if indices != [] {
      var init, last := indices[..|indices| - 1], indices[|indices| - 1];
      FreedAllKeeps(p, init);
      assert indices == init + [last];
      assert last !in init;
      FreedKeeps(FreedAll(p, init), last);
    }
  }
}

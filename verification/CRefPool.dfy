/** The C server's reference pool.  Its free list holds raw pointers into a
    block that `realloc` may move, so a pointer is modelled as the generation
    of the block it was taken from and an index into it: it can be followed
    only while that generation is current.  The pool size is a 16-bit field. */
module CRefPool {
  import opened Prelude

  const EXPAND_COUNT: nat := 64
  const SIZE_LIMIT: nat := 0x1_0000

  datatype Ptr = Null | Ptr(gen: nat, index: nat)

  datatype Slot = Slot(object_: Option<nat>, onFree: Option<nat>, nextFree: Ptr) {
    predicate Clear() { object_ == None && onFree == None }
  }

  datatype Pool = Pool(gen: nat, block: seq<Slot>, size: nat, entry: Ptr, fired: seq<nat>)

  /** Following the links from `from` visits exactly the slots of `list`, each
      through a pointer into the current block, and then ends. */
  predicate Chain(p: Pool, from: Ptr, list: seq<nat>)
    decreases |list|
  {
    if list == [] then from == Null else
      && from == Ptr(p.gen, list[0]) && list[0] < |p.block|
      && Chain(p, p.block[list[0]].nextFree, list[1..])
  }

  /** The pool is sound with free list `list`. */
  predicate Holds(p: Pool, list: seq<nat>) {
    && |p.block| == p.size < SIZE_LIMIT
    && Chain(p, p.entry, list) && NoDup(list)
    && forall k :: 0 <= k < |list| ==> list[k] < p.size && p.block[list[k]].Clear()
  }

  ghost predicate Sound(p: Pool) {
    exists list :: Holds(p, list)
  }

  // ---------- the operations ----------

  /** The new slots, each linked to the next and the last to the old entry. */
  function NewSlots(gen: nat, start: nat, entry: Ptr, n: nat): (s: seq<Slot>)
    ensures |s| == n
  {
    seq(n, k requires 0 <= k < n => Slot(None, None, if k + 1 < n then Ptr(gen, start + k + 1) else entry))
  }

  function Expanded(p: Pool, moved: bool): Pool {
    var gen := if moved then p.gen + 1 else p.gen;
    Pool(gen,
         p.block + NewSlots(gen, |p.block|, p.entry, EXPAND_COUNT),
         (p.size + EXPAND_COUNT) % SIZE_LIMIT,
         Ptr(gen, |p.block|),
         p.fired)
  }

  function WithRoom(p: Pool, moved: bool): Pool {
    if p.entry == Null then Expanded(p, moved) else p
  }

  function Allocated(p: Pool, moved: bool): Pool
    requires var q := WithRoom(p, moved); q.entry.Ptr? && q.entry.index < |q.block|
  {
    var q := WithRoom(p, moved);
    q.(entry := q.block[q.entry.index].nextFree)
  }

  function Fire(fired: seq<nat>, s: Slot): seq<nat> {
    if s.onFree.Some? then fired + [s.onFree.value] else fired
  }

  function Freed(p: Pool, i: nat): Pool
    requires i < |p.block|
  {
    p.(block := p.block[i := Slot(None, None, p.entry)], entry := Ptr(p.gen, i), fired := Fire(p.fired, p.block[i]))
  }

  // ---------- chains ----------

  /** A chain depends only on the slots it visits. */
  lemma {:induction false} ChainFrame(p: Pool, q: Pool, from: Ptr, list: seq<nat>)
    requires Chain(p, from, list) && q.gen == p.gen && |p.block| <= |q.block|
    requires forall k :: 0 <= k < |list| ==>
               list[k] < |p.block| && q.block[list[k]].nextFree == p.block[list[k]].nextFree
    ensures Chain(q, from, list)
    decreases |list|
  {
    if list != [] {
      ChainFrame(p, q, p.block[list[0]].nextFree, list[1..]);
    }
  }

  lemma {:induction false} ChainUnique(p: Pool, from: Ptr, a: seq<nat>, b: seq<nat>)
    requires Chain(p, from, a) && Chain(p, from, b)
    ensures a == b
    decreases |a|
  {
    if a != [] && b != [] {
      ChainUnique(p, p.block[a[0]].nextFree, a[1..], b[1..]);
      assert a == [a[0]] + a[1..] && b == [b[0]] + b[1..];
    }
  }

  lemma {:induction false} ChainTail(p: Pool, from: Ptr, list: seq<nat>, k: nat)
    requires Chain(p, from, list) && k < |list|
    ensures list[k] < |p.block| && Chain(p, Ptr(p.gen, list[k]), list[k..])
    decreases k
  {
    if k > 0 {
      ChainTail(p, p.block[list[0]].nextFree, list[1..], k - 1);
      assert list[1..][k - 1..] == list[k..];
    } else {
      assert list[0..] == list;
    }
  }

  /** A list that can be followed to its end never visits a slot twice. */
  lemma ChainAcyclic(p: Pool, from: Ptr, list: seq<nat>)
    requires Chain(p, from, list)
    ensures NoDup(list)
  {
    forall a, b | 0 <= a < b < |list| ensures list[a] != list[b] {
      ChainTail(p, from, list, a);
      ChainTail(p, from, list, b);
      if list[a] == list[b] {
        ChainUnique(p, Ptr(p.gen, list[a]), list[a..], list[b..]);
      }
    }
  }

  // ---------- growth ----------

  function Fresh(start: nat, k: nat, n: nat): (s: seq<nat>)
    requires k <= n
    ensures |s| == n - k && forall j :: 0 <= j < |s| ==> s[j] == start + k + j
  {
    seq(n - k, j requires 0 <= j < n - k => start + k + j)
  }

  lemma {:induction false} NewChain(p: Pool, moved: bool, k: nat)
    requires p.entry == Null && k < EXPAND_COUNT
    ensures var q := Expanded(p, moved);
            Chain(q, Ptr(q.gen, |p.block| + k), Fresh(|p.block|, k, EXPAND_COUNT))
    decreases EXPAND_COUNT - k
  {
    var q, list := Expanded(p, moved), Fresh(|p.block|, k, EXPAND_COUNT);
    if k + 1 < EXPAND_COUNT {
      NewChain(p, moved, k + 1);
      assert list[1..] == Fresh(|p.block|, k + 1, EXPAND_COUNT);
    }
  }

  /** Growing an exhausted pool is sound, whether or not the block moves. */
  lemma ExpandedHolds(p: Pool, moved: bool)
    requires Holds(p, []) && p.size + EXPAND_COUNT < SIZE_LIMIT
    ensures Holds(Expanded(p, moved), Fresh(p.size, 0, EXPAND_COUNT))
  {
    NewChain(p, moved, 0);
  }

  lemma {:induction false} StaleTail(p: Pool, k: nat, list: seq<nat>)
    requires p.entry.Ptr? && p.entry.gen == p.gen && k < EXPAND_COUNT
    ensures !Chain(Expanded(p, true), Ptr(p.gen + 1, |p.block| + k), list)
    decreases EXPAND_COUNT - k
  {
    if list != [] && list[0] == |p.block| + k {
      var q := Expanded(p, true);
      if k + 1 < EXPAND_COUNT {
        StaleTail(p, k + 1, list[1..]);
      } else {
        assert q.block[list[0]].nextFree == p.entry;
      }
    }
  }

  /** When the block moves, growth is sound exactly if the free list was empty
      and the new size still fits its 16-bit field. */
  lemma ExpandOnlyWhenEmpty(p: Pool, list: seq<nat>)
    requires Holds(p, list)
    ensures Sound(Expanded(p, true)) <==> list == [] && p.size + 64 <= 0xffff
  {
    var q := Expanded(p, true);
    if list == [] && p.size + EXPAND_COUNT < SIZE_LIMIT {
      ExpandedHolds(p, true);
    } else if list != [] {
      forall l ensures !Holds(q, l) {
        StaleTail(p, 0, l);
      }
    } else {
      assert |q.block| != q.size;
    }
  }

  // ---------- allocation and freeing ----------

  function FreeList(p: Pool, list: seq<nat>, moved: bool): seq<nat> {
    if list == [] then Fresh(p.size, 0, EXPAND_COUNT) else list
  }

  predicate HasRoom(p: Pool, list: seq<nat>) {
    list == [] ==> p.size + EXPAND_COUNT < SIZE_LIMIT
  }

  /** An allocation returns the exact index of a slot not in use and removes
      that slot alone from the free list; the others keep their contents. */
  lemma AllocatedHolds(p: Pool, list: seq<nat>, moved: bool)
    requires Holds(p, list) && HasRoom(p, list)
    ensures var q, l := WithRoom(p, moved), FreeList(p, list, moved);
            && q.entry == Ptr(q.gen, l[0]) && l[0] < |q.block|
            && (l[0] < p.size ==> l[0] in list)
            && Holds(Allocated(p, moved), l[1..]) && l[0] !in l[1..]
            && p.block <= Allocated(p, moved).block
  {
    if list == [] { ExpandedHolds(p, moved); }
    var q, l := WithRoom(p, moved), FreeList(p, list, moved);
    assert Holds(q, l);
    var r := Allocated(p, moved);
    assert Chain(q, q.block[l[0]].nextFree, l[1..]);
    assert forall k :: 0 <= k < |l[1..]| ==> l[1..][k] == l[k + 1];
    ChainFrame(q, r, q.block[l[0]].nextFree, l[1..]);
  }

  lemma FreedHolds(p: Pool, list: seq<nat>, i: nat)
    requires Holds(p, list) && i < p.size && i !in list
    ensures Holds(Freed(p, i), [i] + list)
  {
    var q := Freed(p, i);
    assert ([i] + list)[1..] == list;
    ChainFrame(p, q, p.entry, list);
    ChainAcyclic(q, q.entry, [i] + list);
  }

  /** Freeing a slot that is already free closes the list into a cycle: no
      finite chain starts at the new entry. */
  lemma DoubleFreeCycle(p: Pool, list: seq<nat>, i: nat, l: seq<nat>)
    requires Holds(p, list) && i < p.size && i in list
    ensures !Chain(Freed(p, i), Ptr(p.gen, i), l)
  {
    var q := Freed(p, i);
    if Chain(q, Ptr(p.gen, i), l) {
      var k :| 0 <= k < |list| && list[k] == i;
      SamePrefix(p, q, p.entry, list, l[1..], i, k);
      assert l[0] == i && l[k + 1] == i;
      ChainAcyclic(q, Ptr(p.gen, i), l);
      assert false;
    }
  }

  lemma {:induction false} SamePrefix(p: Pool, q: Pool, from: Ptr, a: seq<nat>, b: seq<nat>, i: nat, k: nat)
    requires Chain(p, from, a) && Chain(q, from, b) && NoDup(a)
    requires i < |p.block| && q == Freed(p, i) && k < |a| && a[k] == i
    ensures k < |b| && b[k] == i
    decreases k
  {
    if k > 0 {
      assert a[0] != i && forall j :: 0 <= j < |a[1..]| ==> a[1..][j] == a[j + 1];
      SamePrefix(p, q, p.block[a[0]].nextFree, a[1..], b[1..], i, k - 1);
    }
  }

  /** Freeing keeps the pool sound exactly when the slot is in use. */
  lemma FreeNeedsUse(p: Pool, list: seq<nat>, i: nat)
    requires Holds(p, list) && i < p.size
    ensures Sound(Freed(p, i)) <==> i !in list
  {
    if i !in list {
      FreedHolds(p, list, i);
    } else {
      forall l ensures !Holds(Freed(p, i), l) {
        DoubleFreeCycle(p, list, i, l);
      }
    }
  }

  /** A caller's writes to a slot in use touch no link. */
  function Filled(p: Pool, i: nat, object_: Option<nat>, onFree: Option<nat>): Pool
    requires i < |p.block|
  {
    p.(block := p.block[i := Slot(object_, onFree, p.block[i].nextFree)])
  }

  lemma FilledHolds(p: Pool, list: seq<nat>, i: nat, object_: Option<nat>, onFree: Option<nat>)
    requires Holds(p, list) && i < p.size && i !in list
    ensures Holds(Filled(p, i, object_, onFree), list)
  {
    ChainFrame(p, Filled(p, i, object_, onFree), p.entry, list);
  }

  function FireAll(fired: seq<nat>, slots: seq<Slot>): seq<nat> {
    if slots == [] then fired else Fire(FireAll(fired, slots[..|slots| - 1]), slots[|slots| - 1])
  }

  function Cleared(slots: seq<Slot>): (s: seq<Slot>)
    ensures |s| == |slots| && forall k :: 0 <= k < |s| ==> s[k] == Slot(None, None, slots[k].nextFree)
  {
    seq(|slots|, k requires 0 <= k < |slots| => Slot(None, None, slots[k].nextFree))
  }

  /** `pxprpc_server_close` runs every finalizer and clears every slot. */
  function Closed(p: Pool): Pool {
    p.(block := Cleared(p.block), fired := FireAll(p.fired, p.block))
  }

  lemma ClosedHolds(p: Pool, list: seq<nat>)
    requires Holds(p, list)
    ensures Holds(Closed(p), list)
  {
    ChainFrame(p, Closed(p), p.entry, list);
  }

  // ---------- runs ----------

  /** `moved` is what realloc does if this allocation has to grow the block. */
  datatype Op =
    | Alloc(moved: bool)
    | Fill(i: nat, object_: Option<nat>, onFree: Option<nat>)
    | Free(i: nat)
    | Close

  /** The pool, and the indices handed out and not yet given back. */
  datatype Held = Held(pool: Pool, handed: set<nat>)

  /** A caller uses only indices it holds, and the size field has room for the
      growth of an exhausted pool. */
  predicate Legal(s: Held, op: Op) {
    match op
    case Alloc(_) => s.pool.entry == Null ==> s.pool.size + EXPAND_COUNT < SIZE_LIMIT
    case Fill(i, _, _) => i in s.handed
    case Free(i) => i in s.handed
    case Close => true
  }

  /** One operation on the links, and what the caller then holds. */
  predicate Steps(s: Held, op: Op, t: Held) {
    match op
    case Alloc(moved) =>
      var q := WithRoom(s.pool, moved);
      q.entry.Ptr? && q.entry.index < |q.block|
      && t == Held(Allocated(s.pool, moved), s.handed + {q.entry.index})
    case Fill(i, object_, onFree) =>
      i < |s.pool.block| && t == Held(Filled(s.pool, i, object_, onFree), s.handed)
    case Free(i) => i < |s.pool.block| && t == Held(Freed(s.pool, i), s.handed - {i})
    case Close => t == Held(Closed(s.pool), s.handed)
  }

  /** The slots on the list and those handed out are the pool, each slot one of
      the two. */
  predicate Splits(s: Held, list: seq<nat>) {
    && Holds(s.pool, list)
    && (forall i :: i in s.handed ==> i < s.pool.size && i !in list)
    && forall i :: 0 <= i < s.pool.size ==> i in list || i in s.handed
  }

  ghost predicate IsRun(states: seq<Held>, ops: seq<Op>) {
    && |states| == |ops| + 1
    && states[0] == Held(Pool(states[0].pool.gen, [], 0, Null, []), {})
    && forall n :: 0 <= n < |ops| ==> Legal(states[n], ops[n]) && Steps(states[n], ops[n], states[n + 1])
  }

  lemma AllocSplits(s: Held, list: seq<nat>, moved: bool) returns (rest: seq<nat>)
    requires Splits(s, list) && Legal(s, Alloc(moved))
    ensures var q := WithRoom(s.pool, moved);
            && q.entry.Ptr? && q.entry.index < |q.block| && q.entry.index !in s.handed
            && Splits(Held(Allocated(s.pool, moved), s.handed + {q.entry.index}), rest)
  {
    assert list != [] ==> s.pool.entry != Null;
    AllocatedHolds(s.pool, list, moved);
    var l := FreeList(s.pool, list, moved);
    rest := l[1..];
    var t := Held(Allocated(s.pool, moved), s.handed + {l[0]});
    assert l == [l[0]] + rest;
    forall i | 0 <= i < t.pool.size ensures i in rest || i in t.handed {
      if i >= s.pool.size {
        assert list == [] && l[i - s.pool.size] == i;
      }
      assert i in l ==> i == l[0] || i in rest;
    }
  }

  lemma FreeSplits(s: Held, list: seq<nat>, i: nat)
    requires Splits(s, list) && i in s.handed
    ensures i < |s.pool.block| && Splits(Held(Freed(s.pool, i), s.handed - {i}), [i] + list)
  {
    FreedHolds(s.pool, list, i);
  }

  lemma StepSplits(s: Held, list: seq<nat>, op: Op, t: Held) returns (l: seq<nat>)
    requires Splits(s, list) && Legal(s, op) && Steps(s, op, t)
    ensures Splits(t, l)
  {
    hide Holds, Filled, Freed, Allocated, Closed;
    l := list;
    match op
    case Alloc(moved) => l := AllocSplits(s, list, moved);
    case Fill(i, object_, onFree) => FillSplits(s, list, i, object_, onFree);
    case Free(i) => FreeSplits(s, list, i); l := [i] + list;
    case Close => CloseSplits(s, list);
  }

  lemma FillSplits(s: Held, list: seq<nat>, i: nat, object_: Option<nat>, onFree: Option<nat>)
    requires Splits(s, list) && i in s.handed
    ensures i < |s.pool.block| && Splits(Held(Filled(s.pool, i, object_, onFree), s.handed), list)
  {
    FilledHolds(s.pool, list, i, object_, onFree);
  }

  lemma CloseSplits(s: Held, list: seq<nat>)
    requires Splits(s, list)
    ensures Splits(Held(Closed(s.pool), s.handed), list)
  {
    ClosedHolds(s.pool, list);
  }

  /** In every state of every run, following the links from the entry stays in
      the current block and ends, however often the block has moved, and visits
      exactly the slots whose indices no caller holds. */
  lemma {:induction false} RunSound(states: seq<Held>, ops: seq<Op>, n: nat)
    requires IsRun(states, ops) && n < |states|
    ensures exists list :: Splits(states[n], list)
  {
    hide Legal, Steps, Splits;
    if n == 0 {
      StartSplits(states[0]);
    } else {
      RunSound(states, ops, n - 1);
      var list :| Splits(states[n - 1], list);
      var _ := StepSplits(states[n - 1], list, ops[n - 1], states[n]);
    }
  }

  lemma StartSplits(s: Held)
    requires s.pool.block == [] && s.pool.size == 0 && s.pool.entry == Null && s.handed == {}
    ensures Splits(s, [])
  {
  }

  /** In every run an allocation succeeds and hands out an index no caller holds. */
  lemma RunHandsOutFree(states: seq<Held>, ops: seq<Op>, n: nat)
    requires IsRun(states, ops) && n < |ops| && ops[n].Alloc?
    ensures exists i :: i !in states[n].handed && states[n + 1].handed == states[n].handed + {i}
  {
    RunSound(states, ops, n);
    var list :| Splits(states[n], list);
    var _ := AllocSplits(states[n], list, ops[n].moved);
  }

  // ---------- finalizers ----------

  /** Nothing is done to slot `i` by an operation, but that it may be linked. */
  predicate Leaves(op: Op, i: nat) {
    match op
    case Fill(j, _, _) => j != i
    case Free(j) => j != i
    case Close => false
    case Alloc(_) => true
  }

  lemma LeftAlone(s: Held, list: seq<nat>, op: Op, t: Held, i: nat)
    requires Splits(s, list) && Legal(s, op) && Steps(s, op, t) && i in s.handed && Leaves(op, i)
    ensures i in t.handed && i < |s.pool.block| && i < |t.pool.block| && t.pool.block[i] == s.pool.block[i]
  {
    if op.Alloc? {
      AllocatedHolds(s.pool, list, op.moved);
    }
  }

  lemma {:induction false} SlotStays(states: seq<Held>, ops: seq<Op>, m: nat, n: nat, i: nat)
    requires IsRun(states, ops) && m <= n < |states| && i in states[m].handed
    requires forall k :: m <= k < n ==> Leaves(ops[k], i)
    ensures i in states[n].handed && i < |states[m].pool.block| && i < |states[n].pool.block|
    ensures states[n].pool.block[i] == states[m].pool.block[i]
  {
    hide Legal, Steps, Splits, Leaves;
    if m == n {
      RunSound(states, ops, n);
      var list :| Splits(states[n], list);
      HandedIn(states[n], list, i);
    } else {
      SlotStays(states, ops, m, n - 1, i);
      RunSound(states, ops, n - 1);
      var list :| Splits(states[n - 1], list);
      LeftAlone(states[n - 1], list, ops[n - 1], states[n], i);
    }
  }

  lemma HandedIn(s: Held, list: seq<nat>, i: nat)
    requires Splits(s, list) && i in s.handed
    ensures i < |s.pool.block|
  {
  }

  /** The finalizers a step runs: none unless it frees or closes. */
  lemma FillsFireNothing(s: Held, op: Op, t: Held)
    requires Steps(s, op, t) && (op.Alloc? || op.Fill?)
    ensures t.pool.fired == s.pool.fired
  {
  }

  lemma EndFires(s: Held, op: Op, t: Held, i: nat)
    requires Steps(s, op, t) && (op == Free(i) || op == Close) && i < |s.pool.block|
    ensures i < |t.pool.block| && t.pool.block[i].object_ == None && t.pool.block[i].onFree == None
    ensures op == Free(i) ==>
              t.pool.fired == s.pool.fired + match s.pool.block[i].onFree case Some(f) => [f] case None => []
    ensures op == Close ==> |t.pool.fired| == |s.pool.fired| + Hooks(s.pool.block)
    ensures op == Close && s.pool.block[i].onFree.Some? ==>
              RunsAt(s.pool.fired, s.pool.block, i, t.pool.fired)
  {
    if op == Close {
      FiredAt(s.pool.fired, s.pool.block, i);
    }
  }

  /** How many of the slots have a finalizer. */
  function Hooks(slots: seq<Slot>): nat {
    if slots == [] then 0 else Hooks(slots[..|slots| - 1]) + if slots[|slots| - 1].onFree.Some? then 1 else 0
  }

  /** The finalizer of slot `i` has run, in the place the slots before it leave. */
  predicate RunsAt(was: seq<nat>, slots: seq<Slot>, i: nat, now: seq<nat>)
    requires i < |slots| && slots[i].onFree.Some?
  {
    |was| + Hooks(slots[..i]) < |now| && now[|was| + Hooks(slots[..i])] == slots[i].onFree.value
  }

  lemma {:induction false} FiredAt(fired: seq<nat>, slots: seq<Slot>, i: nat)
    requires i < |slots|
    ensures |FireAll(fired, slots)| == |fired| + Hooks(slots)
    ensures slots[i].onFree.Some? ==> RunsAt(fired, slots, i, FireAll(fired, slots))
  {
    var init := slots[..|slots| - 1];
    if i < |init| {
      FiredAt(fired, init, i);
      assert init[..i] == slots[..i];
    } else if |init| > 0 {
      FiredAt(fired, init, 0);
    }
  }

  /** In every run: what is put into a slot at step `m`, and left there until the
      slot is freed or the pool closed at step `n`, is then gone, and its
      finalizer, if there is one, has run.  A free runs no other, a close each
      of them once, in the order of the slots. */
  lemma FillFinalized(states: seq<Held>, ops: seq<Op>, m: nat, n: nat, i: nat)
    requires IsRun(states, ops) && m < n < |ops| && ops[m].Fill? && ops[m].i == i
    requires (forall k :: m < k < n ==> Leaves(ops[k], i)) && (ops[n] == Free(i) || ops[n] == Close)
    ensures var was, now := states[n].pool, states[n + 1].pool;
            && i < |was.block| && i < |now.block|
            && was.block[i].object_ == ops[m].object_ && was.block[i].onFree == ops[m].onFree
            && now.block[i].object_ == None && now.block[i].onFree == None
            && (ops[n] == Free(i) ==>
                  now.fired == was.fired + match ops[m].onFree case Some(f) => [f] case None => [])
            && (ops[n] == Close ==>
                  && |now.fired| == |was.fired| + Hooks(was.block)
                  && (ops[m].onFree.Some? ==> RunsAt(was.fired, was.block, i, now.fired)))
  {
    hide Splits, Leaves;
    assert Legal(states[m], ops[m]) && Steps(states[m], ops[m], states[m + 1]);
    SlotStays(states, ops, m + 1, n, i);
    assert Steps(states[n], ops[n], states[n + 1]);
    hide Steps, Legal;
    EndFires(states[n], ops[n], states[n + 1], i);
  }

  /** A growing pool gains 64 slots, and the first of them is taken. */
  lemma GrowsBy64(s: Held, moved: bool, t: Held)
    requires Splits(s, []) && Legal(s, Alloc(moved)) && Steps(s, Alloc(moved), t)
    ensures t.pool.size == s.pool.size + 64 && t.handed == s.handed + {s.pool.size}
  {
    AllocatedHolds(s.pool, [], moved);
  }

  /** The slot freed last is taken first. */
  lemma FreedFirst(s: Held, list: seq<nat>, i: nat, t: Held, moved: bool, u: Held)
    requires Splits(s, list) && Legal(s, Free(i)) && Steps(s, Free(i), t) && Steps(t, Alloc(moved), u)
    ensures u.handed == s.handed
  {
    FreedHolds(s.pool, list, i);
    AllocatedHolds(t.pool, [i] + list, moved);
  }

  // ---------- the object ----------

  class ServCo {
    var refPool: array?<Slot>
    var refPoolSize: nat
    var freeRefEntry: Ptr
    var fired: seq<nat>
    var gen: nat

    function Block(): seq<Slot>
      reads this, refPool
    {
      if refPool == null then [] else refPool[..]
    }

    ghost function State(): Pool
      reads this, refPool
    {
      Pool(gen, Block(), refPoolSize, freeRefEntry, fired)
    }

    constructor ()
      ensures State() == Pool(0, [], 0, Null, [])
    {
      refPool, refPoolSize, freeRefEntry, fired, gen := null, 0, Null, [], 0;
    }

    /** malloc or realloc to `n` slots, keeping the first ones; `moved` is
        whether the block got a new address, that is, a new generation. */
    method Reallocate(n: nat, moved: bool)
      requires |Block()| <= n
      modifies this`refPool, this`gen
      ensures refPool != null && fresh(refPool) && refPool.Length == n
      ensures refPool[..|old(Block())|] == old(Block())
      ensures gen == if moved then old(gen) + 1 else old(gen)
    {
      var b := new Slot[n](_ => Slot(None, None, Null));
      var m := if refPool == null then 0 else refPool.Length;
      forall k | 0 <= k < m { b[k] := refPool[k]; }
      refPool := b;
      if moved { gen := gen + 1; }
    }

    /** The first loop: each new slot is linked to the next, the last to none. */
    method LinkSlots(start: nat, end: nat)
      requires refPool != null && start <= end && end + 1 == refPool.Length
      modifies refPool
      ensures refPool[..start] == old(refPool[..start])
      ensures forall k :: start <= k < end ==> refPool[k].nextFree == Ptr(gen, k + 1)
    {
      var i := start;
      while i < end
        modifies refPool
        invariant start <= i <= end
        invariant refPool[..start] == old(refPool[..start])
        invariant forall k :: start <= k < i ==> refPool[k].nextFree == Ptr(gen, k + 1)
      {
        refPool[i] := refPool[i].(nextFree := Ptr(gen, i + 1));
        i := i + 1;
      }
      refPool[end] := refPool[end].(nextFree := Null);
    }

    /** The second loop: the new slots are cleared and keep their links. */
    method ClearSlots(start: nat, end: nat)
      requires refPool != null && start <= end && end + 1 == refPool.Length
      modifies refPool
      ensures refPool[..start] == old(refPool[..start])
      ensures forall k :: start <= k <= end ==> refPool[k] == Slot(None, None, old(refPool[k].nextFree))
    {
      var i := start;
      while i <= end
        modifies refPool
        invariant start <= i <= end + 1
        invariant refPool[..start] == old(refPool[..start])
        invariant forall k :: start <= k < i ==> refPool[k] == Slot(None, None, old(refPool[k].nextFree))
        invariant forall k :: i <= k <= end ==> refPool[k] == old(refPool[k])
      {
        refPool[i] := refPool[i].(onFree := None, object_ := None);
        i := i + 1;
      }
    }

    method ExpandRefPool(moved: bool)
      requires refPoolSize == |Block()|
      modifies this
      ensures State() == Expanded(old(State()), moved)
      ensures refPool != null && fresh(refPool)
    {
      var start := refPoolSize;
      var end := refPoolSize + EXPAND_COUNT - 1;
      ghost var was := Block();
      Reallocate(end + 1, moved);
      refPoolSize := (end + 1) % SIZE_LIMIT;
      LinkSlots(start, end);
      ClearSlots(start, end);
      refPool[end] := refPool[end].(nextFree := freeRefEntry);
      freeRefEntry := Ptr(gen, start);
      assert refPool[..][start..] == NewSlots(gen, start, old(freeRefEntry), EXPAND_COUNT);
      assert refPool[..] == was + refPool[..][start..];
    }

    method AllocRef(ghost list: seq<nat>, moved: bool) returns (index: nat)
      requires Holds(State(), list) && HasRoom(State(), list)
      modifies this
      ensures State() == Allocated(old(State()), moved)
      ensures index == FreeList(old(State()), list, moved)[0] && index !in old(InUse(list))
      ensures refPool == old(refPool) || fresh(refPool)
    {
      AllocatedHolds(State(), list, moved);
      if freeRefEntry == Null {
        ExpandRefPool(moved);
      }
      index := freeRefEntry.index;
      freeRefEntry := refPool[index].nextFree;
    }

    function InUse(list: seq<nat>): set<nat>
      reads this
    {
      set i | 0 <= i < refPoolSize && i !in list
    }

    method FreeRef(i: nat)
      requires i < |Block()|
      modifies this, refPool
      ensures State() == Freed(old(State()), i) && refPool == old(refPool)
    {
      if refPool[i].onFree.Some? {
        fired := fired + [refPool[i].onFree.value];
      }
      refPool[i] := Slot(None, None, freeRefEntry);
      freeRefEntry := Ptr(gen, i);
    }
  }
}

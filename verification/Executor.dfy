/** The runtime bridge's cross-thread executor: any number of threads push
    tasks on a shared list under a mutex and then ask the event loop to wake;
    wakeups coalesce.  Every access is a step of its own, in any interleaving. */
module Executor {
  import opened Prelude

  type Task = nat

  /** Where a posting thread is: node made, mutex taken, node pushed, mutex
      released but wakeup not yet sent. */
  datatype Poster = Idle | Made(task: Task) | Locked(task: Task) | Pushed | Unlocked

  /** Where the loop is: in its poll, in the callback before the mutex, with the
      mutex, with the mutex and the batch taken, running the batch. */
  datatype Phase = Polling | Woken | Holding | Took | Draining

  datatype Holder = Nobody | Loop | Thread(t: nat)

  /** `queue` has the newest task first; `posted` is in push order. */
  datatype State = State(
    queue: seq<Task>, holder: Holder, pending: bool, posters: map<nat, Poster>,
    phase: Phase, batch: seq<Task>, executed: seq<Task>, posted: seq<Task>, taken: nat)
  {
    function At(t: nat): Poster { if t in posters then posters[t] else Idle }

    function With(t: nat, p: Poster): State { this.(posters := posters[t := p]) }
  }

  const START := State([], Nobody, false, map[], Polling, [], [], [], 0)

  datatype Step =
    | Make(t: nat, task: Task) | Lock(t: nat) | Push(t: nat) | Unlock(t: nat) | SendAsync(t: nat)
    | Wake | LoopLock | Take | LoopUnlock | RunOne | EndBatch

  predicate Enabled(s: State, step: Step) {
    match step
    case Make(t, _) => s.At(t) == Idle
    case Lock(t) => s.At(t).Made? && s.holder == Nobody
    case Push(t) => s.At(t).Locked?
    case Unlock(t) => s.At(t) == Pushed
    case SendAsync(t) => s.At(t) == Unlocked
    case Wake => s.phase == Polling && s.pending
    case LoopLock => s.phase == Woken && s.holder == Nobody
    case Take => s.phase == Holding
    case LoopUnlock => s.phase == Took
    case RunOne => s.phase == Draining && s.batch != []
    case EndBatch => s.phase == Draining && s.batch == []
  }

  function Apply(s: State, step: Step): State
    requires Enabled(s, step)
  {
    match step
    case Make(t, task) => s.With(t, Made(task))
    case Lock(t) => s.With(t, Locked(s.At(t).task)).(holder := Thread(t))
    case Push(t) => s.With(t, Pushed).(queue := [s.At(t).task] + s.queue, posted := s.posted + [s.At(t).task])
    case Unlock(t) => s.With(t, Unlocked).(holder := Nobody)
    case SendAsync(t) => s.With(t, Idle).(pending := true)
    case Wake => s.(phase := Woken, pending := false)
    case LoopLock => s.(phase := Holding, holder := Loop)
    case Take => s.(phase := Took, batch := s.queue, queue := [], taken := |s.posted|)
    case LoopUnlock => s.(phase := Draining, holder := Nobody)
    case RunOne => s.(executed := s.executed + [s.batch[0]], batch := s.batch[1..])
    case EndBatch => s.(phase := Polling)
  }

  // ---------- the invariant ----------

  function Reversed(s: seq<Task>): (r: seq<Task>)
    ensures |r| == |s|
  {
    if s == [] then [] else [s[|s| - 1]] + Reversed(s[..|s| - 1])
  }

  predicate Sending(p: Poster) { p == Pushed || p == Unlocked }

  ghost predicate Exclusive(s: State) {
    && (forall t :: (s.At(t).Locked? || s.At(t) == Pushed) <==> s.holder == Thread(t))
    && (s.holder == Loop <==> s.phase == Holding || s.phase == Took)
  }

  /** A queued task has a wakeup on its way: pending, being served, or about to
      be sent by a poster that has pushed. */
  ghost predicate WakeComing(s: State) {
    s.queue != [] ==> s.pending || s.phase == Woken || s.phase == Holding || exists t :: Sending(s.At(t))
  }

  /** The queue is what was posted since the last batch was taken, newest first;
      every task posted is executed, in the batch or queued, once. */
  ghost predicate Conserved(s: State) {
    && s.taken <= |s.posted| && s.queue == Reversed(s.posted[s.taken..])
    && multiset(s.posted) == multiset(s.executed) + multiset(s.batch) + multiset(s.queue)
    && (s.batch != [] ==> s.phase == Took || s.phase == Draining)
  }

  ghost predicate Inv(s: State) { Exclusive(s) && WakeComing(s) && Conserved(s) }

  lemma StepExclusive(s: State, step: Step)
    requires Exclusive(s) && Enabled(s, step)
    ensures Exclusive(Apply(s, step))
  {
    var u := Apply(s, step);
    if step.Lock? || step.Push? || step.Unlock? || step.SendAsync? || step.Make? {
      assert forall t :: t != step.t ==> u.At(t) == s.At(t);
    } else {
      assert forall t :: u.At(t) == s.At(t);
    }
  }

  lemma StepWake(s: State, step: Step)
    requires Exclusive(s) && WakeComing(s) && Enabled(s, step)
    ensures WakeComing(Apply(s, step))
  {
    var u := Apply(s, step);
    match step
    case Push(t) => assert Sending(u.At(t));
    case Unlock(t) => assert Sending(u.At(t));
    case SendAsync(t) =>
    case Make(t, task) =>
      if exists k :: Sending(s.At(k)) {
        var k :| Sending(s.At(k));
        assert Sending(u.At(k));
      }
    case Lock(t) =>
      if exists k :: Sending(s.At(k)) {
        var k :| Sending(s.At(k));
        assert Sending(u.At(k));
      }
    case _ =>
      if exists k :: Sending(s.At(k)) {
        var k :| Sending(s.At(k));
        assert Sending(u.At(k));
      }
  }

  lemma StepConserved(s: State, step: Step)
    requires Conserved(s) && Enabled(s, step)
    ensures Conserved(Apply(s, step))
  {
    hide Reversed;
    match step
    case Push(t) => PushConserved(s, s.At(t).task);
    case RunOne => RunConserved(s);
    case Take => ReversedNone(s.posted[|s.posted|..]);
    case _ =>
  }

  lemma ReversedNone(s: seq<Task>)
    requires s == []
    ensures Reversed(s) == []
  {
  }

  lemma ReversedSnoc(s: seq<Task>, x: Task)
    ensures Reversed(s + [x]) == [x] + Reversed(s)
  {
    assert (s + [x])[..|s|] == s;
  }

  lemma RunConserved(s: State)
    requires Conserved(s) && Enabled(s, RunOne)
    ensures Conserved(Apply(s, RunOne))
  {
    hide Reversed;
    assert s.batch == [s.batch[0]] + s.batch[1..];
  }

  lemma PushConserved(s: State, x: Task)
    requires Conserved(s)
    ensures Conserved(s.(queue := [x] + s.queue, posted := s.posted + [x]))
  {
    hide Reversed;
    ReversedSnoc(s.posted[s.taken..], x);
    assert (s.posted + [x])[s.taken..] == s.posted[s.taken..] + [x];
  }

  lemma StepKeeps(s: State, step: Step)
    requires Inv(s) && Enabled(s, step)
    ensures Inv(Apply(s, step))
  {
    StepExclusive(s, step);
    StepWake(s, step);
    StepConserved(s, step);
  }

  ghost predicate IsRun(states: seq<State>, steps: seq<Step>) {
    && |states| == |steps| + 1 && states[0] == START
    && forall n :: 0 <= n < |steps| ==> Enabled(states[n], steps[n]) && states[n + 1] == Apply(states[n], steps[n])
  }

  lemma {:induction false} RunKeeps(states: seq<State>, steps: seq<Step>, n: nat)
    requires IsRun(states, steps) && n < |states|
    ensures Inv(states[n])
  {
    if n > 0 {
      RunKeeps(states, steps, n - 1);
      StepKeeps(states[n - 1], steps[n - 1]);
    }
  }

  /** In every interleaving, no task is run more often than it was posted, and
      the tasks not yet run are exactly those in the batch and in the queue. */
  lemma NoneLostOrRepeated(states: seq<State>, steps: seq<Step>, n: nat, task: Task)
    requires IsRun(states, steps) && n < |states|
    ensures var s := states[n];
            && multiset(s.executed)[task] <= multiset(s.posted)[task]
            && multiset(s.posted)[task] - multiset(s.executed)[task]
                 == multiset(s.batch)[task] + multiset(s.queue)[task]
  {
    RunKeeps(states, steps, n);
    var s := states[n];
    assert multiset(s.posted)[task] == (multiset(s.executed) + multiset(s.batch) + multiset(s.queue))[task];
  }

  /** In every interleaving, a non-empty queue has a wakeup pending, being
      served, or about to be sent by a thread between its push and its send. */
  lemma NoLostWakeup(states: seq<State>, steps: seq<Step>, n: nat)
    requires IsRun(states, steps) && n < |states| && states[n].queue != []
    ensures var s := states[n]; s.pending || s.phase == Woken || s.phase == Holding || exists t :: Sending(s.At(t))
  {
    RunKeeps(states, steps, n);
  }

  /** The batch the loop takes is what was posted since the last one, in the
      reverse of the order in which it was pushed. */
  lemma BatchesReversed(states: seq<State>, steps: seq<Step>, n: nat)
    requires IsRun(states, steps) && n < |steps| && steps[n] == Take
    ensures states[n].taken <= |states[n].posted|
    ensures states[n + 1].batch == Reversed(states[n].posted[states[n].taken..])
  {
    RunKeeps(states, steps, n);
  }

  /** A batch is run from its front: what a step of the loop runs, it takes off
      the batch. */
  lemma BatchStep(s: State, step: Step)
    requires Enabled(s, step) && (s.phase == Took || s.phase == Draining) && step != EndBatch
    ensures var u := Apply(s, step);
            && u.executed + u.batch == s.executed + s.batch && s.executed <= u.executed
            && (u.phase == Took || u.phase == Draining)
  {
  }

  /** In every interleaving a batch is run in the order it was taken in, without
      other tasks in between. */
  lemma {:induction false} BatchRunsInOrder(states: seq<State>, steps: seq<Step>, m: nat, n: nat)
    requires IsRun(states, steps) && m < n < |states| && steps[m] == Take
    requires forall k :: m < k < n ==> steps[k] != EndBatch
    ensures var taken := states[m + 1].batch;
            && states[n].executed + states[n].batch == states[m].executed + taken
            && states[m].executed <= states[n].executed
            && (states[n].phase == Took || states[n].phase == Draining)
  {
    if m + 1 < n {
      BatchRunsInOrder(states, steps, m, n - 1);
      BatchStep(states[n - 1], steps[n - 1]);
    }
  }

  // ---------- progress ----------

  predicate LoopStep(step: Step) {
    step in {Wake, LoopLock, Take, LoopUnlock, RunOne, EndBatch}
  }

  /** `u` is reached from `s` by steps of the loop alone. */
  ghost predicate LoopReaches(s: State, u: State, n: nat)
    decreases n
  {
    if n == 0 then u == s
    else exists step :: LoopStep(step) && Enabled(s, step) && LoopReaches(Apply(s, step), u, n - 1)
  }

  ghost predicate AllRun(u: State) {
    u.queue == [] && u.batch == [] && u.phase == Polling && multiset(u.executed) == multiset(u.posted)
  }

  ghost predicate CanFinish(s: State) {
    exists u, n: nat :: LoopReaches(s, u, n) && AllRun(u) && u.posted == s.posted
  }

  lemma FinishStep(s: State, step: Step)
    requires LoopStep(step) && Enabled(s, step) && Apply(s, step).posted == s.posted && CanFinish(Apply(s, step))
    ensures CanFinish(s)
  {
    var u, n: nat :| LoopReaches(Apply(s, step), u, n) && AllRun(u) && u.posted == s.posted;
    assert LoopReaches(s, u, n + 1);
  }

  function Rank(p: Phase): nat {
    match p case Polling => 0 case Draining => 1 case Took => 2 case Holding => 3 case Woken => 4
  }

  ghost predicate NoPosters(s: State) {
    forall t :: s.At(t).Idle? || s.At(t).Made?
  }

  /** What the loop does next when it is not idle. */
  function NextLoopStep(s: State): Step {
    match s.phase
    case Polling => Wake
    case Woken => LoopLock
    case Holding => Take
    case Took => LoopUnlock
    case Draining => if s.batch == [] then EndBatch else RunOne
  }

  lemma LoopNotBlocked(s: State)
    requires Exclusive(s) && NoPosters(s) && (s.phase == Polling ==> s.pending)
    ensures Enabled(s, NextLoopStep(s)) && NoPosters(Apply(s, NextLoopStep(s)))
  {
    var holder := if s.holder.Thread? then s.holder.t else 0;
    assert s.At(holder).Idle? || s.At(holder).Made?;
    var u := Apply(s, NextLoopStep(s));
    assert forall t :: u.At(t) == s.At(t);
  }

  lemma IdleHasRun(s: State)
    requires WakeComing(s) && Conserved(s) && NoPosters(s) && s.phase == Polling && !s.pending
    ensures CanFinish(s)
  {
    assert s.queue == [];
    assert LoopReaches(s, s, 0) && AllRun(s);
  }

  /** Once no thread is between taking the mutex and sending its wakeup, the
      loop on its own runs every task posted, without any further wakeup. */
  lemma {:induction false} LoopFinishes(s: State)
    requires Inv(s) && NoPosters(s)
    ensures CanFinish(s)
    decreases s.pending, Rank(s.phase), |s.batch|
  {
    hide Exclusive, WakeComing, Conserved, NoPosters, CanFinish;
    if s.phase == Polling && !s.pending {
      IdleHasRun(s);
    } else {
      LoopNotBlocked(s);
      var step := NextLoopStep(s);
      StepKeeps(s, step);
      LoopFinishes(Apply(s, step));
      FinishStep(s, step);
    }
  }

  // ---------- the list as the code has it ----------

  class AsyncReq {
    const task: Task
    var next: AsyncReq?

    constructor (task: Task, next: AsyncReq?)
      ensures this.task == task && this.next == next
    {
      this.task, this.next := task, next;
    }
  }

  function NodeAt(chain: seq<AsyncReq>, k: nat): AsyncReq? {
    if k < |chain| then chain[k] else null
  }

  ghost predicate Linked(chain: seq<AsyncReq>)
    reads chain
  {
    forall k :: 0 <= k < |chain| ==> chain[k].next == NodeAt(chain, k + 1)
  }

  function Tasks(chain: seq<AsyncReq>): (s: seq<Task>)
    ensures |s| == |chain| && forall k :: 0 <= k < |s| ==> s[k] == chain[k].task
  {
    seq(|chain|, k requires 0 <= k < |chain| => chain[k].task)
  }

  lemma LinkedPrepend(r: AsyncReq, chain: seq<AsyncReq>)
    requires Linked(chain) && r.next == NodeAt(chain, 0)
    ensures Linked([r] + chain) && Tasks([r] + chain) == [r.task] + Tasks(chain)
  {
    var all := [r] + chain;
    forall k | 0 <= k < |all| ensures all[k].next == NodeAt(all, k + 1) {
      if k > 0 {
        assert all[k] == chain[k - 1];
      }
    }
  }

  class AsyncQueue {
    var queue: AsyncReq?
    var executed: seq<Task>
    ghost var chain: seq<AsyncReq>

    ghost predicate Valid()
      reads this, chain
    {
      Linked(chain) && queue == NodeAt(chain, 0)
    }

    constructor ()
      ensures Valid() && chain == [] && executed == []
    {
      queue, executed, chain := null, [], [];
    }

    /** The critical section of a post. */
    method AsyncExec(task: Task)
      requires Valid()
      modifies this`queue, this`chain
      ensures Valid() && Tasks(chain) == [task] + Tasks(old(chain))
    {
      var r := new AsyncReq(task, queue);
      queue := r;
      LinkedPrepend(r, chain);
      chain := [r] + chain;
    }

    /** The loop over a list taken off the queue runs every task. */
    method RunAll(batch: AsyncReq?, ghost nodes: seq<AsyncReq>)
      requires Linked(nodes) && batch == NodeAt(nodes, 0)
      modifies this`executed
      ensures executed == old(executed) + Tasks(nodes)
    {
      var r := batch;
      ghost var k := 0;
      while r != null
        invariant 0 <= k <= |nodes| && r == NodeAt(nodes, k)
        invariant executed == old(executed) + Tasks(nodes)[..k]
        decreases |nodes| - k
      {
        executed := executed + [r.task];
        r := r.next;
        k := k + 1;
      }
      assert Tasks(nodes)[..k] == Tasks(nodes);
    }

    /** The loop callback: takes the list, leaves it empty, runs every task. */
    method AsyncCb()
      requires Valid()
      modifies this
      ensures Valid() && chain == [] && executed == old(executed) + Tasks(old(chain))
    {
      hide Tasks;
      var batch := queue;
      ghost var nodes := chain;
      queue, chain := null, [];
      RunAll(batch, nodes);
    }
  }
}

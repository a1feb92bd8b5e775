/** Session ids: a cursor that walks [SID_START, SID_END) cyclically over a set
    of used ids. */
module SidAllocator {
  import opened Prelude

  const SID_START: nat := 1
  const SID_END: nat := 0xffff

  /** Used ids and the cursor.  A failed allocation leaves the cursor on
      SID_END, from where that id itself can be handed out once. */
  datatype Sids = Sids(used: set<nat>, next: nat) {
    predicate Valid() {
      && SID_START <= next <= SID_END
      && forall s :: s in used ==> SID_START <= s <= SID_END
    }

    /** All ids from lo up to hi are used. */
    predicate Full(lo: nat, hi: nat) {
      forall s :: lo <= s < hi ==> s in used
    }

    /** `sid` is the first unused id met when walking cyclically from the cursor. */
    predicate FirstFree(sid: nat) {
      && sid !in used
      && if next <= sid
         then Full(next, sid) && sid < (if next == SID_END then SID_END + 1 else SID_END)
         else SID_START <= sid && Full(SID_START, sid) && Full(next, if next == SID_END then SID_END + 1 else SID_END)
    }

    function Advance(sid: nat): Sids {
      Sids(used + {sid}, if sid + 1 >= SID_END then SID_START else sid + 1)
    }

    function Free(sid: nat): Sids {
      this.(used := used - {sid})
    }
  }

  const INITIAL := Sids({}, SID_START)

  /** The outcome of `allocSid` on `s`, as a relation: an id and the new state,
      or the exception and the state it leaves. */
  predicate Allocates(s: Sids, sid: Option<nat>, t: Sids) {
    match sid
    case Some(i) => s.FirstFree(i) && t == s.Advance(i)
    case None =>
      && s.Full(SID_START, SID_END) && (s.next == SID_END ==> SID_END in s.used)
      && t == s.(next := SID_END)
  }

  /** The first unused id from `lo` on. */
  lemma {:induction false} FirstUnused(s: Sids, lo: nat, hi: nat) returns (i: nat)
    requires lo <= hi && !s.Full(lo, hi)
    ensures lo <= i < hi && i !in s.used && s.Full(lo, i)
    decreases hi - lo
  {
    if lo !in s.used {
      i := lo;
    } else {
      i := FirstUnused(s, lo + 1, hi);
    }
  }

  /** From every state there is exactly one outcome: the relation is a function
      of the state, and it fails exactly when no id can be handed out. */
  lemma AllocatesOnce(s: Sids)
    requires s.Valid()
    ensures exists sid, t :: Allocates(s, sid, t)
    ensures forall a, t, b, u :: Allocates(s, a, t) && Allocates(s, b, u) ==> a == b && t == u
    ensures (exists t :: Allocates(s, None, t)) <==>
              forall i :: SID_START <= i < (if s.next == SID_END then SID_END + 1 else SID_END) ==> i in s.used
  {
    var end := if s.next == SID_END then SID_END + 1 else SID_END;
    if !s.Full(s.next, end) {
      var i := FirstUnused(s, s.next, end);
      assert Allocates(s, Some(i), s.Advance(i));
    } else if !s.Full(SID_START, SID_END) {
      var i := FirstUnused(s, SID_START, SID_END);
      assert Allocates(s, Some(i), s.Advance(i));
    } else {
      assert Allocates(s, None, s.(next := SID_END));
    }
  }

  /** Every outcome keeps the allocator valid, hands out an unused id of the
      range, SID_END exactly from a cursor left there by a failure while that id
      is unused, and the failing outcome changes no id. */
  lemma AllocatesKeeps(s: Sids, sid: Option<nat>, t: Sids)
    requires s.Valid() && Allocates(s, sid, t)
    ensures t.Valid()
    ensures sid.Some? ==> sid.value !in s.used && SID_START <= sid.value <= SID_END && t.used == s.used + {sid.value}
    ensures sid == Some(SID_END) <==> s.next == SID_END && SID_END !in s.used
    ensures sid.None? ==> t.used == s.used
  {
  }

  /** Ids go round: after `a`, whatever is freed meanwhile, the next id handed out
      is the first unused one after `a`, and then from the start of the range.
      So an id is not given again before every other id of the range has been
      passed over as used.  The first id of all is 1. */
  lemma IdsGoRound(s: Sids, a: nat, t: Sids, used: set<nat>, b: nat, u: Sids)
    requires s.Valid() && Allocates(s, Some(a), t) && used <= t.used && Allocates(t.(used := used), Some(b), u)
    ensures if a < b then forall i :: a < i < b ==> i in used
            else (forall i :: a < i < 0xffff ==> i in used) && forall i :: 1 <= i < b ==> i in used
    ensures a == b ==> forall i :: 1 <= i < 0xffff && i != a ==> i in used
    ensures s == INITIAL ==> a == 1
  {
    assert s == INITIAL ==> s.next == 1 && 1 !in s.used;
  }

  predicate InRange(i: nat) {
    SID_START <= i < SID_END
  }

  /** With every id of the range used, an allocation fails, and the next one
      hands out the end of the range. */
  lemma EndHandedOut()
    ensures exists used: set<nat> ::
              && (forall i :: i in used <==> InRange(i))
              && Sids(used, SID_START).Valid() && Allocates(Sids(used, SID_START), None, Sids(used, SID_END))
              && Allocates(Sids(used, SID_END), Some(SID_END), Sids(used + {SID_END}, SID_START))
  {
    var used: set<nat> := set i: nat | i < SID_END && InRange(i);
    assert Sids(used, SID_END).FirstFree(SID_END);
  }

  class SidPool {
    var used: set<nat>
    var next: nat

    function State(): Sids
      reads this
    {
      Sids(used, next)
    }

    constructor ()
      ensures State() == INITIAL
    {
      used, next := {}, SID_START;
    }

    method AllocSid() returns (sid: Option<nat>)
      requires State().Valid()
      modifies this
      ensures State().Valid() && Allocates(old(State()), sid, State())
    {
      var reachEnd := false;
      while next in used
        modifies this`next
        invariant SID_START <= next <= SID_END
        invariant !reachEnd ==>
                    && old(next) <= next && old(State()).Full(old(next), next)
                    && (next == SID_END ==> old(next) == SID_END)
        invariant reachEnd ==>
                    && next < SID_END && old(State()).Full(SID_START, next)
                    && old(State()).Full(old(next), if old(next) == SID_END then SID_END + 1 else SID_END)
        decreases if reachEnd then 0 else 1, SID_END - next
      {
        next := next + 1;
        if next >= SID_END {
          if reachEnd {
            return None;
          } else {
            reachEnd := true;
            next := SID_START;
          }
        }
      }
      var t1 := next;
      next := next + 1;
      if next >= SID_END {
        next := SID_START;
      }
      used := used + {t1};
      sid := Some(t1);
    }

    method FreeSid(index: nat)
      modifies this
      ensures State() == old(State()).Free(index)
    {
      used := used - {index};
    }
  }
}

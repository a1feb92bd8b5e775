/** Vocabulary shared by the models. */
module Prelude {
  datatype Option<+T> = None | Some(value: T)

  predicate NoDup<T(==)>(s: seq<T>) {
    forall j, k :: 0 <= j < k < |s| ==> s[j] != s[k]
  }

  lemma SplitAt<T>(s: seq<T>, i: nat)
    requires i < |s|
    ensures s == s[..i] + ([s[i]] + s[i + 1..])
  {
  }

  /** The numbers from `lo`, `n` of them. */
  function Range(lo: nat, n: nat): (s: seq<nat>)
    ensures |s| == n
  {
    seq(n, k requires 0 <= k < n => lo + k)
  }

  lemma RangeSnoc(n: nat)
    ensures multiset(Range(0, n + 1)) == multiset(Range(0, n)) + multiset{n}
  {
    assert Range(0, n + 1) == Range(0, n) + [n];
  }

  lemma {:induction false} RangeOnce(n: nat, k: nat)
    ensures multiset(Range(0, n))[k] == if k < n then 1 else 0
  {
    if n == 0 {
      assert Range(0, 0) == [];
    } else {
      RangeOnce(n - 1, k);
      RangeSnoc(n - 1);
    }
  }
}

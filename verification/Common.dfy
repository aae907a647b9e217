/** Small types and sequence facts shared by the models. */
module Common {

  datatype Option<+T> = None | Some(value: T)

  datatype Result<+T, +E> = Ok(value: T) | Err(error: E)

  /** The numbers `0, 1, ..., n - 1` in order. */
  function Upto(n: nat): (s: seq<nat>)
    ensures |s| == n && forall i :: 0 <= i < n ==> s[i] == i
  {
    seq(n, i => i)
  }

  lemma UptoSnoc(n: nat)
    ensures Upto(n + 1) == Upto(n) + [n]
  {
  }

  ghost predicate Distinct<T>(s: seq<T>) {
    forall i, j :: 0 <= i < j < |s| ==> s[i] != s[j]
  }

  /** A sequence all of whose multiplicities are at most one has distinct elements. */
  lemma DistinctFromMultiset<T>(s: seq<T>)
    requires forall x :: x in s ==> multiset(s)[x] <= 1
    ensures Distinct(s)
  {
    forall i, j | 0 <= i < j < |s| ensures s[i] != s[j] {
      var before, after := s[..j], s[j..];
      assert s == before + after;
      assert multiset(s) == multiset(before) + multiset(after);
      assert before[i] in before && after[0] in after;
      assert multiset(s)[s[i]] >= 1 + multiset(after)[s[i]];
    }
  }

  /** Every number below `n` occurs exactly once in `Upto(n)`. */
  lemma {:induction false} UptoOnce(n: nat, x: nat)
    ensures multiset(Upto(n))[x] == if x < n then 1 else 0
  {
    if n > 0 {
      UptoSnoc(n - 1);
      UptoOnce(n - 1, x);
    }
  }

  function Below(n: nat): (s: set<nat>)
    ensures |s| == n && forall i: nat :: i in s <==> i < n
  {
    if n == 0 then {} else Below(n - 1) + {n - 1}
  }

  /** Pigeonhole: distinct numbers below `n` are at most `n` many. */
  lemma DistinctBelow(s: seq<nat>, n: nat)
    requires Distinct(s)
    requires forall i :: 0 <= i < |s| ==> s[i] < n
    ensures |s| <= n
  {
    DistinctSetSize(s);
    SubsetSize(set i | 0 <= i < |s| :: s[i], Below(n));
  }

  lemma {:induction false} DistinctSetSize<T>(s: seq<T>)
    requires Distinct(s)
    ensures |set i | 0 <= i < |s| :: s[i]| == |s|
  {
    if s != [] {
      var t := s[..|s| - 1];
      DistinctSetSize(t);
      assert (set i | 0 <= i < |s| :: s[i]) == (set i | 0 <= i < |t| :: t[i]) + {s[|s| - 1]};
    }
  }

  lemma {:induction false} SubsetSize<T>(a: set<T>, b: set<T>)
    requires a <= b
    ensures |a| <= |b|
  {
    if a != {} {
      var x :| x in a;
      SubsetSize(a - {x}, b - {x});
    }
  }
}

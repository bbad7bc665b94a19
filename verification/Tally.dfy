/** Totals over a sequence of clients: how many stand at a given point, and which
    objects they hold between them. A step moves one client, so most lemmas here say
    what one update does to a total. */
module Tally {

  function Sum<T>(s: seq<T>, w: T -> int): int {
    if s == [] then 0 else w(s[0]) + Sum(s[1..], w)
  }

  lemma {:induction false} SumUpdate<T>(s: seq<T>, i: nat, x: T, w: T -> int)
    requires i < |s|
    ensures Sum(s[i := x], w) == Sum(s, w) - w(s[i]) + w(x)
  {
    if i == 0 {
      assert s[0 := x][1..] == s[1..];
    } else {
      assert s[i := x][1..] == s[1..][i - 1 := x];
      SumUpdate(s[1..], i - 1, x, w);
    }
  }

  /** A total of terms that never grow does not grow. */
  lemma {:induction false} SumMonotone<T>(s: seq<T>, v: T -> int, t: seq<T>, w: T -> int)
    requires |s| == |t|
    requires forall k :: 0 <= k < |s| ==> v(s[k]) <= w(t[k])
    ensures Sum(s, v) <= Sum(t, w)
  {
    if s != [] {
      assert forall k :: 0 <= k < |s| - 1 ==> s[1..][k] == s[k + 1] && t[1..][k] == t[k + 1];
      SumMonotone(s[1..], v, t[1..], w);
    }
  }

  lemma {:induction false} SumZero<T>(s: seq<T>, w: T -> int)
    requires forall k :: 0 <= k < |s| ==> w(s[k]) == 0
    ensures Sum(s, w) == 0
  {
    if s != [] {
      assert forall k :: 0 <= k < |s| - 1 ==> s[1..][k] == s[k + 1];
      SumZero(s[1..], w);
    }
  }

  /** One term is at most a total of non-negative terms. */
  lemma {:induction false} SumMember<T>(s: seq<T>, i: nat, w: T -> int)
    requires i < |s|
    requires forall k :: 0 <= k < |s| ==> w(s[k]) >= 0
    ensures 0 <= w(s[i]) <= Sum(s, w)
  {
    assert forall k :: 0 <= k < |s| - 1 ==> s[1..][k] == s[k + 1];
    if i == 0 {
      SumNonNegative(s[1..], w);
    } else {
      SumMember(s[1..], i - 1, w);
    }
  }

  lemma {:induction false} SumNonNegative<T>(s: seq<T>, w: T -> int)
    requires forall k :: 0 <= k < |s| ==> w(s[k]) >= 0
    ensures Sum(s, w) >= 0
  {
    if s != [] {
      assert forall k :: 0 <= k < |s| - 1 ==> s[1..][k] == s[k + 1];
      SumNonNegative(s[1..], w);
    }
  }

  /** Two different terms fit side by side in the whole. */
  lemma {:induction false} SumPair<T>(s: seq<T>, i: nat, j: nat, w: T -> int)
    requires i < j < |s|
    requires forall k :: 0 <= k < |s| ==> w(s[k]) >= 0
    ensures w(s[i]) + w(s[j]) <= Sum(s, w)
  {
    assert forall k :: 0 <= k < |s| - 1 ==> s[1..][k] == s[k + 1];
    if i == 0 {
      SumMember(s[1..], j - 1, w);
    } else {
      SumPair(s[1..], i - 1, j - 1, w);
    }
  }

  predicate Distinct<T(==)>(q: seq<T>) { forall i, j :: 0 <= i < j < |q| ==> q[i] != q[j] }

  lemma {:induction false} DistinctCounts<T>(q: seq<T>)
    requires Distinct(q)
    ensures forall c :: multiset(q)[c] <= 1
  {
    if q != [] {
      var rest := q[1..];
      assert forall i :: 0 <= i < |rest| ==> rest[i] == q[i + 1];
      DistinctCounts(rest);
      assert q == [q[0]] + rest;
      assert q[0] !in rest;
    }
  }
}

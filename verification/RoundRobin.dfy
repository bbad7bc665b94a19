/** AsioIOServicePool (src/AsioIOServicePool.cpp): which service each call of GetIOService
    gets, and how evenly. */
module RoundRobin {

  class AsioIOServicePool {
    const size: nat
    var works: seq<nat>        // _works[i] keeps service works[i] alive
    var threads: seq<nat>      // _threads[i] runs service threads[i]
    var nextService: nat       // _nextIOService
    ghost var chosen: seq<nat> // what the calls have returned so far

    /** Call j has returned service j mod size, and the counter stands at the next one. */
    ghost predicate Valid()
      reads this
    {
      && (size > 0 ==> nextService == Counter(size, |chosen|) < size)
      && (size == 0 ==> nextService == 0 && chosen == [])
      && forall j :: 0 <= j < |chosen| ==> size > 0 && chosen[j] == j % size
    }

    constructor (size: nat)
      ensures Valid() && this.size == size && nextService == 0 && chosen == []
      ensures |works| == size && forall i :: 0 <= i < size ==> works[i] == i
      ensures |threads| == size && forall i :: 0 <= i < size ==> threads[i] == i
    {
      var guards: seq<nat> := [];
      for i := 0 to size
        invariant |guards| == i && forall j :: 0 <= j < i ==> guards[j] == j
      {
        guards := guards + [i];
      }
      var runners: seq<nat> := [];
      for i := 0 to size
        invariant |runners| == i && forall j :: 0 <= j < i ==> runners[j] == j
      {
        runners := runners + [i];
      }
      this.size, works, threads, nextService, chosen := size, guards, runners, 0, [];
    }

    /** A pool without services cannot be asked for one: the source would index an empty
        vector. */
    method GetIOService() returns (service: nat)
      requires Valid() && size > 0
      modifies this`nextService, this`chosen
      ensures Valid() && chosen == old(chosen) + [service]
      ensures service == old(nextService) == |old(chosen)| % size
      ensures nextService == Advance(size, service)
    {
      CallIndex(size, |chosen|);
      service := nextService;
      chosen := chosen + [service];
      nextService := nextService + 1;
      if nextService == size {
        nextService := 0;
      }
    }

    /** `k` callers, one after the other. */
    method GetMany(k: nat) returns (services: seq<nat>)
      requires Valid() && size > 0
      modifies this`nextService, this`chosen
      ensures Valid() && chosen == old(chosen) + services && |services| == k
      ensures forall j :: 0 <= j < k ==> services[j] == (|old(chosen)| + j) % size
    {
      services := [];
      for j := 0 to k
        invariant Valid() && chosen == old(chosen) + services && |services| == j
      {
        var service := GetIOService();
        services := services + [service];
      }
      forall j | 0 <= j < k ensures services[j] == (|old(chosen)| + j) % size {
        assert services[j] == chosen[|old(chosen)| + j];
      }
    }

    /** Between any two calls service i has been returned exactly so often. */
    lemma LoadsOf(i: nat)
      requires Valid() && i < size
      ensures multiset(chosen)[i] == (|chosen| + size - 1 - i) / size
    {
      LoadCounts(size, chosen, i);
      ExactLoad(size, |chosen|, i);
    }
  }

  /** The counter after a call that returned `service`. */
  function Advance(n: nat, service: nat): nat { if service + 1 == n then 0 else service + 1 }

  /** The counter before call `k` (calls are counted from zero). */
  function Counter(n: nat, k: nat): nat
    requires n > 0
  {
    if k == 0 then 0 else Advance(n, Counter(n, k - 1))
  }

  /** Call k returns service k mod n. */
  lemma {:induction false} CallIndex(n: nat, k: nat)
    requires n > 0
    ensures Counter(n, k) == k % n
  {
    if k > 0 {
      CallIndex(n, k - 1);
      NextMod(n, k - 1);
    }
  }

  lemma NextMod(n: nat, k: nat)
    requires n > 0
    ensures (k + 1) % n == Advance(n, k % n)
    ensures (k + 1) / n == k / n + (if (k + 1) % n == 0 then 1 else 0)
  {
    var q, r := k / n, k % n;
    if r + 1 == n {
      assert k + 1 == n * q + n == n * (q + 1) + 0;
      DivIs(n, k + 1, q + 1, 0);
    } else {
      DivIs(n, k + 1, q, r + 1);
    }
  }

  /** Quotient and remainder are determined by their equation. */
  lemma DivIs(n: nat, a: nat, q: nat, r: nat)
    requires a == n * q + r && r < n
    ensures a / n == q && a % n == r
  {
    var d := a / n - q;
    assert n * d == r - a % n by {
      assert a == n * (a / n) + a % n;
      assert n * (a / n) - n * q == n * d;
    }
    Multiples(n, d);
  }

  lemma Multiples(n: nat, d: int)
    ensures d >= 1 ==> n * d >= n
    ensures d <= -1 ==> n * d + n <= 0
  {
    if d >= 1 {
      assert n * d == n + n * (d - 1);
    } else if d <= -1 {
      assert n * d + n == n * (d + 1);
      assert n * (d + 1) == -(n * (-d - 1));
    }
  }

  lemma DivPlus(n: nat, a: nat)
    requires n > 0
    ensures (a + n) / n == a / n + 1 && (a + n) % n == a % n
  {
    var q, r := a / n, a % n;
    assert a + n == n * q + n + r == n * (q + 1) + r;
    DivIs(n, a + n, q + 1, r);
  }

  /** Going back by `i` reaches a multiple of n exactly from remainder `i`. */
  lemma ModShift(n: nat, x: nat, i: nat)
    requires i < n
    ensures (x + n - i) % n == 0 <==> x % n == i
  {
    var q, r := x / n, x % n;
    if r >= i {
      assert x + n - i == n * q + n + (r - i) == n * (q + 1) + (r - i);
      DivIs(n, x + n - i, q + 1, r - i);
    } else {
      assert x + n - i == n * q + (r + n - i);
      DivIs(n, x + n - i, q, r + n - i);
    }
  }

  lemma DivNear(n: nat, a: nat, b: nat)
    requires a <= b < a + n
    ensures a / n <= b / n <= a / n + 1
  {
    var q, r := a / n, a % n;
    var s := r + (b - a);
    if s < n {
      assert b == n * q + s;
      DivIs(n, b, q, s);
    } else {
      assert b == n * q + n + (s - n) == n * (q + 1) + (s - n);
      DivIs(n, b, q + 1, s - n);
    }
  }

  /** How many of the first `k` calls returned service `i`. */
  function Load(n: nat, k: nat, i: nat): nat
    requires n > 0
  {
    if k == 0 then 0 else Load(n, k - 1, i) + (if Counter(n, k - 1) == i then 1 else 0)
  }

  lemma {:induction false} LoadCounts(n: nat, chosen: seq<nat>, i: nat)
    requires n > 0 && forall j :: 0 <= j < |chosen| ==> chosen[j] == j % n
    ensures multiset(chosen)[i] == Load(n, |chosen|, i)
    decreases |chosen|
  {
    if chosen != [] {
      var k := |chosen| - 1;
      LoadCounts(n, chosen[..k], i);
      CallIndex(n, k);
      assert chosen == chosen[..k] + [chosen[k]];
    }
  }

  /** Exact loads: after k calls service i was chosen (k + n - 1 - i) / n times. */
  lemma {:induction false} ExactLoad(n: nat, k: nat, i: nat)
    requires i < n
    ensures Load(n, k, i) == (k + n - 1 - i) / n
  {
    if k == 0 {
      DivIs(n, n - 1 - i, 0, n - 1 - i);
    } else {
      ExactLoad(n, k - 1, i);
      CallIndex(n, k - 1);
      NextMod(n, k - 1 + n - 1 - i);
      ModShift(n, k - 1, i);
    }
  }

  /** No two services ever differ by more than one call. */
  lemma LoadsBalanced(n: nat, k: nat, i: nat, j: nat)
    requires i < j < n
    ensures Load(n, k, j) <= Load(n, k, i) <= Load(n, k, j) + 1
  {
    ExactLoad(n, k, i);
    ExactLoad(n, k, j);
    DivNear(n, k + n - 1 - j, k + n - 1 - i);
  }

  /** Every window of n consecutive calls uses every service exactly once. */
  lemma WindowIsPermutation(n: nat, k: nat, i: nat)
    requires i < n
    ensures Load(n, k + n, i) == Load(n, k, i) + 1
  {
    ExactLoad(n, k, i);
    ExactLoad(n, k + n, i);
    DivPlus(n, k + n - 1 - i);
  }
}

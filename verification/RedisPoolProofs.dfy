/** What every run of the Redis pool keeps. */
module RedisPoolProofs {
  import opened Options
  import opened Tally
  import opened RedisPoolModel

  /** The mutex excludes: exactly its owner stands at a point inside a locked region. */
  ghost predicate MutexInv(s: State) {
    && (s.mutex.Some? ==> s.At(s.mutex.value))
    && forall i: nat :: s.At(i) ==> (s.Pc(i).Holds() <==> s.mutex == Some(i))
  }

  /** What a client may rely on at its point although others run in between. */
  ghost predicate PointInv(s: State, pc: Pc) {
    && (pc.GCheck? ==> s.available != [] || s.closed)
    && (pc.GTake? ==> s.available != [] && s.h.drained == [])
    && (pc.GBlock? ==> s.available == [])
    && (pc.GUnlock? && pc.got.None? ==> s.closed)
    && (pc.CLock? || pc.CDrain? || pc.CNotify? || pc.CUnlock? ==> s.closed)
    && (pc.CNotify? || pc.CUnlock? ==> s.available == [])
    && (s.h.announced ==> !pc.GAsleep? && !pc.GBlock?)
  }

  ghost predicate FlagInv(s: State) {
    && (forall i: nat :: s.At(i) ==> PointInv(s, s.Pc(i)))
    && (!s.closed ==> s.h.drained == [] && s.h.dropped == multiset{} && !s.h.announced)
    && !s.h.fault
  }

  ghost predicate HistoryInv(s: State) {
    s.h.initial + s.h.pushed == s.h.granted + s.h.drained + s.available
  }

  /** A close() that has stored the flag but not yet notified is still under way. */
  ghost predicate ClosingInv(s: State) {
    s.closed && !s.h.announced ==>
      exists i: nat :: s.At(i) && (s.Pc(i).CLock? || s.Pc(i).CDrain? || s.Pc(i).CNotify?)
  }

  /** Clients that will take a connection or signal one: woken and not yet re-tested,
      tested and not yet taken, pushed and not yet notified. */
  function Pending(c: Client): int {
    if c.pc.GWoken? || (c.pc.GTest? && c.pc.retest) || c.pc.GCheck? || c.pc.GTake? || c.pc.RNotify? then 1 else 0
  }

  ghost predicate SomeAsleep(s: State) { exists i: nat :: s.At(i) && s.Pc(i).GAsleep? }

  ghost predicate WakeInv(s: State) {
    !s.closed && SomeAsleep(s) ==> |s.available| <= Sum(s.clients, Pending)
  }

  ghost predicate Inv(s: State) {
    MutexInv(s) && FlagInv(s) && HistoryInv(s) && ClosingInv(s) && WakeInv(s)
  }

  lemma InitInv(made: seq<Option<Conn>>, n: nat)
    ensures Inv(Init(made, n))
  {
  }

  /** A step moves its own client; of the others it can only wake some that sleep. */
  lemma Frame(s: State, a: Action)
    requires Enabled(s, a)
    ensures |Next(s, a).clients| == |s.clients|
    ensures forall j: nat :: s.At(j) && j != a.i ==>
      Next(s, a).clients[j] == s.clients[j] || Next(s, a).clients[j] == Wake(s.clients[j])
  {
  }

  /** A total that waking does not change moves with the acting client alone. */
  lemma SumStep(s: State, a: Action, w: Client -> int)
    requires Enabled(s, a)
    requires forall client :: w(Wake(client)) == w(client)
    ensures Sum(Next(s, a).clients, w) - Sum(s.clients, w) == w(Next(s, a).clients[a.i]) - w(s.clients[a.i])
  {
    if a.NotifyAll? {
      var woken := WakeAll(s.clients);
      SumMonotone(woken, w, s.clients, w);
      SumMonotone(s.clients, w, woken, w);
      SumUpdate(woken, a.i, s.clients[a.i].(pc := CUnlock), w);
    } else if a.NotifyOne? && a.waiter.Some? {
      NotifyOneMoves(s, a.i, a.waiter.value, w);
    } else {
      OnlyOwn(s, a);
      SumUpdate(s.clients, a.i, Next(s, a).clients[a.i], w);
    }
  }

  lemma OnlyOwn(s: State, a: Action)
    requires Enabled(s, a) && !a.NotifyAll? && !(a.NotifyOne? && a.waiter.Some?)
    ensures |Next(s, a).clients| == |s.clients|
    ensures Next(s, a).clients == s.clients[a.i := Next(s, a).clients[a.i]]
  {
  }

  /** notify_one moves two clients: the caller and the waiter it wakes. */
  lemma NotifyOneMoves(s: State, i: nat, j: nat, w: Client -> int)
    requires Enabled(s, NotifyOne(i, Some(j)))
    ensures var cs := Next(s, NotifyOne(i, Some(j))).clients;
      && |cs| == |s.clients| && cs[i] == s.clients[i].(pc := RUnlock) && cs[j] == Wake(s.clients[j])
      && Sum(cs, w) == Sum(s.clients, w) - w(s.clients[j]) + w(cs[j]) - w(s.clients[i]) + w(cs[i])
  {
    var woken, done := Wake(s.clients[j]), s.clients[i].(pc := RUnlock);
    SumUpdate(s.clients, j, woken, w);
    SumUpdate(s.clients[j := woken], i, done, w);
  }

  /** The mutex changes hands only between nobody and the acting client. */
  predicate Handled(before: Option<nat>, after: Option<nat>, i: nat, held: bool, holds: bool) {
    || (after == before && holds == held)
    || (before.None? && after == Some(i) && holds)
    || (held && after.None? && !holds)
  }

  lemma OwnMutexStep(s: State, a: Action)
    requires Enabled(s, a)
    ensures |Next(s, a).clients| == |s.clients|
    ensures Handled(s.mutex, Next(s, a).mutex, a.i, s.Pc(a.i).Holds(), Next(s, a).Pc(a.i).Holds())
  {
    if !a.Lock? && !a.Unlock? && !a.Block? {
      MutexUntouched(s, a);
      PointStaysLocked(s, a);
    }
  }

  lemma MutexUntouched(s: State, a: Action)
    requires Enabled(s, a) && !a.Lock? && !a.Unlock? && !a.Block?
    ensures Next(s, a).mutex == s.mutex
  {
  }

  lemma PointStaysLocked(s: State, a: Action)
    requires Enabled(s, a) && !a.Lock? && !a.Unlock? && !a.Block?
    ensures |Next(s, a).clients| == |s.clients|
    ensures Next(s, a).Pc(a.i).Holds() == s.Pc(a.i).Holds()
  {
  }

  lemma MutexStep(s: State, a: Action)
    requires MutexInv(s) && Enabled(s, a)
    ensures MutexInv(Next(s, a))
  {
    var s' := Next(s, a);
    Frame(s, a);
    OwnMutexStep(s, a);
    assert s.Pc(a.i).Holds() <==> s.mutex == Some(a.i);
    MutexTransfers(s, s', a.i);
  }

  lemma MutexTransfers(s: State, s': State, i: nat)
    requires MutexInv(s) && s.At(i) && |s'.clients| == |s.clients|
    requires Handled(s.mutex, s'.mutex, i, s.Pc(i).Holds(), s'.Pc(i).Holds())
    requires forall j: nat :: s.At(j) && j != i ==> s'.clients[j] == s.clients[j] || s'.clients[j] == Wake(s.clients[j])
    ensures MutexInv(s')
  {
    forall j: nat | s'.At(j) ensures s'.Pc(j).Holds() <==> s'.mutex == Some(j) {
      assert s.Pc(j).Holds() <==> s.mutex == Some(j);
      assert s.Pc(i).Holds() <==> s.mutex == Some(i);
    }
  }

  lemma FlagStep(s: State, a: Action)
    requires MutexInv(s) && FlagInv(s) && Enabled(s, a)
    ensures FlagInv(Next(s, a))
  {
    var s' := Next(s, a);
    Frame(s, a);
    OwnPoint(s, a);
    forall j: nat | s'.At(j) && j != a.i
      ensures PointInv(s', s'.Pc(j))
    {
      assert PointInv(s, s.Pc(j));
      assert s.Pc(j).Holds() ==> s.mutex == Some(j);
      assert s.Pc(a.i).Holds() ==> s.mutex == Some(a.i);
    }
  }

  lemma OwnPoint(s: State, a: Action)
    requires FlagInv(s) && Enabled(s, a)
    ensures |Next(s, a).clients| == |s.clients| && PointInv(Next(s, a), Next(s, a).Pc(a.i))
    ensures !Next(s, a).h.fault
  {
    assert PointInv(s, s.Pc(a.i));
  }

  lemma HistoryStep(s: State, a: Action)
    requires FlagInv(s) && HistoryInv(s) && Enabled(s, a)
    ensures HistoryInv(Next(s, a))
  {
    assert PointInv(s, s.Pc(a.i));
    if a.Take? {
      assert s.available == [s.available[0]] + s.available[1..];
    } else if a.Push? {
      var last := [s.Pc(a.i).c];
      assert s.h.initial + (s.h.pushed + last) == s.h.initial + s.h.pushed + last;
      assert s.h.granted + s.h.drained + (s.available + last) == s.h.granted + s.h.drained + s.available + last;
    } else if a.Drain? {
      assert s.h.granted + (s.h.drained + s.available) + [] == s.h.granted + s.h.drained + s.available;
    }
  }

  lemma ClosingStep(s: State, a: Action)
    requires FlagInv(s) && ClosingInv(s) && Enabled(s, a)
    ensures ClosingInv(Next(s, a))
  {
    var s' := Next(s, a);
    Frame(s, a);
    if s'.closed && !s'.h.announced {
      if a.StoreClosed? {
        assert s'.Pc(a.i).CLock?;
      } else {
        var i: nat :| s.At(i) && (s.Pc(i).CLock? || s.Pc(i).CDrain? || s.Pc(i).CNotify?);
        assert s'.Pc(i).CLock? || s'.Pc(i).CDrain? || s'.Pc(i).CNotify?;
      }
    }
  }

  /** How one step changes the number of pending clients while the pool is open. */
  lemma PendingStep(s: State, a: Action)
    requires FlagInv(s) && Enabled(s, a) && !a.NotifyAll?
    ensures Sum(Next(s, a).clients, Pending) - Sum(s.clients, Pending)
         == Pending(Next(s, a).clients[a.i]) - Pending(s.clients[a.i])
            + (if a.NotifyOne? && a.waiter.Some? then 1 else 0)
  {
    if a.NotifyOne? && a.waiter.Some? {
      NotifyOneMoves(s, a.i, a.waiter.value, Pending);
    } else {
      OnlyOwn(s, a);
      SumUpdate(s.clients, a.i, Next(s, a).clients[a.i], Pending);
    }
  }

  /** A step that leaves the pool open and somebody asleep keeps the balance. */
  lemma BalanceStep(s: State, a: Action)
    requires FlagInv(s) && Enabled(s, a) && !Next(s, a).closed && !a.NotifyAll?
    requires |s.available| <= Sum(s.clients, Pending)
    requires a.NotifyOne? ==> a.waiter.Some?
    ensures |Next(s, a).available| <= Sum(Next(s, a).clients, Pending)
  {
    Frame(s, a);
    assert PointInv(s, s.Pc(a.i));
    PendingStep(s, a);
    if Next(s, a).available == [] {
      SumNonNegative(Next(s, a).clients, Pending);
    }
  }

  lemma WakeStep(s: State, a: Action)
    requires FlagInv(s) && WakeInv(s) && Enabled(s, a)
    ensures WakeInv(Next(s, a))
  {
    var s' := Next(s, a);
    Frame(s, a);
    assert PointInv(s, s.Pc(a.i));
    if !s'.closed && SomeAsleep(s') {
      if a.Block? {
        SumNonNegative(s'.clients, Pending);
      } else {
        var j: nat :| s'.At(j) && s'.Pc(j).GAsleep?;
        assert s.Pc(j).GAsleep?;
        BalanceStep(s, a);
      }
    }
  }

  lemma StepInv(s: State, a: Action)
    requires Inv(s) && Enabled(s, a)
    ensures Inv(Next(s, a))
  {
    MutexStep(s, a);
    FlagStep(s, a);
    HistoryStep(s, a);
    ClosingStep(s, a);
    WakeStep(s, a);
  }

  lemma {:induction false} RunInv(s: State, acts: seq<Action>)
    requires Inv(s) && CanRun(s, acts)
    ensures Inv(Run(s, acts))
    decreases acts
  {
    if acts != [] {
      StepInv(s, acts[0]);
      RunInv(Next(s, acts[0]), acts[1..]);
    }
  }
}

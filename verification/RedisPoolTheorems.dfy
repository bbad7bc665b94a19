/** What callers of the Redis pool may rely on, over every run from construction. */
module RedisPoolTheorems {
  import opened Options
  import opened Tally
  import opened RedisPoolModel
  import opened RedisPoolProofs

  ghost predicate Reachable(s: State, made: seq<Option<Conn>>, n: nat, acts: seq<Action>) {
    CanRun(Init(made, n), acts) && s == Run(Init(made, n), acts)
  }

  lemma ReachableInv(s: State, made: seq<Option<Conn>>, n: nat, acts: seq<Action>)
    requires Reachable(s, made, n, acts)
    ensures Inv(s) && s.h.initial == NonNull(made) && |s.clients| == n
  {
    InitInv(made, n);
    RunInv(Init(made, n), acts);
    RunGrows(Init(made, n), acts);
  }

  /** A run goes on by one step. */
  lemma {:induction false} RunSnoc(s: State, acts: seq<Action>, a: Action)
    requires CanRun(s, acts) && Enabled(Run(s, acts), a)
    ensures CanRun(s, acts + [a]) && Run(s, acts + [a]) == Next(Run(s, acts), a)
    decreases acts
  {
    if acts == [] {
      assert [a][1..] == [] && CanRun(Next(s, a), []);
      assert acts + [a] == [a];
    } else {
      RunSnoc(Next(s, acts[0]), acts[1..], a);
      assert (acts + [a])[1..] == acts[1..] + [a];
    }
  }

  /** Histories only grow, the flag is never cleared, nobody joins or leaves. */
  ghost predicate Grows(s: State, s': State) {
    && s'.h.initial == s.h.initial && |s'.clients| == |s.clients|
    && s.h.pushed <= s'.h.pushed && s.h.granted <= s'.h.granted && s.h.drained <= s'.h.drained
    && (s.closed ==> s'.closed) && (s.h.announced ==> s'.h.announced)
  }

  lemma StepGrows(s: State, a: Action)
    requires Enabled(s, a)
    ensures Grows(s, Next(s, a))
  {
    Frame(s, a);
  }

  lemma {:induction false} RunGrows(s: State, acts: seq<Action>)
    requires CanRun(s, acts)
    ensures Grows(s, Run(s, acts))
    decreases acts
  {
    if acts != [] {
      StepGrows(s, acts[0]);
      RunGrows(Next(s, acts[0]), acts[1..]);
    }
  }

  /** front() and pop() never meet an empty queue, whenever the flag changes. */
  lemma FrontNeverEmpty(s: State, made: seq<Option<Conn>>, n: nat, acts: seq<Action>)
    requires Reachable(s, made, n, acts)
    ensures !s.h.fault
    ensures forall i: nat :: Enabled(s, Take(i)) ==> s.available != []
  {
    ReachableInv(s, made, n, acts);
    forall i: nat | Enabled(s, Take(i)) ensures s.available != [] {
      assert PointInv(s, s.Pc(i));
    }
  }

  function IsWoken(c: Client): int { if c.pc.GWoken? then 1 else 0 }

  /** No lost wake-up. While the pool is open and somebody sleeps un-notified, every free
      connection is matched by a client on its way to take or signal one; when the mutex
      is free these are exactly the notified clients that have not re-tested yet, and if a
      connection is free one of them can go on. */
  lemma NoLostWakeup(s: State, made: seq<Option<Conn>>, n: nat, acts: seq<Action>)
    requires Reachable(s, made, n, acts)
    requires !s.closed && SomeAsleep(s)
    ensures |s.available| <= Sum(s.clients, Pending)
    ensures s.mutex.None? ==> |s.available| <= Sum(s.clients, IsWoken)
    ensures s.mutex.None? && s.available != [] ==> exists i: nat :: s.At(i) && s.Pc(i).GWoken? && Enabled(s, Lock(i))
  {
    ReachableInv(s, made, n, acts);
    if s.mutex.None? {
      forall k | 0 <= k < |s.clients| ensures Pending(s.clients[k]) <= IsWoken(s.clients[k]) {
        assert s.At(k) && !s.Pc(k).Holds();
      }
      SumMonotone(s.clients, Pending, s.clients, IsWoken);
      if s.available != [] && forall k: nat :: s.At(k) ==> !s.Pc(k).GWoken? {
        forall k | 0 <= k < |s.clients| ensures IsWoken(s.clients[k]) == 0 {
          assert s.At(k) && !s.Pc(k).GWoken?;
        }
        SumZero(s.clients, IsWoken);
      }
    }
  }

  /** What was put in comes out in the same order, also across close(). */
  lemma FifoHistory(s: State, made: seq<Option<Conn>>, n: nat, acts: seq<Action>)
    requires Reachable(s, made, n, acts)
    ensures NonNull(made) + s.h.pushed == s.h.granted + s.h.drained + s.available
    ensures !s.closed ==> NonNull(made) + s.h.pushed == s.h.granted + s.available
  {
    ReachableInv(s, made, n, acts);
  }

  /** Once the flag is set, only the client that already passed both tests still gets a
      connection. */
  ghost predicate Committed(s: State, i: nat) {
    s.At(i) && (s.Pc(i).GTake? || (s.Pc(i).GUnlock? && s.Pc(i).got.Some?))
  }

  lemma {:induction false} ClosedCommits(s: State, i: nat, more: seq<Action>)
    requires s.closed && CanRun(s, more) && !Committed(s, i)
    ensures !Committed(Run(s, more), i)
    decreases more
  {
    if more != [] {
      Frame(s, more[0]);
      ClosedCommits(Next(s, more[0]), i, more[1..]);
    }
  }

  /** Every getConnection whose closed test comes after the store returns null: a client
      not yet committed when the flag is set never leaves with a connection, in this call
      or in a later one. */
  lemma ClosedGetsNull(s: State, i: nat, more: seq<Action>)
    requires s.closed && CanRun(s, more) && !Committed(s, i)
    ensures var s' := Run(s, more); s'.At(i) && s'.Pc(i).GUnlock? ==> s'.Pc(i).got == None
  {
    ClosedCommits(s, i, more);
  }

  lemma {:induction false} DrainedGrantsNothing(s: State, more: seq<Action>)
    requires Inv(s) && s.h.drained != [] && CanRun(s, more)
    ensures Run(s, more).h.granted == s.h.granted
    decreases more
  {
    if more != [] {
      assert PointInv(s, s.Pc(more[0].i));
      StepInv(s, more[0]);
      DrainedGrantsNothing(Next(s, more[0]), more[1..]);
    }
  }

  /** A returned connection is reused after exactly as many grants as connections were
      queued ahead of it when it was pushed. */
  lemma ReuseOrder(s: State, made: seq<Option<Conn>>, n: nat, acts: seq<Action>, i: nat, more: seq<Action>)
    requires Reachable(s, made, n, acts)
    requires Enabled(s, Push(i)) && CanRun(Next(s, Push(i)), more)
    ensures var later := Run(Next(s, Push(i)), more);
      var turn := |s.h.granted| + |s.available|;
      turn < |later.h.granted| ==> later.h.granted[turn] == s.Pc(i).c
  {
    ReachableInv(s, made, n, acts);
    var s1 := Next(s, Push(i));
    StepInv(s, Push(i));
    var later := Run(s1, more);
    RunInv(s1, more);
    RunGrows(s1, more);
    if s.h.drained != [] {
      DrainedGrantsNothing(s1, more);
    } else {
      var turn := |s.h.granted| + |s.available|;
      assert |s.h.initial + s.h.pushed| == turn;
      assert (s1.h.initial + s1.h.pushed)[turn] == s.Pc(i).c;
      assert (later.h.initial + later.h.pushed)[turn] == s.Pc(i).c;
      if turn < |later.h.granted| {
        assert (later.h.granted + later.h.drained + later.available)[turn] == later.h.granted[turn];
      }
    }
  }

  /** close() wakes everyone: once its notify_all has run, nobody is asleep un-notified in
      any later state. */
  lemma CloseWakesEveryone(s: State, made: seq<Option<Conn>>, n: nat, acts: seq<Action>, more: seq<Action>)
    requires Reachable(s, made, n, acts) && s.h.announced && CanRun(s, more)
    ensures !SomeAsleep(Run(s, more))
  {
    ReachableInv(s, made, n, acts);
    RunInv(s, more);
    RunGrows(s, more);
    var s' := Run(s, more);
    forall i: nat | s'.At(i) ensures !s'.Pc(i).GAsleep? {
      assert PointInv(s', s'.Pc(i));
    }
  }

  /** How many more steps a client can make inside its call once the flag is set. */
  function Rank(c: Client): int {
    match c.pc
    case Idle => 0
    case GBlock => 7
    case GAsleep => 6
    case GLock => 5
    case GWoken => 5
    case RTest(_) => 5
    case CStore => 5
    case GTest(_) => 4
    case RLock(_) => 4
    case CLock => 4
    case GCheck => 3
    case RPush(_) => 3
    case CDrain => 3
    case GTake => 2
    case RNotify => 2
    case CNotify => 2
    case GUnlock(_) => 1
    case RUnlock => 1
    case CUnlock => 1
  }

  lemma RankStep(s: State, a: Action)
    requires s.closed && Enabled(s, a) && a.Internal()
    ensures Sum(Next(s, a).clients, Rank) < Sum(s.clients, Rank)
  {
    if a.NotifyAll? {
      NotifyAllRank(s, a.i);
    } else if a.NotifyOne? && a.waiter.Some? {
      NotifyOneMoves(s, a.i, a.waiter.value, Rank);
    } else {
      OwnRankStep(s, a);
      OnlyOwn(s, a);
      SumUpdate(s.clients, a.i, Next(s, a).clients[a.i], Rank);
    }
  }

  lemma NotifyAllRank(s: State, i: nat)
    requires Enabled(s, NotifyAll(i))
    ensures Sum(Next(s, NotifyAll(i)).clients, Rank) < Sum(s.clients, Rank)
  {
    var woken := WakeAll(s.clients);
    SumMonotone(woken, Rank, s.clients, Rank);
    SumUpdate(woken, i, s.clients[i].(pc := CUnlock), Rank);
  }

  lemma OwnRankStep(s: State, a: Action)
    requires s.closed && Enabled(s, a) && a.Internal()
    ensures Rank(Next(s, a).clients[a.i]) < Rank(s.clients[a.i])
  {
  }

  ghost predicate AllInternal(acts: seq<Action>) { forall k :: 0 <= k < |acts| ==> acts[k].Internal() }

  lemma {:induction false} ClosedRunIsShort(s: State, more: seq<Action>)
    requires s.closed && CanRun(s, more) && AllInternal(more)
    ensures |more| + Sum(Run(s, more).clients, Rank) <= Sum(s.clients, Rank)
    decreases more
  {
    if more != [] {
      RankStep(s, more[0]);
      assert more[0].Internal();
      assert forall k :: 0 <= k < |more| - 1 ==> more[1..][k] == more[k + 1];
      ClosedRunIsShort(Next(s, more[0]), more[1..]);
    }
  }

  /** The internal step that client `i` is ready for, when it is not waiting for others. */
  ghost function Ready(s: State, i: nat): Action
    requires s.At(i)
  {
    match s.Pc(i)
    case GTest(_) => Test(i)
    case GBlock => Block(i)
    case GCheck => Check(i)
    case GTake => Take(i)
    case GUnlock(_) => Unlock(i)
    case RTest(_) => TestReturn(i)
    case RPush(_) => Push(i)
    case RNotify =>
      if exists w: nat :: s.At(w) && s.Pc(w).GAsleep?
      then (var w: nat :| s.At(w) && s.Pc(w).GAsleep?; NotifyOne(i, Some(w)))
      else NotifyOne(i, None)
    case RUnlock => Unlock(i)
    case CStore => StoreClosed(i)
    case CDrain => Drain(i)
    case CNotify => NotifyAll(i)
    case CUnlock => Unlock(i)
    case _ => Lock(i)
  }

  ghost predicate CanStep(s: State) {
    exists a: Action :: Enabled(s, a) && a.Internal() && !a.SpuriousWake?
  }

  /** After the flag is set no call in progress can be stuck for good. */
  lemma ClosedNeverStuck(s: State, i: nat)
    requires Inv(s) && s.closed && s.At(i) && !s.Pc(i).Idle?
    ensures CanStep(s)
  {
    if s.mutex.Some? {
      var owner := s.mutex.value;
      assert s.Pc(owner).Holds();
      assert Enabled(s, Ready(s, owner)) && Ready(s, owner).Internal();
    } else if s.Pc(i).GAsleep? {
      assert PointInv(s, s.Pc(i));
      assert !s.h.announced;
      var j: nat :| s.At(j) && (s.Pc(j).CLock? || s.Pc(j).CDrain? || s.Pc(j).CNotify?);
      assert !s.Pc(j).Holds();
      assert Enabled(s, Lock(j));
    } else {
      assert !s.Pc(i).Holds();
      assert Enabled(s, Ready(s, i)) && Ready(s, i).Internal();
    }
  }

  /** close() settles the pool: from the moment the flag is set, with no new calls, every
      run is bounded, and one that cannot go on has finished every call in progress, the
      sleeping getters included, without the help of a spurious wake-up. */
  lemma CloseSettles(s: State, made: seq<Option<Conn>>, n: nat, acts: seq<Action>, more: seq<Action>)
    requires Reachable(s, made, n, acts) && s.closed
    requires CanRun(s, more) && AllInternal(more)
    ensures |more| <= Sum(s.clients, Rank)
    ensures CanStep(Run(s, more)) || forall i: nat :: i < n ==> Run(s, more).At(i) && Run(s, more).Pc(i).Idle?
  {
    ReachableInv(s, made, n, acts);
    ClosedRunIsShort(s, more);
    RunInv(s, more);
    RunGrows(s, more);
    var s' := Run(s, more);
    SumNonNegative(s'.clients, Rank);
    if i: nat :| i < n && !s'.Pc(i).Idle? {
      ClosedNeverStuck(s', i);
    }
  }

  /** The queue that close() drained can fill again: this holds for some continuation
      exactly when, at the drain, a returnConnection has passed its closed test and waits
      for the mutex. */
  lemma DrainIsFinalUnlessLateReturn(s: State, made: seq<Option<Conn>>, n: nat, acts: seq<Action>, i: nat)
    requires Reachable(s, made, n, acts) && Enabled(s, Drain(i))
    ensures (exists j: nat :: s.At(j) && s.Pc(j).RLock?)
       <==> (exists more :: CanRun(Next(s, Drain(i)), more) && Run(Next(s, Drain(i)), more).available != [])
  {
    ReachableInv(s, made, n, acts);
    var s1 := Next(s, Drain(i));
    if j: nat :| s.At(j) && s.Pc(j).RLock? {
      LateReturnPushes(s, i, j);
    } else {
      assert PointInv(s, s.Pc(i));
      forall j: nat | s1.At(j) ensures !s1.Pc(j).RLock? && !s1.Pc(j).RPush? {
        assert s.Pc(j).Holds() ==> s.mutex == Some(j);
        assert s.Pc(i).Holds();
      }
      forall more | CanRun(s1, more) ensures Run(s1, more).available == [] {
        StaysDrained(s1, more);
      }
    }
  }

  lemma LateReturnPushes(s: State, i: nat, j: nat)
    requires Inv(s) && Enabled(s, Drain(i)) && s.At(j) && s.Pc(j).RLock?
    ensures exists more :: CanRun(Next(s, Drain(i)), more) && Run(Next(s, Drain(i)), more).available != []
  {
    var s1 := Next(s, Drain(i));
    var s2 := Next(s1, NotifyAll(i));
    var s3 := Next(s2, Unlock(i));
    var s4 := Next(s3, Lock(j));
    assert s4.Pc(j).RPush?;
    var s5 := Next(s4, Push(j));
    var more := [NotifyAll(i), Unlock(i), Lock(j), Push(j)];
    RunFour(s1, NotifyAll(i), Unlock(i), Lock(j), Push(j));
    assert CanRun(s1, more) && Run(s1, more) == s5;
    assert s5.available != [];
  }

  lemma RunFour(s: State, a: Action, b: Action, c: Action, d: Action)
    requires Enabled(s, a) && Enabled(Next(s, a), b) && Enabled(Next(Next(s, a), b), c)
    requires Enabled(Next(Next(Next(s, a), b), c), d)
    ensures CanRun(s, [a, b, c, d]) && Run(s, [a, b, c, d]) == Next(Next(Next(Next(s, a), b), c), d)
  {
    var s1, s2, s3 := Next(s, a), Next(Next(s, a), b), Next(Next(Next(s, a), b), c);
    var s4 := Next(s3, d);
    assert [d][1..] == [] && CanRun(s4, []) && CanRun(s3, [d]) && Run(s3, [d]) == s4;
    assert [c, d][1..] == [d] && CanRun(s2, [c, d]) && Run(s2, [c, d]) == s4;
    assert [b, c, d][1..] == [c, d] && CanRun(s1, [b, c, d]) && Run(s1, [b, c, d]) == s4;
    assert [a, b, c, d][1..] == [b, c, d];
  }

  lemma {:induction false} StaysDrained(s: State, more: seq<Action>)
    requires s.closed && s.available == [] && CanRun(s, more)
    requires forall j: nat :: s.At(j) ==> !s.Pc(j).RLock? && !s.Pc(j).RPush?
    ensures Run(s, more).available == []
    decreases more
  {
    if more != [] {
      var a, s' := more[0], Next(s, more[0]);
      Frame(s, a);
      forall j: nat | s'.At(j) ensures !s'.Pc(j).RLock? && !s'.Pc(j).RPush? {
        assert !s.Pc(j).RLock? && !s.Pc(j).RPush?;
        assert !s.Pc(a.i).RLock? && !s.Pc(a.i).RPush?;
      }
      StaysDrained(s', more[1..]);
    }
  }
}

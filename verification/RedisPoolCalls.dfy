/** What the calls of the Redis pool do from start to end: a get hands out what it took off
    the queue, or null from a closed pool only; a close leaves the pool closed, everybody
    woken and the queue empty. */
module RedisPoolCalls {
  import opened Options
  import opened RedisPoolModel
  import opened RedisPoolProofs
  import opened RedisPoolTheorems

  /** The connection at the end of a get is the one that left the queue last. */
  ghost predicate GrantInv(s: State) {
    forall i: nat :: s.At(i) && s.Pc(i).GUnlock? && s.Pc(i).got.Some? ==>
      s.h.granted != [] && s.Pc(i).got.value == s.h.granted[|s.h.granted| - 1]
  }

  lemma GrantStep(s: State, a: Action)
    requires Inv(s) && GrantInv(s) && Enabled(s, a)
    ensures GrantInv(Next(s, a))
  {
    var s' := Next(s, a);
    Frame(s, a);
    assert PointInv(s, s.Pc(a.i));
    assert s.Pc(a.i).Holds() <==> s.mutex == Some(a.i);
    forall i: nat | s'.At(i) && s'.Pc(i).GUnlock? && s'.Pc(i).got.Some?
      ensures s'.h.granted != [] && s'.Pc(i).got.value == s'.h.granted[|s'.h.granted| - 1]
    {
      assert s.Pc(i).Holds() <==> s.mutex == Some(i);
    }
  }

  lemma {:induction false} GrantRun(s: State, acts: seq<Action>)
    requires Inv(s) && GrantInv(s) && CanRun(s, acts)
    ensures GrantInv(Run(s, acts))
    decreases acts
  {
    if acts != [] {
      StepInv(s, acts[0]);
      GrantStep(s, acts[0]);
      GrantRun(Next(s, acts[0]), acts[1..]);
    }
  }

  /** A get that is about to return has the connection that was taken off the front of the
      queue last, or has null because the pool is closed. */
  lemma GetHandsOutTheGrant(s: State, made: seq<Option<Conn>>, n: nat, acts: seq<Action>, i: nat)
    requires Reachable(s, made, n, acts) && s.At(i) && s.Pc(i).GUnlock?
    ensures s.Pc(i).got.Some? ==> s.h.granted != [] && s.Pc(i).got.value == s.h.granted[|s.h.granted| - 1]
    ensures s.Pc(i).got.None? ==> s.closed
  {
    ReachableInv(s, made, n, acts);
    assert PointInv(s, s.Pc(i));
    InitInv(made, n);
    GrantRun(Init(made, n), acts);
  }

  /** A close that goes on to notify, or is about to return, has left the queue empty. */
  lemma CloseEmptiesQueue(s: State, made: seq<Option<Conn>>, n: nat, acts: seq<Action>, i: nat)
    requires Reachable(s, made, n, acts) && s.At(i) && (s.Pc(i).CNotify? || s.Pc(i).CUnlock?)
    ensures s.available == [] && s.closed
  {
    ReachableInv(s, made, n, acts);
    assert PointInv(s, s.Pc(i));
  }

  /** No return is past its closed test. */
  ghost predicate NoLateReturn(s: State) {
    forall j: nat :: s.At(j) ==> !s.Pc(j).RLock? && !s.Pc(j).RPush?
  }

  lemma NoLateStep(s: State, a: Action)
    requires s.closed && NoLateReturn(s) && Enabled(s, a)
    ensures NoLateReturn(Next(s, a)) && Next(s, a).closed
    ensures Next(s, a).available == [] || Next(s, a).available == s.available || a.Take?
  {
    Frame(s, a);
    forall j: nat | Next(s, a).At(j) ensures !Next(s, a).Pc(j).RLock? && !Next(s, a).Pc(j).RPush? {
      assert !s.Pc(j).RLock? && !s.Pc(j).RPush?;
      assert !s.Pc(a.i).RLock? && !s.Pc(a.i).RPush?;
    }
  }

  lemma {:induction false} EmptyOnceAnnounced(s: State, more: seq<Action>)
    requires Inv(s) && s.closed && NoLateReturn(s) && (s.h.announced ==> s.available == [])
    requires CanRun(s, more)
    ensures Run(s, more).h.announced ==> Run(s, more).available == []
    decreases more
  {
    if more != [] {
      assert PointInv(s, s.Pc(more[0].i));
      StepInv(s, more[0]);
      NoLateStep(s, more[0]);
      EmptyOnceAnnounced(Next(s, more[0]), more[1..]);
    }
  }

  /** If no return is past its closed test when the flag goes up, the queue is empty for
      good once close has notified. */
  lemma CloseIsFinal(s: State, made: seq<Option<Conn>>, n: nat, acts: seq<Action>, i: nat, more: seq<Action>)
    requires Reachable(s, made, n, acts) && !s.closed && NoLateReturn(s) && Enabled(s, StoreClosed(i))
    requires CanRun(Next(s, StoreClosed(i)), more)
    ensures Run(Next(s, StoreClosed(i)), more).h.announced ==> Run(Next(s, StoreClosed(i)), more).available == []
  {
    ReachableInv(s, made, n, acts);
    var s' := Next(s, StoreClosed(i));
    StepInv(s, StoreClosed(i));
    forall j: nat | s'.At(j) ensures !s'.Pc(j).RLock? && !s'.Pc(j).RPush? {
      assert !s.Pc(j).RLock? && !s.Pc(j).RPush?;
    }
    EmptyOnceAnnounced(s', more);
  }

  /** The caller of close is still before its notify, or the pool is closed and everybody
      has been notified. */
  ghost predicate ClosingOrDone(s: State, i: nat) {
    && s.At(i)
    && (s.Pc(i).CStore? || s.Pc(i).CLock? || s.Pc(i).CDrain? || s.Pc(i).CNotify? || (s.closed && s.h.announced))
  }

  lemma {:induction false} CloseGoesOn(s: State, i: nat, more: seq<Action>)
    requires Inv(s) && ClosingOrDone(s, i) && CanRun(s, more)
    ensures ClosingOrDone(Run(s, more), i)
    decreases more
  {
    if more != [] {
      assert PointInv(s, s.Pc(i));
      Frame(s, more[0]);
      StepInv(s, more[0]);
      CloseGoesOn(Next(s, more[0]), i, more[1..]);
    }
  }

  /** Whoever has called close and is back from it leaves a closed pool with everybody
      notified, whatever else ran in between. */
  lemma CloseDoesItsWork(s: State, made: seq<Option<Conn>>, n: nat, acts: seq<Action>, i: nat, more: seq<Action>)
    requires Reachable(s, made, n, acts) && Enabled(s, BeginClose(i)) && CanRun(Next(s, BeginClose(i)), more)
    ensures var s' := Run(Next(s, BeginClose(i)), more);
      s'.At(i) && (s'.Pc(i).Idle? ==> s'.closed && s'.h.announced && !SomeAsleep(s'))
  {
    ReachableInv(s, made, n, acts);
    StepInv(s, BeginClose(i));
    RunInv(Next(s, BeginClose(i)), more);
    CloseGoesOn(Next(s, BeginClose(i)), i, more);
    var s' := Run(Next(s, BeginClose(i)), more);
    forall j: nat | s'.At(j) && s'.h.announced ensures !s'.Pc(j).GAsleep? {
      assert PointInv(s', s'.Pc(j));
    }
  }
}

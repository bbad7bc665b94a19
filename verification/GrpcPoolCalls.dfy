/** What the calls of the gRPC pools do from start to end: a get hands out what it took off
    the queue, or null from a stopped pool only, which it does not wait for; a stop sets the
    flag and wakes whoever was asleep. */
module GrpcPoolCalls {
  import opened Options
  import opened GrpcPoolModel
  import opened GrpcPoolProofs

  ghost predicate LastGranted(side: Side, x: Item) {
    side.granted != [] && x == side.granted[|side.granted| - 1]
  }

  /** The item at the end of a get is the one that left its queue last. */
  ghost predicate GrantInv(s: State) {
    forall i: nat :: s.At(i) && s.clients[i].GUnlock? && s.clients[i].got.Some? ==>
      LastGranted(s.Of(s.clients[i].k), s.clients[i].got.value)
  }

  lemma GrantStep(s: State, a: Action)
    requires MutexInv(s) && FlagInv(s) && GrantInv(s) && Enabled(s, a)
    ensures GrantInv(Next(s, a))
  {
    var s' := Next(s, a);
    Frame(s, a);
    OwnGrant(s, a);
    forall i: nat | s'.At(i) && i != a.i && s'.clients[i].GUnlock? && s'.clients[i].got.Some?
      ensures LastGranted(s'.Of(s'.clients[i].k), s'.clients[i].got.value)
    {
      GrantedKept(s, a, i);
    }
  }

  lemma OwnGrant(s: State, a: Action)
    requires FlagInv(s) && Enabled(s, a)
    ensures |Next(s, a).clients| == |s.clients|
    ensures var pc := Next(s, a).clients[a.i];
      pc.GUnlock? && pc.got.Some? ==> LastGranted(Next(s, a).Of(pc.k), pc.got.value)
  {
    assert PointInv(s, s.clients[a.i]);
  }

  /** Nobody else takes from a queue while a client is inside its mutex. */
  lemma GrantedKept(s: State, a: Action, j: nat)
    requires MutexInv(s) && Enabled(s, a) && s.At(j) && j != a.i && s.clients[j].GUnlock?
    ensures Next(s, a).Of(s.clients[j].k).granted == s.Of(s.clients[j].k).granted
  {
    var k := s.clients[j].k;
    assert s.clients[j].Holds(k) <==> s.Of(k).mutex == Some(j);
    assert s.clients[a.i].Holds(k) <==> s.Of(k).mutex == Some(a.i);
  }

  lemma {:induction false} GrantRun(s: State, acts: seq<Action>)
    requires Inv(s) && GrantInv(s) && CanRun(s, acts)
    ensures GrantInv(Run(s, acts))
    decreases acts
  {
    if acts != [] {
      StepInv(s, acts[0]);
      GrantStep(s, acts[0]);
      GrantRun(Next(s, acts[0]), acts[1..]);
    }
  }

  /** A get that is about to return has the item that was taken off the front of its queue
      last, or has null because the pool is stopped. */
  lemma GetHandsOutTheGrant(s: State, stubs: seq<Item>, channels: seq<Item>, n: nat, acts: seq<Action>, i: nat)
    requires Reachable(s, stubs, channels, n, acts) && s.At(i) && s.clients[i].GUnlock?
    ensures s.clients[i].got.Some? ==> LastGranted(s.Of(s.clients[i].k), s.clients[i].got.value)
    ensures s.clients[i].got.None? ==> s.stop
  {
    ReachableInv(s, stubs, channels, n, acts);
    assert PointInv(s, s.clients[i]);
    InitInv(stubs, channels, n);
    GrantRun(Init(stubs, channels, n), acts);
  }

  /** Inside the wait of a get, or past it. */
  predicate Waiting(pc: Pc) { pc.GTest? || pc.GBlock? || pc.GAsleep? || pc.GWoken? || pc.GCheck? || pc.GTake? }

  /** Whoever is not waiting when the pool is stopped never waits again: a get that reads
      the flag afterwards returns null at once. */
  lemma {:induction false} StoppedNeverWaits(s: State, i: nat, more: seq<Action>)
    requires s.stop && s.At(i) && !Waiting(s.clients[i]) && CanRun(s, more)
    ensures Run(s, more).At(i) && !Waiting(Run(s, more).clients[i])
    decreases more
  {
    if more != [] {
      Frame(s, more[0]);
      StoppedNeverWaits(Next(s, more[0]), i, more[1..]);
    }
  }

  /** Client `i` is inside stop() and has yet to notify pool `k`. */
  predicate YetToNotify(pc: Pc, k: Kind) { pc.SStore? || pc.SNotifyChannel? || (pc.SNotifyStub? && k.Stub?) }

  ghost predicate NoStepOf(acts: seq<Action>, j: nat) { forall m :: 0 <= m < |acts| ==> acts[m].i != j }

  ghost predicate StoppingOrDone(s: State, i: nat, k: Kind, j: nat) {
    && s.At(i) && s.At(j)
    && (s.clients[j] == GWoken(k) || (s.clients[j] == GAsleep(k) && YetToNotify(s.clients[i], k)))
    && (s.stop || s.clients[i].SStore?)
  }

  lemma StopGoesOn(s: State, a: Action, i: nat, k: Kind, j: nat)
    requires StoppingOrDone(s, i, k, j) && Enabled(s, a) && a.i != j
    ensures StoppingOrDone(Next(s, a), i, k, j)
  {
    Frame(s, a);
  }

  lemma {:induction false} StopRun(s: State, i: nat, k: Kind, j: nat, more: seq<Action>)
    requires StoppingOrDone(s, i, k, j) && CanRun(s, more) && NoStepOf(more, j)
    ensures StoppingOrDone(Run(s, more), i, k, j)
    decreases more
  {
    if more != [] {
      assert more[0].i != j;
      StopGoesOn(s, more[0], i, k, j);
      assert forall m :: 0 <= m < |more| - 1 ==> more[1..][m] == more[m + 1];
      StopRun(Next(s, more[0]), i, k, j, more[1..]);
    }
  }

  /** A getter that was asleep when stop() was called and has not moved since is awake once
      stop() has returned, in either pool, and the flag is set. */
  lemma StopWakesSleepers(s: State, i: nat, k: Kind, j: nat, more: seq<Action>)
    requires Enabled(s, BeginStop(i)) && s.Asleep(k, j)
    requires CanRun(Next(s, BeginStop(i)), more) && NoStepOf(more, j)
    ensures var s' := Run(Next(s, BeginStop(i)), more);
      s'.At(i) && s'.At(j) && (s'.clients[i].Idle? ==> s'.stop && s'.clients[j] == GWoken(k))
  {
    StopRun(Next(s, BeginStop(i)), i, k, j, more);
  }
}

/** What gRPCServerPool::stop() promises to getters, and what it does not. It stores the
    flag and notifies without the mutexes, so a getter that has tested the wait predicate
    and not yet begun to sleep misses both. */
module GrpcPoolStop {
  import opened Options
  import opened Tally
  import opened GrpcPoolModel
  import opened GrpcPoolProofs

  /** The window: the predicate was false, the getter is about to unlock and sleep. */
  ghost predicate InWindow(s: State, k: Kind) { exists j: nat :: s.At(j) && s.clients[j] == GBlock(k) }

  /** The flag is set and nobody sleeps on `k` or is about to. */
  ghost predicate Quiet(s: State, k: Kind) { s.stop && !SomeAsleep(s, k) && !InWindow(s, k) }

  lemma {:induction false} QuietForever(s: State, k: Kind, more: seq<Action>)
    requires Quiet(s, k) && CanRun(s, more)
    ensures Quiet(Run(s, more), k)
    decreases more
  {
    if more != [] {
      var a, s' := more[0], Next(s, more[0]);
      Frame(s, a);
      forall j: nat | s'.At(j) ensures !s'.Asleep(k, j) && s'.clients[j] != GBlock(k) {
        assert !s.Asleep(k, j) && s.clients[j] != GBlock(k);
        assert !s.Asleep(k, a.i) && s.clients[a.i] != GBlock(k);
      }
      QuietForever(s', k, more[1..]);
    }
  }

  function NotifyAll(i: nat, k: Kind): Action { if k.Stub? then NotifyStubs(i) else NotifyChannels(i) }

  ghost predicate NobodyEverSleeps(s: State, k: Kind) {
    forall more :: CanRun(s, more) ==> !SomeAsleep(Run(s, more), k)
  }

  /** The exact condition under which stop() reaches every getter of a pool: at its
      notify_all on that pool nobody is in the window. Then, and only then, nobody sleeps
      there un-notified in any continuation. */
  lemma StopWakesEveryoneIff(s: State, stubs: seq<Item>, channels: seq<Item>, n: nat, acts: seq<Action>,
                             i: nat, k: Kind)
    requires Reachable(s, stubs, channels, n, acts) && Enabled(s, NotifyAll(i, k))
    ensures !InWindow(s, k) <==> NobodyEverSleeps(Next(s, NotifyAll(i, k)), k)
  {
    ReachableInv(s, stubs, channels, n, acts);
    assert PointInv(s, s.clients[i]);
    var s' := Next(s, NotifyAll(i, k));
    if InWindow(s, k) {
      var j: nat :| s.At(j) && s.clients[j] == GBlock(k);
      assert s'.clients[j] == GBlock(k);
      BlockSleeps(s', k, j);
      assert !NobodyEverSleeps(s', k);
    } else {
      forall j: nat | s'.At(j) ensures !s'.Asleep(k, j) && s'.clients[j] != GBlock(k) {
        assert s.clients[j] != GBlock(k);
      }
      forall more | CanRun(s', more) ensures !SomeAsleep(Run(s', more), k) {
        QuietForever(s', k, more);
      }
    }
  }

  lemma BlockSleeps(s: State, k: Kind, j: nat)
    requires s.At(j) && s.clients[j] == GBlock(k)
    ensures CanRun(s, [Block(j)]) && SomeAsleep(Run(s, [Block(j)]), k)
  {
    var s' := Next(s, Block(j));
    assert s'.Asleep(k, j);
    ChainNil(s');
    ChainCons(s, Block(j), [], s');
    assert [Block(j)] + [] == [Block(j)];
  }

  /** A getter is beyond reach: the flag is set, it sleeps, every stop() is past its
      notify_all, and no release is past its flag test. */
  ghost predicate Stranded(s: State, k: Kind, j: nat) {
    && s.stop && s.Asleep(k, j)
    && forall i: nat :: s.At(i) ==> !s.clients[i].Stopping() && s.clients[i] != RNotify(k) && !IsPush(s.clients[i], k)
  }

  predicate IsPush(pc: Pc, k: Kind) { pc.RPush? && pc.k == k }

  /** No spurious wake-up of `j` and no further call of stop(). Other clients may get,
      release, sleep and wake as they like. */
  ghost predicate LeavesAlone(acts: seq<Action>, j: nat) {
    forall m :: 0 <= m < |acts| ==> acts[m] != SpuriousWake(j) && !acts[m].BeginStop?
  }

  /** It stays asleep in every such continuation: a release that comes after the flag
      neither pushes nor notifies. */
  lemma {:induction false} StrandedForever(s: State, k: Kind, j: nat, more: seq<Action>)
    requires Stranded(s, k, j) && CanRun(s, more) && LeavesAlone(more, j)
    ensures Stranded(Run(s, more), k, j)
    decreases more
  {
    if more != [] {
      var a, s' := more[0], Next(s, more[0]);
      Frame(s, a);
      assert a != SpuriousWake(j) && !a.BeginStop?;
      assert !s.clients[a.i].Stopping() && s.clients[a.i] != RNotify(k) && !IsPush(s.clients[a.i], k);
      assert s'.Asleep(k, j);
      forall i: nat | s'.At(i)
        ensures !s'.clients[i].Stopping() && s'.clients[i] != RNotify(k) && !IsPush(s'.clients[i], k)
      {
        assert !s.clients[i].Stopping() && s.clients[i] != RNotify(k) && !IsPush(s.clients[i], k);
      }
      assert forall m :: 0 <= m < |more| - 1 ==> more[1..][m] == more[m + 1];
      StrandedForever(s', k, j, more[1..]);
    }
  }

  ghost predicate Chain(s: State, acts: seq<Action>, s': State) { CanRun(s, acts) && Run(s, acts) == s' }

  lemma ChainNil(s: State)
    ensures Chain(s, [], s)
  {
  }

  lemma ChainCons(s: State, a: Action, acts: seq<Action>, s': State)
    requires Enabled(s, a) && Chain(Next(s, a), acts, s')
    ensures Chain(s, [a] + acts, s')
  {
    assert ([a] + acts)[1..] == acts;
  }

  lemma {:induction false} ChainAppend(s: State, acts: seq<Action>, mid: State, more: seq<Action>, s': State)
    requires Chain(s, acts, mid) && Chain(mid, more, s')
    ensures Chain(s, acts + more, s')
    decreases acts
  {
    if acts == [] {
      assert acts + more == more;
    } else {
      ChainAppend(Next(s, acts[0]), acts[1..], mid, more, s');
      assert acts + more == [acts[0]] + (acts[1..] + more);
      ChainCons(s, acts[0], acts[1..] + more, s');
    }
  }

  // ----- every state of the window strands a getter -----

  function StopRank(pc: Pc): int {
    if pc.SStore? then 3 else if pc.SNotifyChannel? then 2 else if pc.SNotifyStub? then 1 else 0
  }

  function StopStep(s: State, i: nat): Action
    requires s.At(i) && s.clients[i].Stopping()
  {
    if s.clients[i].SStore? then StoreStop(i)
    else if s.clients[i].SNotifyChannel? then NotifyChannels(i) else NotifyStubs(i)
  }

  lemma StopStepKeeps(s: State, i: nat, k: Kind, j: nat)
    requires s.At(i) && s.clients[i].Stopping() && s.At(j) && s.clients[j] == GBlock(k)
    ensures var s' := Next(s, StopStep(s, i));
      && s'.At(j) && s'.clients[j] == GBlock(k) && (s.stop ==> s'.stop)
      && 0 <= Sum(s'.clients, StopRank) < Sum(s.clients, StopRank)
  {
    var a := StopStep(s, i);
    Frame(s, a);
    SumStep(s, a, StopRank);
    SumNonNegative(Next(s, a).clients, StopRank);
  }

  /** Every stop() under way can return while getter `j` is still about to sleep. */
  lemma {:induction false} StopsReturn(s: State, k: Kind, j: nat) returns (more: seq<Action>, s': State)
    requires Inv(s) && s.At(j) && s.clients[j] == GBlock(k)
    ensures Chain(s, more, s') && LeavesAlone(more, j)
    ensures Inv(s') && (s.stop ==> s'.stop) && s'.At(j) && s'.clients[j] == GBlock(k)
    ensures forall i: nat :: s'.At(i) ==> !s'.clients[i].Stopping()
    decreases Sum(s.clients, StopRank)
  {
    if i: nat :| s.At(i) && s.clients[i].Stopping() {
      var a := StopStep(s, i);
      StepInv(s, a);
      StopStepKeeps(s, i, k, j);
      var rest;
      rest, s' := StopsReturn(Next(s, a), k, j);
      ChainCons(s, a, rest, s');
      more := [a] + rest;
    } else {
      more, s' := [], s;
    }
  }

  lemma SleepStrands(s: State, k: Kind, j: nat)
    requires Inv(s) && s.stop && s.At(j) && s.clients[j] == GBlock(k)
    requires forall i: nat :: s.At(i) ==> !s.clients[i].Stopping()
    ensures Stranded(Next(s, Block(j)), k, j)
  {
    var s' := Next(s, Block(j));
    forall i: nat | s'.At(i)
      ensures !s'.clients[i].Stopping() && s'.clients[i] != RNotify(k) && !IsPush(s'.clients[i], k)
    {
      assert s.clients[j].Holds(k) && (s.clients[i].Holds(k) <==> s.Of(k).mutex == Some(i));
    }
  }

  ghost predicate SleepsForGood(s: State, k: Kind, j: nat) {
    s.stop && forall more :: CanRun(s, more) && LeavesAlone(more, j) ==> Run(s, more).Asleep(k, j)
  }

  lemma StrandedSleeps(s: State, k: Kind, j: nat)
    requires Stranded(s, k, j)
    ensures SleepsForGood(s, k, j)
  {
    forall more | CanRun(s, more) && LeavesAlone(more, j) ensures Run(s, more).Asleep(k, j) {
      StrandedForever(s, k, j, more);
    }
  }

  /** Getter `j` can be left asleep for good. */
  ghost predicate CanBeLeft(s: State, k: Kind, j: nat) {
    exists more :: CanRun(s, more) && LeavesAlone(more, j)
                   && Stranded(Run(s, more), k, j) && SleepsForGood(Run(s, more), k, j)
  }

  lemma ThenBlocks(s: State, more: seq<Action>, s': State, j: nat)
    requires Chain(s, more, s') && Enabled(s', Block(j))
    ensures Chain(s, more + [Block(j)], Next(s', Block(j)))
  {
    ChainNil(Next(s', Block(j)));
    ChainCons(s', Block(j), [], Next(s', Block(j)));
    assert [Block(j)] + [] == [Block(j)];
    ChainAppend(s, more, s', [Block(j)], Next(s', Block(j)));
  }

  lemma WindowStrands(s: State, k: Kind, j: nat)
    requires Inv(s) && s.stop && s.At(j) && s.clients[j] == GBlock(k)
    ensures CanBeLeft(s, k, j)
  {
    var more, s1 := StopsReturn(s, k, j);
    SleepStrands(s1, k, j);
    StrandedSleeps(Next(s1, Block(j)), k, j);
    ThenBlocks(s, more, s1, j);
    assert LeavesAlone(more + [Block(j)], j);
    assert CanRun(s, more + [Block(j)]);
  }

  /** Whoever is in the window of a pool when stop() notifies it can be left asleep for
      good: in either pool, whatever it holds and whatever all other clients are doing,
      further calls of stop() included. */
  lemma StopCanStrandGetter(s: State, stubs: seq<Item>, channels: seq<Item>, n: nat, acts: seq<Action>,
                            i: nat, k: Kind, j: nat)
    requires Reachable(s, stubs, channels, n, acts) && Enabled(s, NotifyAll(i, k))
    requires s.At(j) && s.clients[j] == GBlock(k)
    ensures CanBeLeft(Next(s, NotifyAll(i, k)), k, j)
  {
    ReachableInv(s, stubs, channels, n, acts);
    assert PointInv(s, s.clients[i]);
    StepInv(s, NotifyAll(i, k));
    WindowStrands(Next(s, NotifyAll(i, k)), k, j);
  }

  ghost predicate CanStrand(s: State, k: Kind) {
    exists j: nat, more :: CanRun(s, more) && Stranded(Run(s, more), k, j)
  }

  /** The exact condition for that: the window is not empty at the notify. */
  lemma StrandsIff(s: State, stubs: seq<Item>, channels: seq<Item>, n: nat, acts: seq<Action>, i: nat, k: Kind)
    requires Reachable(s, stubs, channels, n, acts) && Enabled(s, NotifyAll(i, k))
    ensures InWindow(s, k) <==> CanStrand(Next(s, NotifyAll(i, k)), k)
  {
    var s' := Next(s, NotifyAll(i, k));
    if InWindow(s, k) {
      var j: nat :| s.At(j) && s.clients[j] == GBlock(k);
      StopCanStrandGetter(s, stubs, channels, n, acts, i, k, j);
      var more :| CanRun(s', more) && Stranded(Run(s', more), k, j);
    } else {
      StopWakesEveryoneIff(s, stubs, channels, n, acts, i, k);
      forall j: nat, more | CanRun(s', more) ensures !Stranded(Run(s', more), k, j) {
        assert !SomeAsleep(Run(s', more), k);
      }
    }
  }

  // ----- the window is there in every pool -----

  /** One client empties the pool and then comes to the window; the other one is idle. */
  lemma {:induction false} ReachWindow(s: State, k: Kind) returns (acts: seq<Action>, s': State)
    requires |s.clients| >= 2 && s.clients[0].Idle? && s.clients[1].Idle?
    requires s.Of(k).mutex.None? && !s.stop
    ensures Chain(s, acts, s') && |s'.clients| == |s.clients|
    ensures s'.clients[0] == GBlock(k) && s'.clients[1].Idle? && !s'.stop
    decreases |s.Of(k).queue|
  {
    var s1 := GetTests(s, k);
    if s.Of(k).queue == [] {
      acts, s' := Tests(k), s1;
    } else {
      var s2 := GetTakes(s1, k);
      var rest;
      rest, s' := ReachWindow(s2, k);
      ChainAppend(s1, [Check(0), Take(0), Unlock(0)], s2, rest, s');
      ChainAppend(s, Tests(k), s1, [Check(0), Take(0), Unlock(0)] + rest, s');
      acts := Tests(k) + ([Check(0), Take(0), Unlock(0)] + rest);
    }
  }

  function Tests(k: Kind): seq<Action> { [BeginGet(0, k), Lock(0), Enter(0), Test(0)] }

  /** A get up to the wait predicate. */
  lemma GetTests(s: State, k: Kind) returns (s': State)
    requires |s.clients| >= 2 && s.clients[0].Idle? && s.Of(k).mutex.None? && !s.stop
    ensures Chain(s, Tests(k), s') && |s'.clients| == |s.clients| && s'.clients[1] == s.clients[1]
    ensures s'.clients[0] == (if s.Of(k).queue == [] then GBlock(k) else GCheck(k))
    ensures s'.Of(k).queue == s.Of(k).queue && !s'.stop
  {
    s' := Next(Next(Next(Next(s, BeginGet(0, k)), Lock(0)), Enter(0)), Test(0));
    ChainFour(s, BeginGet(0, k), Lock(0), Enter(0), Test(0));
  }

  /** The rest of a get that found an item. */
  lemma GetTakes(s: State, k: Kind) returns (s': State)
    requires |s.clients| >= 2 && s.clients[0] == GCheck(k) && !s.stop && s.Of(k).queue != []
    ensures Chain(s, [Check(0), Take(0), Unlock(0)], s')
    ensures |s'.clients| == |s.clients| && s'.clients[0].Idle? && s'.clients[1] == s.clients[1]
    ensures s'.Of(k).mutex.None? && !s'.stop && s'.Of(k).queue == s.Of(k).queue[1..]
  {
    var s1 := Next(s, Check(0));
    var s2 := Next(s1, Take(0));
    s' := Next(s2, Unlock(0));
    ChainNil(s');
    ChainCons(s2, Unlock(0), [], s');
    ChainCons(s1, Take(0), [Unlock(0)], s');
    ChainCons(s, Check(0), [Take(0), Unlock(0)], s');
  }

  lemma ChainFour(s: State, a: Action, b: Action, c: Action, d: Action)
    requires Enabled(s, a) && Enabled(Next(s, a), b) && Enabled(Next(Next(s, a), b), c)
    requires Enabled(Next(Next(Next(s, a), b), c), d)
    ensures Chain(s, [a, b, c, d], Next(Next(Next(Next(s, a), b), c), d))
  {
    var s1, s2 := Next(s, a), Next(Next(s, a), b);
    var s3, s4 := Next(s2, c), Next(Next(s2, c), d);
    ChainNil(s4);
    ChainCons(s3, d, [], s4);
    ChainCons(s2, c, [d], s4);
    ChainCons(s1, b, [c, d], s4);
    ChainCons(s, a, [b, c, d], s4);
    assert [a] + [b, c, d] == [a, b, c, d];
  }

  /** The steps of stop() up to its notify_all on pool `k`. */
  function StopUpTo(k: Kind): seq<Action> {
    if k.Channel? then [BeginStop(1), StoreStop(1)] else [BeginStop(1), StoreStop(1), NotifyChannels(1)]
  }

  lemma StopArrives(s: State, k: Kind) returns (s': State)
    requires |s.clients| >= 2 && s.clients[0] == GBlock(k) && s.clients[1].Idle?
    ensures Chain(s, StopUpTo(k), s') && Enabled(s', NotifyAll(1, k)) && s'.clients[0] == GBlock(k)
  {
    var s1 := Next(s, BeginStop(1));
    var s2 := Next(s1, StoreStop(1));
    s' := if k.Channel? then s2 else Next(s2, NotifyChannels(1));
    ChainNil(s');
    if k.Stub? {
      ChainCons(s2, NotifyChannels(1), [], s');
    }
    ChainCons(s1, StoreStop(1), StopUpTo(k)[2..], s');
    ChainCons(s, BeginStop(1), [StoreStop(1)] + StopUpTo(k)[2..], s');
    assert [BeginStop(1)] + ([StoreStop(1)] + StopUpTo(k)[2..]) == StopUpTo(k);
  }

  /** Two clients are enough to reach a notify with a getter in the window, in every pool
      of either kind. */
  lemma WindowIsReachable(stubs: seq<Item>, channels: seq<Item>, n: nat, k: Kind) returns (acts: seq<Action>, s: State)
    requires n >= 2
    ensures Reachable(s, stubs, channels, n, acts) && Enabled(s, NotifyAll(1, k)) && s.clients[0] == GBlock(k)
  {
    var first, s1 := ReachWindow(Init(stubs, channels, n), k);
    s := StopArrives(s1, k);
    ChainAppend(Init(stubs, channels, n), first, s1, StopUpTo(k), s);
    acts := first + StopUpTo(k);
  }

  // ----- what stop() does settle -----

  /** Steps left inside a call once the flag is set. */
  function Rank(pc: Pc): int {
    match pc
    case Idle => 0
    case GBlock(_) => 7 case GAsleep(_) => 6 case GLock(_) => 6
    case GWoken(_) => 5 case GEnter(_) => 5 case GTest(_, _) => 4 case GCheck(_) => 3 case GTake(_) => 2
    case GUnlock(_, _) => 1
    case RLock(_, _) => 5 case RTest(_, _) => 4 case RPush(_, _) => 3 case RNotify(_) => 2 case RUnlock(_) => 1
    case SStore => 3 case SNotifyChannel => 2 case SNotifyStub => 1
  }

  lemma RankStep(s: State, a: Action)
    requires s.stop && Enabled(s, a) && a.Internal()
    ensures Sum(Next(s, a).clients, Rank) < Sum(s.clients, Rank)
  {
    SumStep(s, a, Rank);
    OwnRankStep(s, a);
  }

  lemma OwnRankStep(s: State, a: Action)
    requires s.stop && Enabled(s, a) && a.Internal()
    ensures |Next(s, a).clients| == |s.clients| && Rank(Next(s, a).clients[a.i]) < Rank(s.clients[a.i])
  {
    if a.Lock? || a.Enter? || a.Test? || a.Block? || a.SpuriousWake? || a.Check? || a.Take? {
      GetRankStep(s, a);
    }
  }

  lemma GetRankStep(s: State, a: Action)
    requires s.stop && Enabled(s, a)
    requires a.Lock? || a.Enter? || a.Test? || a.Block? || a.SpuriousWake? || a.Check? || a.Take?
    ensures |Next(s, a).clients| == |s.clients| && Rank(Next(s, a).clients[a.i]) < Rank(s.clients[a.i])
  {
  }

  ghost predicate AllInternal(acts: seq<Action>) { forall m :: 0 <= m < |acts| ==> acts[m].Internal() }

  lemma {:induction false} StoppedRunIsShort(s: State, more: seq<Action>)
    requires s.stop && CanRun(s, more) && AllInternal(more)
    ensures |more| + Sum(Run(s, more).clients, Rank) <= Sum(s.clients, Rank)
    decreases more
  {
    if more != [] {
      Frame(s, more[0]);
      assert more[0].Internal();
      RankStep(s, more[0]);
      assert forall m :: 0 <= m < |more| - 1 ==> more[1..][m] == more[m + 1];
      StoppedRunIsShort(Next(s, more[0]), more[1..]);
    }
  }

  /** The step that client `i` is ready for, when it waits for nobody. */
  ghost function Ready(s: State, i: nat): Action
    requires s.At(i)
  {
    match s.clients[i]
    case GEnter(_) => Enter(i)
    case GTest(_, _) => Test(i)
    case GBlock(_) => Block(i)
    case GCheck(_) => Check(i)
    case GTake(_) => Take(i)
    case RTest(_, _) => TestRelease(i)
    case RPush(_, _) => Push(i)
    case RNotify(k) =>
      if SomeAsleep(s, k) then (var w: nat :| s.Asleep(k, w); NotifyOne(i, Some(w))) else NotifyOne(i, None)
    case SStore => StoreStop(i)
    case SNotifyChannel => NotifyChannels(i)
    case SNotifyStub => NotifyStubs(i)
    case GUnlock(_, _) => Unlock(i)
    case RUnlock(_) => Unlock(i)
    case _ => Lock(i)
  }

  /** Something can go on without a new call and without a spurious wake-up. */
  ghost predicate CanStep(s: State) { exists a: Action :: Enabled(s, a) && a.Internal() && !a.SpuriousWake? }

  lemma AwakeNeverStuck(s: State, i: nat)
    requires MutexInv(s) && s.At(i) && !s.clients[i].Idle? && !s.clients[i].GAsleep?
    ensures CanStep(s)
  {
    var pc := s.clients[i];
    if pc.WantsMutex() && s.Of(pc.k).mutex.Some? {
      var owner := s.Of(pc.k).mutex.value;
      assert s.clients[owner].Holds(pc.k);
      assert Enabled(s, Ready(s, owner)) && Ready(s, owner).Internal();
    } else {
      assert Enabled(s, Ready(s, i)) && Ready(s, i).Internal();
    }
  }

  ghost predicate AllIdle(s: State) { forall i: nat :: s.At(i) ==> s.clients[i].Idle? }

  ghost predicate OnlySleepersLeft(s: State) {
    forall i: nat :: s.At(i) ==> s.clients[i].Idle? || s.clients[i].GAsleep?
  }

  lemma StuckOnSleepers(s: State)
    requires MutexInv(s) && !CanStep(s)
    ensures OnlySleepersLeft(s)
  {
    forall i: nat | s.At(i) ensures s.clients[i].Idle? || s.clients[i].GAsleep? {
      if !s.clients[i].Idle? && !s.clients[i].GAsleep? {
        AwakeNeverStuck(s, i);
      }
    }
  }

  lemma NoSleepersNobodyLeft(s: State)
    requires OnlySleepersLeft(s) && !SomeAsleep(s, Stub) && !SomeAsleep(s, Channel)
    ensures AllIdle(s)
  {
    forall i: nat | s.At(i) ensures s.clients[i].Idle? {
      assert !s.Asleep(Stub, i) && !s.Asleep(Channel, i);
      match s.clients[i] {
        case GAsleep(Stub) => assert false;
        case GAsleep(Channel) => assert false;
        case _ =>
      }
    }
  }

  /** After the store every run without new calls is bounded, and one that cannot go on has
      finished every call but those of sleeping getters. If neither pool has a getter asleep
      or about to sleep once the flag is set, it has finished every call. */
  lemma StopSettles(s: State, stubs: seq<Item>, channels: seq<Item>, n: nat, acts: seq<Action>, more: seq<Action>)
    requires Reachable(s, stubs, channels, n, acts) && s.stop
    requires CanRun(s, more) && AllInternal(more)
    ensures |more| <= Sum(s.clients, Rank)
    ensures CanStep(Run(s, more)) || OnlySleepersLeft(Run(s, more))
    ensures Quiet(s, Stub) && Quiet(s, Channel) ==> CanStep(Run(s, more)) || AllIdle(Run(s, more))
  {
    ReachableInv(s, stubs, channels, n, acts);
    RunInv(s, more);
    StoppedRunIsShort(s, more);
    var s' := Run(s, more);
    SumNonNegative(s'.clients, Rank);
    if !CanStep(s') {
      StuckOnSleepers(s');
      if Quiet(s, Stub) && Quiet(s, Channel) {
        QuietForever(s, Stub, more);
        QuietForever(s, Channel, more);
        NoSleepersNobodyLeft(s');
      }
    }
  }

  /** Once the flag is set only a getter past both tests still gets an item. */
  ghost predicate Committed(s: State, i: nat) {
    s.At(i) && (s.clients[i].GTake? || (s.clients[i].GUnlock? && s.clients[i].got.Some?))
  }

  lemma {:induction false} StoppedGetsNull(s: State, i: nat, more: seq<Action>)
    requires s.stop && CanRun(s, more) && !Committed(s, i)
    ensures !Committed(Run(s, more), i)
    decreases more
  {
    if more != [] {
      Frame(s, more[0]);
      StoppedGetsNull(Next(s, more[0]), i, more[1..]);
    }
  }
}

/** What every run of the gRPC pools keeps, and what stop() does not promise. */
module GrpcPoolProofs {
  import opened Options
  import opened Tally
  import opened GrpcPoolModel

  ghost predicate MutexInv(s: State) {
    && (forall k: Kind, i: nat :: s.At(i) ==> (s.clients[i].Holds(k) <==> s.Of(k).mutex == Some(i)))
    && (forall k: Kind :: s.Of(k).mutex.Some? ==> s.At(s.Of(k).mutex.value))
  }

  ghost predicate PointInv(s: State, pc: Pc) {
    && (pc.GCheck? ==> s.Of(pc.k).queue != [] || s.stop)
    && (pc.GTake? ==> s.Of(pc.k).queue != [])
    && (pc.GBlock? ==> s.Of(pc.k).queue == [])
    && (pc.SNotifyChannel? || pc.SNotifyStub? ==> s.stop)
    && (pc.GUnlock? && pc.got.None? ==> s.stop)
  }

  ghost predicate FlagInv(s: State) {
    (forall i: nat :: s.At(i) ==> PointInv(s, s.clients[i])) && !s.fault
  }

  ghost predicate Accounted(side: Side) { side.initial + side.pushed == side.granted + side.queue }

  ghost predicate HistoryInv(s: State) { forall k: Kind :: Accounted(s.Of(k)) }

  function Pending(pc: Pc, k: Kind): int {
    if pc == GWoken(k) || pc == GTest(k, true) || pc == GCheck(k) || pc == GTake(k) || pc == RNotify(k) then 1 else 0
  }

  function PendingFor(k: Kind): Pc -> int { pc => Pending(pc, k) }

  ghost predicate SomeAsleep(s: State, k: Kind) { exists i: nat :: s.Asleep(k, i) }

  ghost predicate WakeInv(s: State, k: Kind) {
    !s.stop && SomeAsleep(s, k) ==> |s.Of(k).queue| <= Sum(s.clients, PendingFor(k))
  }

  ghost predicate Inv(s: State) {
    MutexInv(s) && FlagInv(s) && HistoryInv(s) && WakeInv(s, Stub) && WakeInv(s, Channel)
  }

  lemma InitInv(stubs: seq<Item>, channels: seq<Item>, n: nat)
    ensures Inv(Init(stubs, channels, n))
  {
  }

  /** A step moves its own client; of the others it can only wake some that sleep. */
  lemma Frame(s: State, a: Action)
    requires Enabled(s, a)
    ensures |Next(s, a).clients| == |s.clients|
    ensures forall j: nat :: s.At(j) && j != a.i ==>
      Next(s, a).clients[j] == s.clients[j]
      || (s.clients[j].GAsleep? && Next(s, a).clients[j] == GWoken(s.clients[j].k))
    ensures s.stop ==> Next(s, a).stop
  {
  }

  lemma MutexStep(s: State, a: Action)
    requires MutexInv(s) && Enabled(s, a)
    ensures MutexInv(Next(s, a))
  {
    var s' := Next(s, a);
    Frame(s, a);
    forall k: Kind ensures s'.Of(k).mutex.Some? ==> s'.At(s'.Of(k).mutex.value) {
      assert s.clients[a.i].Holds(k) <==> s.Of(k).mutex == Some(a.i);
      OwnMutexStep(s, a, k);
    }
    forall k: Kind, j: nat | s'.At(j)
      ensures s'.clients[j].Holds(k) <==> s'.Of(k).mutex == Some(j)
    {
      OwnMutexStep(s, a, k);
      assert s.clients[j].Holds(k) <==> s.Of(k).mutex == Some(j);
    }
  }

  /** Only the acting client can enter or leave a locked region. */
  lemma OwnMutexStep(s: State, a: Action, k: Kind)
    requires Enabled(s, a)
    requires s.clients[a.i].Holds(k) <==> s.Of(k).mutex == Some(a.i)
    ensures |Next(s, a).clients| == |s.clients|
    ensures Next(s, a).clients[a.i].Holds(k) <==> Next(s, a).Of(k).mutex == Some(a.i)
    ensures Next(s, a).Of(k).mutex == s.Of(k).mutex
         || (s.Of(k).mutex.None? && Next(s, a).Of(k).mutex == Some(a.i))
         || (s.clients[a.i].Holds(k) && Next(s, a).Of(k).mutex.None?)
  {
    if !a.Lock? && !a.Unlock? && !a.Block? {
      MutexUntouched(s, a);
      PointStaysLocked(s, a, k);
    }
  }

  lemma MutexUntouched(s: State, a: Action)
    requires Enabled(s, a) && !a.Lock? && !a.Unlock? && !a.Block?
    ensures Next(s, a).stub.mutex == s.stub.mutex && Next(s, a).channel.mutex == s.channel.mutex
  {
  }

  lemma PointStaysLocked(s: State, a: Action, k: Kind)
    requires Enabled(s, a) && !a.Lock? && !a.Unlock? && !a.Block?
    ensures |Next(s, a).clients| == |s.clients|
    ensures Next(s, a).clients[a.i].Holds(k) == s.clients[a.i].Holds(k)
  {
    if a.Enter? || a.Test? || a.Check? || a.Take? || a.TestRelease? || a.Push? || a.NotifyOne? {
      RegionGoesOn(s, a, k);
    }
  }

  /** Inside a locked region a client stays inside, and on its side. */
  lemma RegionGoesOn(s: State, a: Action, k: Kind)
    requires Enabled(s, a)
    requires a.Enter? || a.Test? || a.Check? || a.Take? || a.TestRelease? || a.Push? || a.NotifyOne?
    ensures |Next(s, a).clients| == |s.clients|
    ensures s.clients[a.i].Holds(k) == (s.clients[a.i].k == k) == Next(s, a).clients[a.i].Holds(k)
  {
  }

  lemma FlagStep(s: State, a: Action)
    requires MutexInv(s) && FlagInv(s) && Enabled(s, a)
    ensures FlagInv(Next(s, a))
  {
    var s' := Next(s, a);
    Frame(s, a);
    OwnPoint(s, a);
    forall j: nat | s'.At(j) && j != a.i
      ensures PointInv(s', s'.clients[j])
    {
      assert PointInv(s, s.clients[j]);
      OthersQueue(s, a, j);
    }
  }

  lemma OwnPoint(s: State, a: Action)
    requires FlagInv(s) && Enabled(s, a)
    ensures |Next(s, a).clients| == |s.clients| && PointInv(Next(s, a), Next(s, a).clients[a.i])
    ensures !Next(s, a).fault
  {
    assert PointInv(s, s.clients[a.i]);
  }

  /** While a client is inside a locked region nobody else changes that queue. */
  lemma OthersQueue(s: State, a: Action, j: nat)
    requires MutexInv(s) && Enabled(s, a) && s.At(j) && j != a.i
    ensures forall k: Kind :: s.clients[j].Holds(k) ==> Next(s, a).Of(k).queue == s.Of(k).queue
  {
    forall k: Kind | s.clients[j].Holds(k) ensures Next(s, a).Of(k).queue == s.Of(k).queue {
      assert s.clients[j].Holds(k) <==> s.Of(k).mutex == Some(j);
      assert s.clients[a.i].Holds(k) <==> s.Of(k).mutex == Some(a.i);
    }
  }

  lemma HistoryStep(s: State, a: Action)
    requires FlagInv(s) && HistoryInv(s) && Enabled(s, a)
    ensures HistoryInv(Next(s, a))
  {
    assert PointInv(s, s.clients[a.i]);
    forall k: Kind ensures Accounted(Next(s, a).Of(k)) {
      assert Accounted(s.Of(k));
      if a.Take? && s.clients[a.i].k == k {
        assert s.Of(k).queue == [s.Of(k).queue[0]] + s.Of(k).queue[1..];
      } else if a.Push? && s.clients[a.i].k == k {
        var side, x := s.Of(k), s.clients[a.i].x;
        assert side.initial + (side.pushed + [x]) == side.initial + side.pushed + [x];
        assert side.granted + (side.queue + [x]) == side.granted + side.queue + [x];
      }
    }
  }

  lemma PendingStep(s: State, a: Action, k: Kind)
    requires Enabled(s, a) && !a.NotifyChannels? && !a.NotifyStubs?
    ensures Sum(Next(s, a).clients, PendingFor(k)) - Sum(s.clients, PendingFor(k))
         == Pending(Next(s, a).clients[a.i], k) - Pending(s.clients[a.i], k)
            + (if a.NotifyOne? && a.waiter.Some? && s.clients[a.i].k == k then 1 else 0)
  {
    if a.NotifyOne? && a.waiter.Some? {
      PendingNotify(s, a.i, a.waiter.value, k);
    } else {
      OwnSum(s, a, PendingFor(k));
    }
  }

  /** The caller stops being pending and the getter that it wakes begins to be. */
  lemma PendingNotify(s: State, i: nat, w: nat, k: Kind)
    requires Enabled(s, NotifyOne(i, Some(w)))
    ensures Sum(Next(s, NotifyOne(i, Some(w))).clients, PendingFor(k)) == Sum(s.clients, PendingFor(k))
    ensures |Next(s, NotifyOne(i, Some(w))).clients| == |s.clients|
    ensures Pending(Next(s, NotifyOne(i, Some(w))).clients[i], k) - Pending(s.clients[i], k)
         == if s.clients[i].k == k then -1 else 0
  {
    NotifyOneMoves(s, i, w, PendingFor(k));
  }

  lemma OwnSum(s: State, a: Action, w: Pc -> int)
    requires Enabled(s, a) && !a.NotifyChannels? && !a.NotifyStubs? && !(a.NotifyOne? && a.waiter.Some?)
    ensures |Next(s, a).clients| == |s.clients|
    ensures Sum(Next(s, a).clients, w) - Sum(s.clients, w) == w(Next(s, a).clients[a.i]) - w(s.clients[a.i])
  {
    OnlyOwn(s, a);
    SumUpdate(s.clients, a.i, Next(s, a).clients[a.i], w);
  }

  lemma NotifyOneMoves(s: State, i: nat, w: nat, f: Pc -> int)
    requires Enabled(s, NotifyOne(i, Some(w)))
    ensures var k, cs := s.clients[i].k, Next(s, NotifyOne(i, Some(w))).clients;
      && cs == s.clients[w := GWoken(k)][i := RUnlock(k)]
      && Sum(cs, f) == Sum(s.clients, f) - f(GAsleep(k)) + f(GWoken(k)) - f(RNotify(k)) + f(RUnlock(k))
  {
    var k := s.clients[i].k;
    SumUpdate(s.clients, w, GWoken(k), f);
    SumUpdate(s.clients[w := GWoken(k)], i, RUnlock(k), f);
  }

  lemma OnlyOwn(s: State, a: Action)
    requires Enabled(s, a) && !a.NotifyChannels? && !a.NotifyStubs? && !(a.NotifyOne? && a.waiter.Some?)
    ensures |Next(s, a).clients| == |s.clients|
    ensures Next(s, a).clients == s.clients[a.i := Next(s, a).clients[a.i]]
  {
  }

  /** A total that waking never raises moves at most as the acting client does. */
  lemma SumStep(s: State, a: Action, w: Pc -> int)
    requires Enabled(s, a) && forall pc, k :: w(Wake(pc, k)) <= w(pc)
    ensures |Next(s, a).clients| == |s.clients|
    ensures Sum(Next(s, a).clients, w) - Sum(s.clients, w) <= w(Next(s, a).clients[a.i]) - w(s.clients[a.i])
  {
    if a.NotifyChannels? {
      NotifyAllSum(s, a.i, Channel, SNotifyStub, w);
    } else if a.NotifyStubs? {
      NotifyAllSum(s, a.i, Stub, Idle, w);
    } else if a.NotifyOne? && a.waiter.Some? {
      NotifyOneMoves(s, a.i, a.waiter.value, w);
      assert w(Wake(GAsleep(s.clients[a.i].k), s.clients[a.i].k)) <= w(GAsleep(s.clients[a.i].k));
    } else {
      OwnSum(s, a, w);
    }
  }

  /** A total that waking does not change moves with the acting client alone. */
  lemma SumExact(s: State, a: Action, w: Pc -> int)
    requires Enabled(s, a) && forall pc, k :: w(Wake(pc, k)) == w(pc)
    ensures |Next(s, a).clients| == |s.clients|
    ensures Sum(Next(s, a).clients, w) - Sum(s.clients, w) == w(Next(s, a).clients[a.i]) - w(s.clients[a.i])
  {
    if a.NotifyChannels? {
      WokenSum(s.clients, a.i, Channel, SNotifyStub, w);
    } else if a.NotifyStubs? {
      WokenSum(s.clients, a.i, Stub, Idle, w);
    } else if a.NotifyOne? && a.waiter.Some? {
      NotifyOneMoves(s, a.i, a.waiter.value, w);
      assert w(Wake(GAsleep(s.clients[a.i].k), s.clients[a.i].k)) == w(GAsleep(s.clients[a.i].k));
    } else {
      OwnSum(s, a, w);
    }
  }

  lemma WokenSum(cs: seq<Pc>, i: nat, k: Kind, pc: Pc, w: Pc -> int)
    requires i < |cs| && !cs[i].GAsleep? && forall p, q :: w(Wake(p, q)) == w(p)
    ensures Sum(WakeAll(cs, k)[i := pc], w) == Sum(cs, w) + w(pc) - w(cs[i])
  {
    var woken := WakeAll(cs, k);
    SumMonotone(woken, w, cs, w);
    SumMonotone(cs, w, woken, w);
    SumUpdate(woken, i, pc, w);
  }

  lemma NotifyAllSum(s: State, i: nat, k: Kind, pc: Pc, w: Pc -> int)
    requires s.At(i) && !s.clients[i].GAsleep? && forall p, q :: w(Wake(p, q)) <= w(p)
    ensures Sum(WakeAll(s.clients, k)[i := pc], w) - Sum(s.clients, w) <= w(pc) - w(s.clients[i])
  {
    var woken := WakeAll(s.clients, k);
    SumMonotone(woken, w, s.clients, w);
    SumUpdate(woken, i, pc, w);
  }

  lemma WakeStep(s: State, a: Action, k: Kind)
    requires FlagInv(s) && WakeInv(s, k) && Enabled(s, a)
    ensures WakeInv(Next(s, a), k)
  {
    var s' := Next(s, a);
    Frame(s, a);
    assert PointInv(s, s.clients[a.i]);
    if !s'.stop && SomeAsleep(s', k) {
      if a == Block(a.i) && s.clients[a.i].k == k {
        SumNonNegative(s'.clients, PendingFor(k));
      } else {
        var j: nat :| s'.Asleep(k, j);
        assert s.Asleep(k, j);
        BalanceStep(s, a, k);
      }
    }
  }

  /** Only a push and a take change the length of a queue. */
  lemma QueueStep(s: State, a: Action, k: Kind)
    requires FlagInv(s) && Enabled(s, a)
    ensures |Next(s, a).Of(k).queue| - |s.Of(k).queue|
         == (if a.Push? && s.clients[a.i].k == k then 1 else if a.Take? && s.clients[a.i].k == k then -1 else 0)
  {
    assert PointInv(s, s.clients[a.i]);
  }

  /** The acting client's own part, when it is not a test that found nothing. */
  lemma OwnPending(s: State, a: Action, k: Kind)
    requires Enabled(s, a) && !s.stop && (a.Test? && s.clients[a.i].k == k ==> s.Of(k).queue != [])
    ensures |Next(s, a).clients| == |s.clients|
    ensures Pending(Next(s, a).clients[a.i], k) - Pending(s.clients[a.i], k)
         >= (if a.Push? && s.clients[a.i].k == k then 1 else if a.Take? && s.clients[a.i].k == k then -1
             else if a.NotifyOne? && s.clients[a.i].k == k then -1 else 0)
  {
    if a.Lock? || a.Enter? || a.Test? || a.Block? || a.SpuriousWake? || a.Check? {
      WaitPending(s, a, k);
    }
  }

  lemma WaitPending(s: State, a: Action, k: Kind)
    requires Enabled(s, a) && !s.stop && (a.Test? && s.clients[a.i].k == k ==> s.Of(k).queue != [])
    requires a.Lock? || a.Enter? || a.Test? || a.Block? || a.SpuriousWake? || a.Check?
    ensures |Next(s, a).clients| == |s.clients|
    ensures Pending(Next(s, a).clients[a.i], k) >= Pending(s.clients[a.i], k)
  {
  }

  /** A step that leaves the pool running and somebody asleep keeps the balance. */
  lemma BalanceStep(s: State, a: Action, k: Kind)
    requires FlagInv(s) && Enabled(s, a) && !Next(s, a).stop
    requires SomeAsleep(s, k) && |s.Of(k).queue| <= Sum(s.clients, PendingFor(k))
    ensures |Next(s, a).Of(k).queue| <= Sum(Next(s, a).clients, PendingFor(k))
  {
    Frame(s, a);
    assert PointInv(s, s.clients[a.i]);
    QueueStep(s, a, k);
    PendingStep(s, a, k);
    if a.Test? && s.clients[a.i].k == k && s.Of(k).queue == [] {
      SumNonNegative(Next(s, a).clients, PendingFor(k));
    } else {
      OwnPending(s, a, k);
    }
  }

  lemma StepInv(s: State, a: Action)
    requires Inv(s) && Enabled(s, a)
    ensures Inv(Next(s, a))
  {
    MutexStep(s, a);
    FlagStep(s, a);
    HistoryStep(s, a);
    WakeStep(s, a, Stub);
    WakeStep(s, a, Channel);
  }

  lemma {:induction false} RunInv(s: State, acts: seq<Action>)
    requires Inv(s) && CanRun(s, acts)
    ensures Inv(Run(s, acts))
    decreases acts
  {
    if acts != [] {
      StepInv(s, acts[0]);
      RunInv(Next(s, acts[0]), acts[1..]);
    }
  }

  ghost predicate Reachable(s: State, stubs: seq<Item>, channels: seq<Item>, n: nat, acts: seq<Action>) {
    CanRun(Init(stubs, channels, n), acts) && s == Run(Init(stubs, channels, n), acts)
  }

  lemma ReachableInv(s: State, stubs: seq<Item>, channels: seq<Item>, n: nat, acts: seq<Action>)
    requires Reachable(s, stubs, channels, n, acts)
    ensures Inv(s)
  {
    InitInv(stubs, channels, n);
    RunInv(Init(stubs, channels, n), acts);
  }

  /** A run goes on by one step. */
  lemma {:induction false} RunSnoc(s: State, acts: seq<Action>, a: Action)
    requires CanRun(s, acts) && Enabled(Run(s, acts), a)
    ensures CanRun(s, acts + [a]) && Run(s, acts + [a]) == Next(Run(s, acts), a)
    decreases acts
  {
    if acts == [] {
      assert [a][1..] == [] && CanRun(Next(s, a), []);
      assert acts + [a] == [a];
    } else {
      RunSnoc(Next(s, acts[0]), acts[1..], a);
      assert (acts + [a])[1..] == acts[1..] + [a];
    }
  }

  /** front() and pop() never meet an empty queue: the second flag test decides. */
  lemma FrontNeverEmpty(s: State, stubs: seq<Item>, channels: seq<Item>, n: nat, acts: seq<Action>)
    requires Reachable(s, stubs, channels, n, acts)
    ensures !s.fault
    ensures forall i: nat :: Enabled(s, Take(i)) ==> s.Of(s.clients[i].k).queue != []
  {
    ReachableInv(s, stubs, channels, n, acts);
    forall i: nat | Enabled(s, Take(i)) ensures s.Of(s.clients[i].k).queue != [] {
      assert PointInv(s, s.clients[i]);
    }
  }

  lemma {:induction false} InitialKept(s: State, acts: seq<Action>)
    requires CanRun(s, acts)
    ensures Run(s, acts).stub.initial == s.stub.initial && Run(s, acts).channel.initial == s.channel.initial
    decreases acts
  {
    if acts != [] {
      InitialKept(Next(s, acts[0]), acts[1..]);
    }
  }

  /** Both pools hand out in FIFO order, also after stop(), which drains nothing. */
  lemma FifoHistory(s: State, stubs: seq<Item>, channels: seq<Item>, n: nat, acts: seq<Action>)
    requires Reachable(s, stubs, channels, n, acts)
    ensures stubs + s.stub.pushed == s.stub.granted + s.stub.queue
    ensures channels + s.channel.pushed == s.channel.granted + s.channel.queue
  {
    ReachableInv(s, stubs, channels, n, acts);
    InitialKept(Init(stubs, channels, n), acts);
    assert Accounted(s.Of(Stub)) && Accounted(s.Of(Channel));
  }

  function Woken(pc: Pc, k: Kind): int { if pc == GWoken(k) then 1 else 0 }

  function WokenFor(k: Kind): Pc -> int { pc => Woken(pc, k) }

  /** No lost wake-up on either pool before stop(). */
  lemma NoLostWakeup(s: State, stubs: seq<Item>, channels: seq<Item>, n: nat, acts: seq<Action>, k: Kind)
    requires Reachable(s, stubs, channels, n, acts)
    requires !s.stop && SomeAsleep(s, k)
    ensures |s.Of(k).queue| <= Sum(s.clients, PendingFor(k))
    ensures s.Of(k).mutex.None? ==> |s.Of(k).queue| <= Sum(s.clients, WokenFor(k))
  {
    ReachableInv(s, stubs, channels, n, acts);
    assert WakeInv(s, k);
    if s.Of(k).mutex.None? {
      OnlyWokenPending(s, k);
    }
  }

  lemma OnlyWokenPending(s: State, k: Kind)
    requires MutexInv(s) && s.Of(k).mutex.None?
    ensures Sum(s.clients, PendingFor(k)) <= Sum(s.clients, WokenFor(k))
  {
    forall j | 0 <= j < |s.clients| ensures Pending(s.clients[j], k) <= Woken(s.clients[j], k) {
      assert !s.clients[j].Holds(k);
    }
    SumMonotone(s.clients, PendingFor(k), s.clients, WokenFor(k));
  }
}

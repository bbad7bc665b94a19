/** Progress of the open Redis pool: calls that can finish do, and a getter stays asleep
    only while no connection is free. */
module RedisPoolProgress {
  import opened Options
  import opened Tally
  import opened RedisPoolModel
  import opened RedisPoolProofs
  import opened RedisPoolTheorems

  /** Steps left while the pool is open. A return also pays for the getter it wakes. */
  function OpenRank(c: Client): int {
    match c.pc
    case GAsleep => 1
    case GBlock => 2
    case GTest(_) => 4
    case GCheck => 3
    case GTake => 2
    case GUnlock(_) => 1
    case GLock => 5
    case GWoken => 5
    case RUnlock => 1
    case RNotify => 6
    case RPush(_) => 7
    case RLock(_) => 8
    case RTest(_) => 9
    case _ => 0
  }

  /** Steps inside calls, without spurious wake-ups. */
  ghost predicate Undisturbed(acts: seq<Action>) {
    forall k :: 0 <= k < |acts| ==> acts[k].Internal() && !acts[k].SpuriousWake?
  }

  lemma OwnOpenRank(s: State, a: Action)
    requires FlagInv(s) && Enabled(s, a) && a.Internal() && !a.SpuriousWake? && !Next(s, a).closed
    ensures |Next(s, a).clients| == |s.clients|
    ensures OpenRank(Next(s, a).clients[a.i]) <= OpenRank(s.clients[a.i]) - (if a.NotifyOne? then 5 else 1)
  {
    assert PointInv(s, s.Pc(a.i));
  }

  lemma OpenRankStep(s: State, a: Action)
    requires FlagInv(s) && Enabled(s, a) && a.Internal() && !a.SpuriousWake? && !Next(s, a).closed
    ensures Sum(Next(s, a).clients, OpenRank) < Sum(s.clients, OpenRank)
  {
    assert PointInv(s, s.Pc(a.i));
    OwnOpenRank(s, a);
    if a.NotifyOne? && a.waiter.Some? {
      NotifyOneMoves(s, a.i, a.waiter.value, OpenRank);
    } else {
      OnlyOwn(s, a);
      SumUpdate(s.clients, a.i, Next(s, a).clients[a.i], OpenRank);
    }
  }

  lemma {:induction false} OpenRunIsShort(s: State, more: seq<Action>)
    requires Inv(s) && CanRun(s, more) && Undisturbed(more) && !Run(s, more).closed
    ensures |more| + Sum(Run(s, more).clients, OpenRank) <= Sum(s.clients, OpenRank)
    decreases more
  {
    if more != [] {
      var s' := Next(s, more[0]);
      StepInv(s, more[0]);
      RunGrows(s', more[1..]);
      assert more[0].Internal() && !more[0].SpuriousWake?;
      OpenRankStep(s, more[0]);
      assert forall k :: 0 <= k < |more| - 1 ==> more[1..][k] == more[k + 1];
      OpenRunIsShort(s', more[1..]);
    }
  }

  /** A client that is inside a call and not asleep can go on, or the mutex owner can. */
  lemma AwakeNeverStuck(s: State, i: nat)
    requires Inv(s) && s.At(i) && !s.Pc(i).Idle? && !s.Pc(i).GAsleep?
    ensures CanStep(s)
  {
    if s.mutex.Some? {
      var owner := s.mutex.value;
      assert s.Pc(owner).Holds();
      assert Enabled(s, Ready(s, owner)) && Ready(s, owner).Internal();
    } else {
      assert !s.Pc(i).Holds();
      assert Enabled(s, Ready(s, i)) && Ready(s, i).Internal();
    }
  }

  /** The open pool never stalls. Without new calls and spurious wake-ups every run is
      bounded; one that cannot go on has finished every call but those of sleeping getters,
      and getters sleep only if no connection is free. */
  lemma OpenSettles(s: State, made: seq<Option<Conn>>, n: nat, acts: seq<Action>, more: seq<Action>)
    requires Reachable(s, made, n, acts)
    requires CanRun(s, more) && Undisturbed(more) && !Run(s, more).closed
    ensures |more| <= Sum(s.clients, OpenRank)
    ensures var s' := Run(s, more);
      CanStep(s') || ((forall i: nat :: s'.At(i) ==> s'.Pc(i).Idle? || s'.Pc(i).GAsleep?)
                      && (SomeAsleep(s') ==> s'.available == []))
  {
    ReachableInv(s, made, n, acts);
    OpenRunIsShort(s, more);
    RunInv(s, more);
    var s' := Run(s, more);
    SumNonNegative(s'.clients, OpenRank);
    if i: nat :| s'.At(i) && !s'.Pc(i).Idle? && !s'.Pc(i).GAsleep? {
      AwakeNeverStuck(s', i);
    } else if SomeAsleep(s') {
      forall k | 0 <= k < |s'.clients| ensures Pending(s'.clients[k]) == 0 {
        assert s'.Pc(k).Idle? || s'.Pc(k).GAsleep?;
      }
      SumZero(s'.clients, Pending);
    }
  }
}

/** RedisPool in the source's own shape: one object whose members the clients update step
    by step. Each method is one step, proved to be the step of the model; the object stays
    in a reachable state, so the theorems hold of it between any two calls. */
module RedisPoolObject {
  import opened Options
  import opened RedisPoolModel
  import opened RedisPoolProofs
  import opened RedisPoolTheorems

  class RedisPool {
    var available: seq<Conn>      // available_connections_
    var closed: bool              // closed_
    var mutex: Option<nat>        // the client inside pool_mutex_, if any
    var clients: seq<Client>      // where the threads stand; the sleeping ones wait on pool_condition_
    ghost var h: History
    ghost const made: seq<Option<Conn>>
    ghost const threads: nat
    ghost var acts: seq<Action>   // the steps so far

    ghost function Abs(): State
      reads this
    {
      State(available, closed, mutex, clients, h)
    }

    /** The steps so far lead from construction to here. */
    ghost predicate Valid()
      reads this
    {
      Reachable(Abs(), made, threads, acts)
    }

    /** The constructor: create pool_size_ connections, keep those that answered. */
    constructor (made: seq<Option<Conn>>, threads: nat)
      ensures Valid() && Abs() == Init(made, threads) && this.made == made && this.threads == threads && acts == []
    {
      var queue: seq<Conn> := [];
      for i := 0 to |made|
        invariant queue == NonNull(made[..i])
      {
        NonNullAppend(made[..i], made[i]);
        assert made[..i + 1] == made[..i] + [made[i]];
        if made[i].Some? {
          queue := queue + [made[i].value];
        }
      }
      assert made[..|made|] == made;
      available, closed, mutex := queue, false, None;
      clients := seq(threads, _ => Client(Idle, multiset{}));
      h := History(queue, [], [], [], multiset{}, false, false);
      this.made, this.threads, acts := made, threads, [];
    }

    lemma Safe()
      requires Valid()
      ensures Inv(Abs())
    {
      ReachableInv(Abs(), made, threads, acts);
    }

    /** Take down the step that is about to be made. */
    ghost method Record(a: Action)
      requires Valid() && Enabled(Abs(), a)
      modifies this`acts
      ensures acts == old(acts) + [a]
      ensures Reachable(Next(Abs(), a), made, threads, acts)
    {
      RunSnoc(Init(made, threads), acts, a);
      acts := acts + [a];
    }

    method BeginGet(i: nat)
      requires Valid() && Enabled(Abs(), Action.BeginGet(i))
      modifies this
      ensures Valid() && Abs() == Next(old(Abs()), Action.BeginGet(i))
    {
      Record(Action.BeginGet(i));
      clients := clients[i := clients[i].(pc := GLock)];
    }

    method BeginReturn(i: nat, conn: Option<Conn>)
      requires Valid() && Enabled(Abs(), Action.BeginReturn(i, conn))
      modifies this
      ensures Valid() && Abs() == Next(old(Abs()), Action.BeginReturn(i, conn))
    {
      Record(Action.BeginReturn(i, conn));
      var held := clients[i].held;
      if conn.Some? {
        held := held - multiset{conn.value};
      }
      clients := clients[i := Client(RTest(conn), held)];
    }

    method BeginClose(i: nat)
      requires Valid() && Enabled(Abs(), Action.BeginClose(i))
      modifies this
      ensures Valid() && Abs() == Next(old(Abs()), Action.BeginClose(i))
    {
      Record(Action.BeginClose(i));
      clients := clients[i := clients[i].(pc := CStore)];
    }

    method Lock(i: nat)
      requires Valid() && Enabled(Abs(), Action.Lock(i))
      modifies this
      ensures Valid() && Abs() == Next(old(Abs()), Action.Lock(i))
    {
      Record(Action.Lock(i));
      mutex := Some(i);
      clients := clients[i := clients[i].(pc := AfterLock(clients[i].pc))];
    }

    method Unlock(i: nat) returns (got: Option<Conn>)
      requires Valid() && Enabled(Abs(), Action.Unlock(i))
      modifies this
      ensures Valid() && Abs() == Next(old(Abs()), Action.Unlock(i))
      ensures old(clients[i].pc).GUnlock? ==> got == old(clients[i].pc).got
    {
      Record(Action.Unlock(i));
      mutex := None;
      got := if clients[i].pc.GUnlock? then clients[i].pc.got else None;
      var held := clients[i].held;
      if got.Some? {
        held := held + multiset{got.value};
      }
      assert held == clients[i].held + clients[i].pc.Carries();
      clients := clients[i := Client(Idle, held)];
    }

    /** The wait predicate, under the mutex. */
    method Test(i: nat)
      requires Valid() && Enabled(Abs(), Action.Test(i))
      modifies this
      ensures Valid() && Abs() == Next(old(Abs()), Action.Test(i))
    {
      Record(Action.Test(i));
      var ready := available != [] || closed;
      clients := clients[i := clients[i].(pc := if ready then GCheck else GBlock)];
    }

    /** wait: unlock and join the waiters at once. */
    method Block(i: nat)
      requires Valid() && Enabled(Abs(), Action.Block(i))
      modifies this
      ensures Valid() && Abs() == Next(old(Abs()), Action.Block(i))
    {
      Record(Action.Block(i));
      clients, mutex := clients[i := clients[i].(pc := GAsleep)], None;
    }

    method SpuriousWake(i: nat)
      requires Valid() && Enabled(Abs(), Action.SpuriousWake(i))
      modifies this
      ensures Valid() && Abs() == Next(old(Abs()), Action.SpuriousWake(i))
    {
      Record(Action.SpuriousWake(i));
      clients := clients[i := clients[i].(pc := GWoken)];
    }

    method Check(i: nat)
      requires Valid() && Enabled(Abs(), Action.Check(i))
      modifies this
      ensures Valid() && Abs() == Next(old(Abs()), Action.Check(i))
    {
      Record(Action.Check(i));
      clients := clients[i := clients[i].(pc := if closed then GUnlock(None) else GTake)];
    }

    /** front() and pop(): the invariant of the model is what makes this call safe. */
    method Take(i: nat)
      requires Valid() && Enabled(Abs(), Action.Take(i))
      modifies this
      ensures Valid() && Abs() == Next(old(Abs()), Action.Take(i))
    {
      FrontNeverEmpty(Abs(), made, threads, acts);
      Record(Action.Take(i));
      var conn := available[0];
      available := available[1..];
      h := h.(granted := h.granted + [conn]);
      clients := clients[i := clients[i].(pc := GUnlock(Some(conn)))];
    }

    method TestReturn(i: nat)
      requires Valid() && Enabled(Abs(), Action.TestReturn(i))
      modifies this
      ensures Valid() && Abs() == Next(old(Abs()), Action.TestReturn(i))
    {
      Record(Action.TestReturn(i));
      var conn := clients[i].pc.conn;
      if conn.None? || closed {
        if conn.Some? {
          h := h.(dropped := h.dropped + multiset{conn.value});
        }
        clients := clients[i := clients[i].(pc := Idle)];
      } else {
        clients := clients[i := clients[i].(pc := RLock(conn.value))];
      }
    }

    method Push(i: nat)
      requires Valid() && Enabled(Abs(), Action.Push(i))
      modifies this
      ensures Valid() && Abs() == Next(old(Abs()), Action.Push(i))
    {
      Record(Action.Push(i));
      var conn := clients[i].pc.c;
      available := available + [conn];
      h := h.(pushed := h.pushed + [conn]);
      clients := clients[i := clients[i].(pc := RNotify)];
    }

    /** notify_one: which waiter it picks is not up to the caller. */
    method NotifyOne(i: nat, waiter: Option<nat>)
      requires Valid() && Enabled(Abs(), Action.NotifyOne(i, waiter))
      modifies this
      ensures Valid() && Abs() == Next(old(Abs()), Action.NotifyOne(i, waiter))
    {
      Record(Action.NotifyOne(i, waiter));
      if waiter.Some? {
        clients := clients[waiter.value := clients[waiter.value].(pc := GWoken)];
      }
      clients := clients[i := clients[i].(pc := RUnlock)];
    }

    /** The store comes before the mutex is taken. */
    method StoreClosed(i: nat)
      requires Valid() && Enabled(Abs(), Action.StoreClosed(i))
      modifies this
      ensures Valid() && Abs() == Next(old(Abs()), Action.StoreClosed(i))
    {
      Record(Action.StoreClosed(i));
      closed := true;
      clients := clients[i := clients[i].(pc := CLock)];
    }

    /** The mutex is held all the way through the loop. */
    method Drain(i: nat)
      requires Valid() && Enabled(Abs(), Action.Drain(i))
      modifies this
      ensures Valid() && Abs() == Next(old(Abs()), Action.Drain(i))
    {
      Record(Action.Drain(i));
      DrainQueue();
      clients := clients[i := clients[i].(pc := CNotify)];
    }

    /** The drain loop of close. */
    method DrainQueue()
      modifies this`available, this`h
      ensures available == [] && h == old(h).(drained := old(h.drained + available))
    {
      while available != []
        invariant h == old(h).(drained := h.drained)
        invariant h.drained + available == old(h.drained + available)
        decreases |available|
      {
        assert available == [available[0]] + available[1..];
        assert h.drained + available == h.drained + [available[0]] + available[1..];
        h := h.(drained := h.drained + [available[0]]);
        available := available[1..];
      }
      assert h.drained == h.drained + available;
    }

    method NotifyAll(i: nat)
      requires Valid() && Enabled(Abs(), Action.NotifyAll(i))
      modifies this
      ensures Valid() && Abs() == Next(old(Abs()), Action.NotifyAll(i))
    {
      Record(Action.NotifyAll(i));
      WakeWaiters();
      clients := clients[i := clients[i].(pc := CUnlock)];
      h := h.(announced := true);
    }

    /** notify_all: one waiter after the other leaves the waiting set. */
    method WakeWaiters()
      modifies this`clients
      ensures clients == WakeAll(old(clients))
    {
      var w := 0;
      while w < |clients|
        invariant w <= |clients| == |old(clients)|
        invariant forall j :: 0 <= j < w ==> clients[j] == Wake(old(clients)[j])
        invariant forall j :: w <= j < |clients| ==> clients[j] == old(clients)[j]
      {
        if clients[w].pc.GAsleep? {
          clients := clients[w := clients[w].(pc := GWoken)];
        }
        w := w + 1;
      }
    }
  }

  lemma {:induction false} NonNullAppend(made: seq<Option<Conn>>, last: Option<Conn>)
    ensures NonNull(made + [last]) == NonNull(made) + (if last.Some? then [last.value] else [])
  {
    if made != [] {
      assert (made + [last])[1..] == made[1..] + [last];
      NonNullAppend(made[1..], last);
    }
  }
}

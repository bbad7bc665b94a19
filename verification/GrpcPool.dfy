/** gRPCServerPool in the source's own shape: one object, two queues, two mutexes, one flag.
    Each method is one step of a caller, proved to be the step of the model; the object
    stays in a reachable state, so the theorems hold of it between any two calls. */
module GrpcPoolObject {
  import opened Options
  import opened GrpcPoolModel
  import opened GrpcPoolProofs

  class GrpcServerPool {
    var stub: Side                // stub_pool with mt_stub
    var channel: Side             // channel_pool with mt_channel
    var isStop: bool              // is_stop
    var clients: seq<Pc>          // the sleeping ones wait on cv_stub_pop or cv_channel_pop
    ghost var fault: bool
    ghost var stubs: seq<Item>    // what the constructor made
    ghost var channels: seq<Item>
    ghost const threads: nat
    ghost var acts: seq<Action>   // the steps so far

    ghost function Abs(): State
      reads this
    {
      State(stub, channel, isStop, clients, fault)
    }

    /** The steps so far lead from construction to here. */
    ghost predicate Valid()
      reads this
    {
      Reachable(Abs(), stubs, channels, threads, acts)
    }

    /** The fill loop. `madeChannels` and `madeStubs` are what CreateChannel and NewStub
        return; a call beyond them throws, which ends the loop in the catch block. */
    constructor (size: int, madeChannels: seq<Item>, madeStubs: seq<Item>, threads: nat)
      ensures |channel.queue| - |stub.queue| in {0, 1}
      ensures stub.queue <= madeStubs && channel.queue <= madeChannels
      ensures size <= |madeChannels| && size <= |madeStubs| && size >= 0 ==> |stub.queue| == |channel.queue| == size
      ensures Valid() && Abs() == Init(stub.queue, channel.queue, threads)
    {
      var channelList: seq<Item>, stubList: seq<Item> := [], [];
      var i := 0;
      while i < size
        invariant 0 <= i && (size >= 0 ==> i <= size)
        invariant i <= |madeChannels| && i <= |madeStubs|
        invariant channelList == madeChannels[..i] && stubList == madeStubs[..i]
      {
        if i == |madeChannels| {
          break;
        }
        channelList := channelList + [madeChannels[i]];
        if i == |madeStubs| {
          break;
        }
        stubList := stubList + [madeStubs[i]];
        i := i + 1;
      }
      stub, channel, isStop := Fill(stubList), Fill(channelList), false;
      clients, fault := seq(threads, _ => Idle), false;
      stubs, channels, this.threads, acts := stubList, channelList, threads, [];
    }

    lemma Safe()
      requires Valid()
      ensures Inv(Abs())
    {
      ReachableInv(Abs(), stubs, channels, threads, acts);
    }

    /** Take down the step that is about to be made. */
    ghost method Record(a: Action)
      requires Valid() && Enabled(Abs(), a)
      modifies this`acts
      ensures acts == old(acts) + [a]
      ensures Reachable(Next(Abs(), a), stubs, channels, threads, acts)
    {
      RunSnoc(Init(stubs, channels, threads), acts, a);
      acts := acts + [a];
    }

    /** Store one pool back. */
    method Put(k: Kind, side: Side)
      modifies this`stub, this`channel
      ensures Abs() == old(Abs()).With(k, side)
    {
      if k.Stub? {
        stub := side;
      } else {
        channel := side;
      }
    }

    function Of(k: Kind): (side: Side)
      reads this`stub, this`channel
      ensures side == Abs().Of(k)
    {
      if k.Stub? then stub else channel
    }

    method BeginGet(i: nat, k: Kind)
      requires Valid() && Enabled(Abs(), Action.BeginGet(i, k))
      modifies this
      ensures Valid() && Abs() == Next(old(Abs()), Action.BeginGet(i, k))
    {
      Record(Action.BeginGet(i, k));
      clients := clients[i := GLock(k)];
    }

    method BeginRelease(i: nat, k: Kind, x: Item)
      requires Valid() && Enabled(Abs(), Action.BeginRelease(i, k, x))
      modifies this
      ensures Valid() && Abs() == Next(old(Abs()), Action.BeginRelease(i, k, x))
    {
      Record(Action.BeginRelease(i, k, x));
      clients := clients[i := RLock(k, x)];
    }

    method BeginStop(i: nat)
      requires Valid() && Enabled(Abs(), Action.BeginStop(i))
      modifies this
      ensures Valid() && Abs() == Next(old(Abs()), Action.BeginStop(i))
    {
      Record(Action.BeginStop(i));
      clients := clients[i := SStore];
    }

    method Lock(i: nat)
      requires Valid() && Enabled(Abs(), Action.Lock(i))
      modifies this
      ensures Valid() && Abs() == Next(old(Abs()), Action.Lock(i))
    {
      Record(Action.Lock(i));
      var pc := clients[i];
      clients := clients[i := AfterLock(pc)];
      Put(pc.k, Of(pc.k).(mutex := Some(i)));
    }

    method Unlock(i: nat) returns (got: Option<Item>)
      requires Valid() && Enabled(Abs(), Action.Unlock(i))
      modifies this
      ensures Valid() && Abs() == Next(old(Abs()), Action.Unlock(i))
      ensures old(clients[i]).GUnlock? ==> got == old(clients[i]).got
    {
      Record(Action.Unlock(i));
      var pc := clients[i];
      got := if pc.GUnlock? then pc.got else None;
      clients := clients[i := Idle];
      Put(pc.k, Of(pc.k).(mutex := None));
    }

    /** The flag test before the wait. */
    method Enter(i: nat)
      requires Valid() && Enabled(Abs(), Action.Enter(i))
      modifies this
      ensures Valid() && Abs() == Next(old(Abs()), Action.Enter(i))
    {
      Record(Action.Enter(i));
      var k := clients[i].k;
      clients := clients[i := if isStop then GUnlock(k, None) else GTest(k, false)];
    }

    method Test(i: nat)
      requires Valid() && Enabled(Abs(), Action.Test(i))
      modifies this
      ensures Valid() && Abs() == Next(old(Abs()), Action.Test(i))
    {
      Record(Action.Test(i));
      var k := clients[i].k;
      var ready := Of(k).queue != [] || isStop;
      clients := clients[i := if ready then GCheck(k) else GBlock(k)];
    }

    method Block(i: nat)
      requires Valid() && Enabled(Abs(), Action.Block(i))
      modifies this
      ensures Valid() && Abs() == Next(old(Abs()), Action.Block(i))
    {
      Record(Action.Block(i));
      var k := clients[i].k;
      clients := clients[i := GAsleep(k)];
      Put(k, Of(k).(mutex := None));
    }

    method SpuriousWake(i: nat)
      requires Valid() && Enabled(Abs(), Action.SpuriousWake(i))
      modifies this
      ensures Valid() && Abs() == Next(old(Abs()), Action.SpuriousWake(i))
    {
      Record(Action.SpuriousWake(i));
      clients := clients[i := GWoken(clients[i].k)];
    }

    /** The flag test after the wait. */
    method Check(i: nat)
      requires Valid() && Enabled(Abs(), Action.Check(i))
      modifies this
      ensures Valid() && Abs() == Next(old(Abs()), Action.Check(i))
    {
      Record(Action.Check(i));
      var k := clients[i].k;
      clients := clients[i := if isStop then GUnlock(k, None) else GTake(k)];
    }

    method Take(i: nat)
      requires Valid() && Enabled(Abs(), Action.Take(i))
      modifies this
      ensures Valid() && Abs() == Next(old(Abs()), Action.Take(i))
    {
      FrontNeverEmpty(Abs(), stubs, channels, threads, acts);
      Record(Action.Take(i));
      var k := clients[i].k;
      var side := Of(k);
      clients := clients[i := GUnlock(k, Some(side.queue[0]))];
      Put(k, side.(queue := side.queue[1..], granted := side.granted + [side.queue[0]]));
    }

    /** The flag test of a release, under the mutex. */
    method TestRelease(i: nat)
      requires Valid() && Enabled(Abs(), Action.TestRelease(i))
      modifies this
      ensures Valid() && Abs() == Next(old(Abs()), Action.TestRelease(i))
    {
      Record(Action.TestRelease(i));
      var k, x := clients[i].k, clients[i].x;
      clients := clients[i := if isStop then RUnlock(k) else RPush(k, x)];
    }

    method Push(i: nat)
      requires Valid() && Enabled(Abs(), Action.Push(i))
      modifies this
      ensures Valid() && Abs() == Next(old(Abs()), Action.Push(i))
    {
      Record(Action.Push(i));
      var k, x := clients[i].k, clients[i].x;
      var side := Of(k);
      clients := clients[i := RNotify(k)];
      Put(k, side.(queue := side.queue + [x], pushed := side.pushed + [x]));
    }

    method NotifyOne(i: nat, waiter: Option<nat>)
      requires Valid() && Enabled(Abs(), Action.NotifyOne(i, waiter))
      modifies this
      ensures Valid() && Abs() == Next(old(Abs()), Action.NotifyOne(i, waiter))
    {
      Record(Action.NotifyOne(i, waiter));
      var k := clients[i].k;
      if waiter.Some? {
        clients := clients[waiter.value := GWoken(k)];
      }
      clients := clients[i := RUnlock(k)];
    }

    method StoreStop(i: nat)
      requires Valid() && Enabled(Abs(), Action.StoreStop(i))
      modifies this
      ensures Valid() && Abs() == Next(old(Abs()), Action.StoreStop(i))
    {
      Record(Action.StoreStop(i));
      isStop := true;
      clients := clients[i := SNotifyChannel];
    }

    method NotifyChannels(i: nat)
      requires Valid() && Enabled(Abs(), Action.NotifyChannels(i))
      modifies this
      ensures Valid() && Abs() == Next(old(Abs()), Action.NotifyChannels(i))
    {
      Record(Action.NotifyChannels(i));
      WakeWaiters(Channel);
      clients := clients[i := SNotifyStub];
    }

    method NotifyStubs(i: nat)
      requires Valid() && Enabled(Abs(), Action.NotifyStubs(i))
      modifies this
      ensures Valid() && Abs() == Next(old(Abs()), Action.NotifyStubs(i))
    {
      Record(Action.NotifyStubs(i));
      WakeWaiters(Stub);
      clients := clients[i := Idle];
    }

    /** notify_all on one condition variable: one waiter after the other. */
    method WakeWaiters(k: Kind)
      modifies this`clients
      ensures clients == WakeAll(old(clients), k)
    {
      var w := 0;
      while w < |clients|
        invariant w <= |clients| == |old(clients)|
        invariant forall j :: 0 <= j < w ==> clients[j] == Wake(old(clients)[j], k)
        invariant forall j :: w <= j < |clients| ==> clients[j] == old(clients)[j]
      {
        if clients[w] == GAsleep(k) {
          clients := clients[w := GWoken(k)];
        }
        w := w + 1;
      }
    }
  }
}

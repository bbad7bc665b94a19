/** gRPCServerPool as a system of concurrent steps (src/gRPCMrg.cpp).

    Two pools, of stubs and of channels, each with its own mutex and condition variable,
    share one stop flag. Unlike the Redis pool, a getter tests the flag once more before it
    waits, a release tests the flag under the mutex, and stop() stores the flag and notifies
    without taking either mutex. */
module GrpcPoolModel {
  import opened Options

  /** A stub or a channel, known by its identity. */
  type Item = nat

  datatype Kind = Stub | Channel

  /** Where a client stands. `G`: get_stub or get_Channel; `R`: release_stub or
      release_Channel; `S`: stop. */
  datatype Pc =
    | Idle
    | GLock(k: Kind) | GEnter(k: Kind) | GTest(k: Kind, retest: bool) | GBlock(k: Kind) | GAsleep(k: Kind)
    | GWoken(k: Kind) | GCheck(k: Kind) | GTake(k: Kind) | GUnlock(k: Kind, got: Option<Item>)
    | RLock(k: Kind, x: Item) | RTest(k: Kind, x: Item) | RPush(k: Kind, x: Item) | RNotify(k: Kind) | RUnlock(k: Kind)
    | SStore | SNotifyChannel | SNotifyStub
  {
    predicate Holds(kind: Kind) {
      (GEnter? || GTest? || GBlock? || GCheck? || GTake? || GUnlock? || RTest? || RPush? || RNotify? || RUnlock?)
      && k == kind
    }

    predicate WantsMutex() { GLock? || GWoken? || RLock? }

    predicate Stopping() { SStore? || SNotifyChannel? || SNotifyStub? }
  }

  /** One of the two pools: its queue, the client inside its mutex, and what has been
      created, pushed and handed out. */
  datatype Side = Side(queue: seq<Item>, mutex: Option<nat>, initial: seq<Item>, pushed: seq<Item>, granted: seq<Item>)

  datatype State = State(stub: Side, channel: Side, stop: bool, clients: seq<Pc>, fault: bool)
  {
    predicate At(i: nat) { i < |clients| }
    function Of(k: Kind): Side { if k.Stub? then stub else channel }
    function With(k: Kind, side: Side): State { if k.Stub? then this.(stub := side) else this.(channel := side) }
    function Move(i: nat, pc: Pc): State requires At(i) { this.(clients := clients[i := pc]) }
    predicate Asleep(k: Kind, i: nat) { At(i) && clients[i] == GAsleep(k) }
  }

  datatype Action =
    | BeginGet(i: nat, k: Kind) | BeginRelease(i: nat, k: Kind, x: Item) | BeginStop(i: nat)
    | Lock(i: nat) | Unlock(i: nat)
    | Enter(i: nat) | Test(i: nat) | Block(i: nat) | SpuriousWake(i: nat) | Check(i: nat) | Take(i: nat)
    | TestRelease(i: nat) | Push(i: nat) | NotifyOne(i: nat, waiter: Option<nat>)
    | StoreStop(i: nat) | NotifyChannels(i: nat) | NotifyStubs(i: nat)
  {
    /** A step inside a call, as opposed to the start of a new call. */
    predicate Internal() { !BeginGet? && !BeginRelease? && !BeginStop? }
  }

  function Fill(items: seq<Item>): Side { Side(items, None, items, [], []) }

  function Init(stubs: seq<Item>, channels: seq<Item>, clients: nat): State {
    State(Fill(stubs), Fill(channels), false, seq(clients, _ => Idle), false)
  }

  ghost predicate Enabled(s: State, a: Action) {
    s.At(a.i) &&
    var pc := s.clients[a.i];
    match a
    case BeginGet(_, _) => pc.Idle?
    case BeginRelease(_, _, _) => pc.Idle?
    case BeginStop(_) => pc.Idle?
    case Lock(_) => pc.WantsMutex() && s.Of(pc.k).mutex.None?
    case Unlock(_) => pc.GUnlock? || pc.RUnlock?
    case Enter(_) => pc.GEnter?
    case Test(_) => pc.GTest?
    case Block(_) => pc.GBlock?
    case SpuriousWake(_) => pc.GAsleep?
    case Check(_) => pc.GCheck?
    case Take(_) => pc.GTake?
    case TestRelease(_) => pc.RTest?
    case Push(_) => pc.RPush?
    case NotifyOne(_, waiter) =>
      pc.RNotify? && if waiter.Some? then s.Asleep(pc.k, waiter.value) else forall j: nat :: !s.Asleep(pc.k, j)
    case StoreStop(_) => pc.SStore?
    case NotifyChannels(_) => pc.SNotifyChannel?
    case NotifyStubs(_) => pc.SNotifyStub?
  }

  function AfterLock(pc: Pc): Pc requires pc.WantsMutex() {
    match pc
    case GLock(k) => GEnter(k)
    case GWoken(k) => GTest(k, true)
    case RLock(k, x) => RTest(k, x)
  }

  function Wake(pc: Pc, k: Kind): Pc { if pc == GAsleep(k) then GWoken(k) else pc }

  function WakeAll(cs: seq<Pc>, k: Kind): (r: seq<Pc>)
    ensures |r| == |cs|
  {
    seq(|cs|, j requires 0 <= j < |cs| => Wake(cs[j], k))
  }

  ghost function Next(s: State, a: Action): State
    requires Enabled(s, a)
  {
    var i, pc := a.i, s.clients[a.i];
    match a
    case BeginGet(_, k) => s.Move(i, GLock(k))
    case BeginRelease(_, k, x) => s.Move(i, RLock(k, x))
    case BeginStop(_) => s.Move(i, SStore)
    case Lock(_) => s.Move(i, AfterLock(pc)).With(pc.k, s.Of(pc.k).(mutex := Some(i)))
    case Unlock(_) => s.Move(i, Idle).With(pc.k, s.Of(pc.k).(mutex := None))
    case Enter(_) => s.Move(i, if s.stop then GUnlock(pc.k, None) else GTest(pc.k, false))
    case Test(_) => s.Move(i, if s.Of(pc.k).queue != [] || s.stop then GCheck(pc.k) else GBlock(pc.k))
    case Block(_) => s.Move(i, GAsleep(pc.k)).With(pc.k, s.Of(pc.k).(mutex := None))
    case SpuriousWake(_) => s.Move(i, GWoken(pc.k))
    case Check(_) => s.Move(i, if s.stop then GUnlock(pc.k, None) else GTake(pc.k))
    case Take(_) =>
      var side := s.Of(pc.k);
      if side.queue == [] then s.Move(i, GUnlock(pc.k, None)).(fault := true)
      else s.Move(i, GUnlock(pc.k, Some(side.queue[0]))).With(pc.k,
             side.(queue := side.queue[1..], granted := side.granted + [side.queue[0]]))
    case TestRelease(_) => s.Move(i, if s.stop then RUnlock(pc.k) else RPush(pc.k, pc.x))
    case Push(_) =>
      var side := s.Of(pc.k);
      s.Move(i, RNotify(pc.k)).With(pc.k, side.(queue := side.queue + [pc.x], pushed := side.pushed + [pc.x]))
    case NotifyOne(_, waiter) =>
      (if waiter.Some? then s.Move(waiter.value, GWoken(pc.k)) else s).Move(i, RUnlock(pc.k))
    case StoreStop(_) => s.Move(i, SNotifyChannel).(stop := true)
    case NotifyChannels(_) => s.(clients := WakeAll(s.clients, Channel)[i := SNotifyStub])
    case NotifyStubs(_) => s.(clients := WakeAll(s.clients, Stub)[i := Idle])
  }

  ghost predicate CanRun(s: State, acts: seq<Action>)
    decreases acts
  {
    acts == [] || (Enabled(s, acts[0]) && CanRun(Next(s, acts[0]), acts[1..]))
  }

  ghost function Run(s: State, acts: seq<Action>): State
    requires CanRun(s, acts)
    decreases acts
  {
    if acts == [] then s else Run(Next(s, acts[0]), acts[1..])
  }
}

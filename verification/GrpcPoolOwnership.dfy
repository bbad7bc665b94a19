/** Who holds which stub or channel, when clients release only what they hold, once. */
module GrpcPoolOwnership {
  import opened Options
  import opened Tally
  import opened GrpcPoolModel
  import opened GrpcPoolProofs

  /** A stub or a channel; the two pools do not mix. */
  datatype Thing = Thing(k: Kind, x: Item)

  /** The pools, what each client got and has not released, and what was released to a
      stopped pool, which destroys it. */
  datatype World = World(pool: State, held: seq<multiset<Thing>>, destroyed: multiset<Thing>)

  function Begin(stubs: seq<Item>, channels: seq<Item>, n: nat): World {
    World(Init(stubs, channels, n), seq(n, _ => multiset{}), multiset{})
  }

  /** Clients release only what they hold. */
  ghost predicate Allowed(w: World, a: Action) {
    && |w.held| == |w.pool.clients| && Enabled(w.pool, a)
    && (a.BeginRelease? ==> Thing(a.k, a.x) in w.held[a.i])
  }

  ghost function After(w: World, a: Action): World
    requires Allowed(w, a)
  {
    var pc, held := w.pool.clients[a.i], w.held[a.i];
    var w' := w.(pool := Next(w.pool, a));
    match a
    case Unlock(i) =>
      if pc.GUnlock? && pc.got.Some? then w'.(held := w.held[i := held + multiset{Thing(pc.k, pc.got.value)}]) else w'
    case BeginRelease(i, k, x) => w'.(held := w.held[i := held - multiset{Thing(k, x)}])
    case TestRelease(i) =>
      if w.pool.stop then w'.(destroyed := w.destroyed + multiset{Thing(pc.k, pc.x)}) else w'
    case _ => w'
  }

  ghost predicate HonestRun(w: World, acts: seq<Action>)
    decreases acts
  {
    acts == [] || (Allowed(w, acts[0]) && HonestRun(After(w, acts[0]), acts[1..]))
  }

  ghost function Outcome(w: World, acts: seq<Action>): World
    requires HonestRun(w, acts)
    decreases acts
  {
    if acts == [] then w else Outcome(After(w, acts[0]), acts[1..])
  }

  /** The thing that a client inside a call carries, if any. */
  function Cargo(pc: Pc): Option<Thing> {
    match pc
    case GUnlock(k, Some(x)) => Some(Thing(k, x))
    case RLock(k, x) => Some(Thing(k, x))
    case RTest(k, x) => Some(Thing(k, x))
    case RPush(k, x) => Some(Thing(k, x))
    case _ => None
  }

  function CargoIs(pc: Pc, t: Thing): int { if Cargo(pc) == Some(t) then 1 else 0 }

  function CargoOf(t: Thing): Pc -> int { pc => CargoIs(pc, t) }

  function HeldOf(t: Thing): multiset<Thing> -> int { held => held[t] }

  ghost function Places(w: World, t: Thing): int {
    multiset(w.pool.Of(t.k).queue)[t.x] + Sum(w.pool.clients, CargoOf(t)) + Sum(w.held, HeldOf(t)) + w.destroyed[t]
  }

  ghost predicate Conserved(w: World, t: Thing) { Places(w, t) == multiset(w.pool.Of(t.k).initial)[t.x] }

  ghost predicate WorldInv(w: World, t: Thing) {
    && |w.held| == |w.pool.clients| && Inv(w.pool) && Conserved(w, t)
    && (!w.pool.stop ==> w.destroyed == multiset{})
  }

  lemma BeginInv(stubs: seq<Item>, channels: seq<Item>, n: nat, t: Thing)
    ensures WorldInv(Begin(stubs, channels, n), t)
  {
    var w := Begin(stubs, channels, n);
    InitInv(stubs, channels, n);
    SumZero(w.pool.clients, CargoOf(t));
    SumZero(w.held, HeldOf(t));
  }

  /** How often a step takes `t` out of the acting client's holdings and into its call. */
  ghost function Given(s: State, a: Action, t: Thing): int
    requires Enabled(s, a)
  {
    if a.BeginRelease? && Thing(a.k, a.x) == t then 1
    else if a.Unlock? && s.clients[a.i].GUnlock? && Cargo(s.clients[a.i]) == Some(t) then -1 else 0
  }

  ghost function Destroys(s: State, a: Action, t: Thing): int
    requires Enabled(s, a)
  {
    if a.TestRelease? && s.stop && Cargo(s.clients[a.i]) == Some(t) then 1 else 0
  }

  /** Between queue and acting client a thing moves; it enters with a release and leaves to
      the caller or, once stopped, for good. */
  lemma PoolMoves(s: State, a: Action, t: Thing)
    requires Inv(s) && Enabled(s, a)
    ensures |Next(s, a).clients| == |s.clients|
    ensures multiset(Next(s, a).Of(t.k).queue)[t.x] + CargoIs(Next(s, a).clients[a.i], t)
         == multiset(s.Of(t.k).queue)[t.x] + CargoIs(s.clients[a.i], t) + Given(s, a, t) - Destroys(s, a, t)
  {
    assert PointInv(s, s.clients[a.i]);
    if a.Take? {
      TakeMoves(s, a.i, t);
    } else if a.Push? {
      PushMoves(s, a.i, t);
    } else {
      QueueKept(s, a, t.k);
      OwnMoves(s, a, t);
    }
  }

  lemma TakeMoves(s: State, i: nat, t: Thing)
    requires Enabled(s, Take(i)) && s.Of(s.clients[i].k).queue != []
    ensures |Next(s, Take(i)).clients| == |s.clients|
    ensures multiset(Next(s, Take(i)).Of(t.k).queue)[t.x] + CargoIs(Next(s, Take(i)).clients[i], t)
         == multiset(s.Of(t.k).queue)[t.x]
  {
    TakeEffect(s, i, t.k);
    FrontLeaves(s.Of(s.clients[i].k).queue, t.x);
  }

  lemma TakeEffect(s: State, i: nat, k: Kind)
    requires Enabled(s, Take(i)) && s.Of(s.clients[i].k).queue != []
    ensures var s', own := Next(s, Take(i)), s.clients[i].k;
      && |s'.clients| == |s.clients| && s'.clients[i] == GUnlock(own, Some(s.Of(own).queue[0]))
      && s'.Of(k).queue == if k == own then s.Of(own).queue[1..] else s.Of(k).queue
  {
  }

  lemma FrontLeaves(queue: seq<Item>, x: Item)
    requires queue != []
    ensures multiset(queue)[x] == multiset(queue[1..])[x] + (if queue[0] == x then 1 else 0)
  {
    assert queue == [queue[0]] + queue[1..];
  }

  lemma PushMoves(s: State, i: nat, t: Thing)
    requires Enabled(s, Push(i))
    ensures |Next(s, Push(i)).clients| == |s.clients|
    ensures multiset(Next(s, Push(i)).Of(t.k).queue)[t.x] + CargoIs(Next(s, Push(i)).clients[i], t)
         == multiset(s.Of(t.k).queue)[t.x] + CargoIs(s.clients[i], t)
  {
    PushEffect(s, i, t.k);
  }

  lemma PushEffect(s: State, i: nat, k: Kind)
    requires Enabled(s, Push(i))
    ensures var s', own := Next(s, Push(i)), s.clients[i].k;
      && |s'.clients| == |s.clients| && s'.clients[i] == RNotify(own)
      && s'.Of(k).queue == if k == own then s.Of(own).queue + [s.clients[i].x] else s.Of(k).queue
  {
  }

  lemma QueueKept(s: State, a: Action, k: Kind)
    requires Enabled(s, a) && !a.Take? && !a.Push?
    ensures Next(s, a).Of(k).queue == s.Of(k).queue
  {
  }

  lemma OwnMoves(s: State, a: Action, t: Thing)
    requires Enabled(s, a) && !a.Take? && !a.Push?
    ensures |Next(s, a).clients| == |s.clients|
    ensures CargoIs(Next(s, a).clients[a.i], t) == CargoIs(s.clients[a.i], t) + Given(s, a, t) - Destroys(s, a, t)
  {
    if !a.BeginRelease? && !a.Unlock? && !a.TestRelease? {
      CargoKept(s, a);
    }
  }

  lemma CargoKept(s: State, a: Action)
    requires Enabled(s, a) && !a.Take? && !a.Push? && !a.BeginRelease? && !a.Unlock? && !a.TestRelease?
    ensures |Next(s, a).clients| == |s.clients|
    ensures Cargo(Next(s, a).clients[a.i]) == Cargo(s.clients[a.i])
  {
  }

  lemma InitialStays(s: State, a: Action, k: Kind)
    requires Enabled(s, a)
    ensures Next(s, a).Of(k).initial == s.Of(k).initial
  {
  }

  lemma HeldMoves(w: World, a: Action, t: Thing)
    requires Allowed(w, a)
    ensures |After(w, a).held| == |w.held|
    ensures Sum(After(w, a).held, HeldOf(t)) == Sum(w.held, HeldOf(t)) - Given(w.pool, a, t)
    ensures After(w, a).destroyed[t] == w.destroyed[t] + Destroys(w.pool, a, t)
  {
    var held := w.held[a.i];
    if a.BeginRelease? {
      SumUpdate(w.held, a.i, held - multiset{Thing(a.k, a.x)}, HeldOf(t));
    } else if a.Unlock? && w.pool.clients[a.i].GUnlock? && w.pool.clients[a.i].got.Some? {
      var pc := w.pool.clients[a.i];
      SumUpdate(w.held, a.i, held + multiset{Thing(pc.k, pc.got.value)}, HeldOf(t));
    }
  }

  lemma WorldStep(w: World, a: Action, t: Thing)
    requires WorldInv(w, t) && Allowed(w, a)
    ensures WorldInv(After(w, a), t)
  {
    StepInv(w.pool, a);
    PoolMoves(w.pool, a, t);
    SumExact(w.pool, a, CargoOf(t));
    HeldMoves(w, a, t);
    InitialStays(w.pool, a, t.k);
    Frame(w.pool, a);
    AfterPool(w, a);
  }

  lemma AfterPool(w: World, a: Action)
    requires Allowed(w, a)
    ensures After(w, a).pool == Next(w.pool, a)
    ensures !w.pool.stop ==> After(w, a).destroyed == w.destroyed
  {
  }

  lemma {:induction false} WorldRun(w: World, acts: seq<Action>, t: Thing)
    requires WorldInv(w, t) && HonestRun(w, acts)
    ensures WorldInv(Outcome(w, acts), t)
    ensures CanRun(w.pool, acts) && Outcome(w, acts).pool == Run(w.pool, acts)
    decreases acts
  {
    if acts != [] {
      WorldStep(w, acts[0], t);
      AfterPool(w, acts[0]);
      WorldRun(After(w, acts[0]), acts[1..], t);
    }
  }

  function Made(stubs: seq<Item>, channels: seq<Item>, k: Kind): seq<Item> { if k.Stub? then stubs else channels }

  /** Conservation: in every run of honest clients each stub and each channel is in exactly
      one place: its queue, one call, one client, or destroyed by a release after stop(). */
  lemma Conservation(stubs: seq<Item>, channels: seq<Item>, n: nat, acts: seq<Action>, t: Thing)
    requires HonestRun(Begin(stubs, channels, n), acts)
    ensures var w := Outcome(Begin(stubs, channels, n), acts);
      && Reachable(w.pool, stubs, channels, n, acts) && |w.held| == n
      && multiset(Made(stubs, channels, t.k))[t.x] == Places(w, t)
      && (!w.pool.stop ==> w.destroyed == multiset{})
  {
    BeginInv(stubs, channels, n, t);
    WorldRun(Begin(stubs, channels, n), acts, t);
    InitialKept(Init(stubs, channels, n), acts);
    HeldCount(Begin(stubs, channels, n), acts);
  }

  lemma {:induction false} HeldCount(w: World, acts: seq<Action>)
    requires HonestRun(w, acts)
    ensures |Outcome(w, acts).held| == |w.held|
    decreases acts
  {
    if acts != [] {
      HeldCount(After(w, acts[0]), acts[1..]);
    }
  }

  /** What client `i` accounts for: what it holds and what its call carries. */
  ghost function ShareOf(w: World, i: nat, t: Thing): int
    requires i < |w.held| && i < |w.pool.clients|
  {
    w.held[i][t] + CargoIs(w.pool.clients[i], t)
  }

  /** Exclusivity: no stub and no channel is with two clients, twice with one, or held and
      free. */
  lemma Exclusivity(stubs: seq<Item>, channels: seq<Item>, n: nat, acts: seq<Action>, t: Thing)
    requires HonestRun(Begin(stubs, channels, n), acts) && Distinct(Made(stubs, channels, t.k))
    ensures var w := Outcome(Begin(stubs, channels, n), acts);
      && |w.held| == |w.pool.clients|
      && (forall i: nat, j: nat :: i < j < |w.held| ==>
            ShareOf(w, i, t) + ShareOf(w, j, t) + multiset(w.pool.Of(t.k).queue)[t.x] <= 1)
      && (forall i: nat :: i < |w.held| ==> ShareOf(w, i, t) + multiset(w.pool.Of(t.k).queue)[t.x] <= 1)
  {
    var w := Outcome(Begin(stubs, channels, n), acts);
    BeginInv(stubs, channels, n, t);
    WorldRun(Begin(stubs, channels, n), acts, t);
    Conservation(stubs, channels, n, acts, t);
    DistinctCounts(Made(stubs, channels, t.k));
    SumNonNegative(w.pool.clients, CargoOf(t));
    SumNonNegative(w.held, HeldOf(t));
    forall i: nat, j: nat | i < j < |w.held|
      ensures ShareOf(w, i, t) + ShareOf(w, j, t) + multiset(w.pool.Of(t.k).queue)[t.x] <= 1
    {
      SumPair(w.pool.clients, i, j, CargoOf(t));
      SumPair(w.held, i, j, HeldOf(t));
    }
    forall i: nat | i < |w.held| ensures ShareOf(w, i, t) + multiset(w.pool.Of(t.k).queue)[t.x] <= 1 {
      SumMember(w.pool.clients, i, CargoOf(t));
      SumMember(w.held, i, HeldOf(t));
    }
  }
}

/** Who holds which connection, when clients return only what they hold, once. */
module RedisPoolOwnership {
  import opened Options
  import opened Tally
  import opened RedisPoolModel
  import opened RedisPoolProofs
  import opened RedisPoolTheorems

  ghost predicate Honest(s: State, a: Action)
    requires Enabled(s, a)
  {
    a.BeginReturn? && a.conn.Some? ==> a.conn.value in s.clients[a.i].held
  }

  /** Every return in the run hands back a connection that its caller holds then. */
  ghost predicate HonestRun(s: State, acts: seq<Action>)
    requires CanRun(s, acts)
    decreases acts
  {
    acts == [] || (Honest(s, acts[0]) && HonestRun(Next(s, acts[0]), acts[1..]))
  }

  /** How often one client accounts for connection `c`: holding it or moving it. */
  function ShareOf(client: Client, c: Conn): int {
    client.held[c] + (if client.pc.Cargo() == Some(c) then 1 else 0)
  }

  function Share(c: Conn): Client -> int { client => ShareOf(client, c) }

  /** How often no client accounts for `c`: free, drained or destroyed. */
  ghost function Unheld(s: State, c: Conn): int {
    multiset(s.available)[c] + multiset(s.h.drained)[c] + s.h.dropped[c]
  }

  ghost predicate Conserved(s: State, c: Conn) {
    multiset(s.h.initial)[c] == Unheld(s, c) + Sum(s.clients, Share(c))
  }

  lemma InitConserved(made: seq<Option<Conn>>, n: nat, c: Conn)
    ensures Conserved(Init(made, n), c)
  {
    SumZero(Init(made, n).clients, Share(c));
  }

  /** Waking does not change what a client accounts for, so a step changes the clients'
      total by what it changes in the acting client's share. */
  lemma ShareStep(s: State, a: Action, c: Conn)
    requires Enabled(s, a)
    ensures Sum(Next(s, a).clients, Share(c)) - Sum(s.clients, Share(c))
         == ShareOf(Next(s, a).clients[a.i], c) - ShareOf(s.clients[a.i], c)
  {
    SumStep(s, a, Share(c));
  }

  /** What leaves the acting client's share arrives in the rest, and the other way round. */
  ghost predicate Moved(s: State, s': State, i: nat, c: Conn)
    requires s.At(i) && s'.At(i)
  {
    Unheld(s', c) + ShareOf(s'.clients[i], c) == Unheld(s, c) + ShareOf(s.clients[i], c)
  }

  lemma UnheldStep(s: State, a: Action, c: Conn)
    requires Inv(s) && Enabled(s, a) && Honest(s, a)
    ensures Moved(s, Next(s, a), a.i, c)
  {
    if a.Take? {
      assert PointInv(s, s.Pc(a.i));
      assert s.available == [s.available[0]] + s.available[1..];
    } else if a.Push? || a.Drain? || a.TestReturn? {
      QueueMoves(s, a, c);
    } else {
      ClientMoves(s, a, c);
    }
  }

  lemma QueueMoves(s: State, a: Action, c: Conn)
    requires Enabled(s, a) && (a.Push? || a.Drain? || a.TestReturn?)
    ensures Moved(s, Next(s, a), a.i, c)
  {
  }

  lemma ClientMoves(s: State, a: Action, c: Conn)
    requires Enabled(s, a) && Honest(s, a) && !a.Take? && !a.Push? && !a.Drain? && !a.TestReturn?
    ensures Moved(s, Next(s, a), a.i, c)
  {
    if a.BeginReturn? || a.Unlock? {
      HandOver(s, a, c);
    } else {
      PartsKept(s, a);
    }
  }

  /** Starting a return and leaving a call move a connection inside one share. */
  lemma HandOver(s: State, a: Action, c: Conn)
    requires Enabled(s, a) && Honest(s, a) && (a.BeginReturn? || a.Unlock?)
    ensures Moved(s, Next(s, a), a.i, c)
  {
  }

  /** The other steps leave both parts of the acting client's share alone. */
  lemma PartsKept(s: State, a: Action)
    requires Enabled(s, a) && !a.Take? && !a.Push? && !a.Drain? && !a.TestReturn? && !a.BeginReturn? && !a.Unlock?
    ensures s.available == Next(s, a).available
    ensures s.h.drained == Next(s, a).h.drained && s.h.dropped == Next(s, a).h.dropped
    ensures |Next(s, a).clients| == |s.clients|
    ensures Next(s, a).clients[a.i].held == s.clients[a.i].held
    ensures Next(s, a).clients[a.i].pc.Cargo() == s.clients[a.i].pc.Cargo()
  {
  }

  lemma {:induction false} ConservedRun(s: State, acts: seq<Action>, c: Conn)
    requires Inv(s) && Conserved(s, c) && CanRun(s, acts) && HonestRun(s, acts)
    ensures Conserved(Run(s, acts), c)
    decreases acts
  {
    if acts != [] {
      ShareStep(s, acts[0], c);
      UnheldStep(s, acts[0], c);
      StepGrows(s, acts[0]);
      StepInv(s, acts[0]);
      ConservedRun(Next(s, acts[0]), acts[1..], c);
    }
  }

  /** Conservation: in every run of honest clients each created connection is in exactly
      one place: the queue, one client, a drain, or destroyed by a return after closing. */
  lemma Conservation(s: State, made: seq<Option<Conn>>, n: nat, acts: seq<Action>, c: Conn)
    requires Reachable(s, made, n, acts) && HonestRun(Init(made, n), acts)
    ensures multiset(NonNull(made))[c] == multiset(s.available)[c] + Sum(s.clients, Share(c))
                                          + multiset(s.h.drained)[c] + s.h.dropped[c]
    ensures !s.closed ==> multiset(NonNull(made))[c] == multiset(s.available)[c] + Sum(s.clients, Share(c))
  {
    InitInv(made, n);
    InitConserved(made, n, c);
    ConservedRun(Init(made, n), acts, c);
    ReachableInv(s, made, n, acts);
  }

  /** Exclusivity: no connection is with two clients, twice with one, or held and free. */
  lemma Exclusivity(s: State, made: seq<Option<Conn>>, n: nat, acts: seq<Action>, c: Conn)
    requires Reachable(s, made, n, acts) && HonestRun(Init(made, n), acts)
    requires Distinct(NonNull(made))
    ensures forall i: nat, j: nat :: i < j < |s.clients| ==>
      ShareOf(s.clients[i], c) + ShareOf(s.clients[j], c) + multiset(s.available)[c] <= 1
    ensures forall i: nat :: i < |s.clients| ==> ShareOf(s.clients[i], c) + multiset(s.available)[c] <= 1
  {
    ReachableInv(s, made, n, acts);
    Conservation(s, made, n, acts, c);
    DistinctCounts(NonNull(made));
    forall i: nat, j: nat | i < j < |s.clients|
      ensures ShareOf(s.clients[i], c) + ShareOf(s.clients[j], c) + multiset(s.available)[c] <= 1
    {
      SumPair(s.clients, i, j, Share(c));
    }
    forall i: nat | i < |s.clients| ensures ShareOf(s.clients[i], c) + multiset(s.available)[c] <= 1 {
      SumMember(s.clients, i, Share(c));
    }
  }
}

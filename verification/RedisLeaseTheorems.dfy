/** What holds of the leases over every interleaving of any number of handlers. */
module RedisLeaseTheorems {
  import opened Options
  import opened Tally
  import opened RedisPoolModel
  import opened RedisPoolProofs
  import opened RedisPoolOwnership
  import opened RedisLeases

  ghost predicate Reached(y: System, made: seq<Option<Conn>>, n: nat, events: seq<Event>) {
    CanRunAll(Start(made, n), events) && y == RunAll(Start(made, n), events)
  }

  lemma ReachedInv(y: System, made: seq<Option<Conn>>, n: nat, events: seq<Event>, c: Conn)
    requires Reached(y, made, n, events)
    ensures SysInv(y, c) && y.pool.h.initial == NonNull(made)
  {
    StartInv(made, n, c);
    RunAllInv(Start(made, n), events, c);
  }

  /** All requests answered, no handler inside a call. */
  ghost predicate Quiescent(y: System) { forall i :: 0 <= i < |y.handlers| ==> y.handlers[i].HIdle? }

  /** In an open pool no handler ever dereferences a null connection. */
  lemma NoNullConnection(y: System, made: seq<Option<Conn>>, n: nat, events: seq<Event>, i: nat)
    requires Reached(y, made, n, events) && i < |y.handlers|
    ensures !y.handlers[i].HCrashed?
  {
    ReachedInv(y, made, n, events, 0);
    assert Matched(y.handlers[i], y.pool.clients[i].pc);
  }

  /** The kind of the last request of handler `i` that got as far as taking a connection. */
  function LastRequest(events: seq<Event>, i: nat): Option<Kind> {
    if events == [] then None
    else
      var last := events[|events| - 1];
      if last.Arrive? && last.i == i && last.request.Readable? then Some(last.kind)
      else LastRequest(events[..|events| - 1], i)
  }

  ghost predicate KindInv(y: System, past: seq<Event>) {
    forall i :: 0 <= i < |y.handlers| ==>
      (y.handlers[i].HTaking? || y.handlers[i].HUsing? ==> LastRequest(past, i) == Some(y.handlers[i].kind))
  }

  lemma KindStep(y: System, e: Event, past: seq<Event>)
    requires KindInv(y, past) && CanHappen(y, e)
    ensures KindInv(After(y, e), past + [e])
  {
    var y' := After(y, e);
    assert (past + [e])[..|past|] == past;
    forall i | 0 <= i < |y'.handlers| && (y'.handlers[i].HTaking? || y'.handlers[i].HUsing?)
      ensures LastRequest(past + [e], i) == Some(y'.handlers[i].kind)
    {
      if !(e.Arrive? && e.i == i && e.request.Readable?) {
        assert y.handlers[i].HTaking? || y.handlers[i].HUsing?;
        assert y'.handlers[i].kind == y.handlers[i].kind;
      }
    }
  }

  lemma {:induction false} KindRun(y: System, past: seq<Event>, more: seq<Event>)
    requires KindInv(y, past) && CanRunAll(y, more)
    ensures KindInv(RunAll(y, more), past + more)
    decreases more
  {
    if more == [] {
      assert past + more == past;
    } else {
      KindStep(y, more[0], past);
      KindRun(After(y, more[0]), past + [more[0]], more[1..]);
      assert past + [more[0]] + more[1..] == past + more;
    }
  }

  /** A handler that decides about a connection answers the request that it took it for. */
  lemma DecidesItsRequest(y: System, made: seq<Option<Conn>>, n: nat, events: seq<Event>, i: nat)
    requires Reached(y, made, n, events) && i < |y.handlers| && y.handlers[i].HUsing?
    ensures LastRequest(events, i) == Some(y.handlers[i].kind)
  {
    KindRun(Start(made, n), [], events);
    assert [] + events == events;
  }

  lemma SumsNonNegative(y: System, c: Conn)
    ensures Sum(y.pool.clients, CargoOf(c)) >= 0 && Sum(y.handlers, OwesOf(c)) >= 0
  {
    SumNonNegative(y.pool.clients, CargoOf(c));
    SumNonNegative(y.handlers, OwesOf(c));
  }

  lemma QuietPlaces(y: System, c: Conn)
    requires MatchInv(y) && Quiescent(y)
    ensures Places(y, c) == multiset(y.pool.available)[c]
  {
    forall i | 0 <= i < |y.handlers|
      ensures CargoIs(y.pool.clients[i], c) == 0 && OwesIs(y.handlers[i], c) == 0
    {
      assert Matched(y.handlers[i], y.pool.clients[i].pc);
    }
    SumZero(y.pool.clients, CargoOf(c));
    SumZero(y.handlers, OwesOf(c));
  }

  /** How many of the events are register runs where RegUser says -2, and how many runs
      lose their connection: a password change that falls through, a registration whose
      code cannot be read. */
  ghost function Twice(y: System, events: seq<Event>): nat
    requires CanRunAll(y, events)
    decreases events
  {
    if events == [] then 0
    else (if events[0].Decide? && RegistersTwice(y.handlers[events[0].i].kind, events[0].f) then 1 else 0)
         + Twice(After(y, events[0]), events[1..])
  }

  ghost function Never(y: System, events: seq<Event>): nat
    requires CanRunAll(y, events)
    decreases events
  {
    if events == [] then 0
    else (if events[0].Decide? && Loses(y.handlers[events[0].i].kind, events[0].f) then 1 else 0)
         + Never(After(y, events[0]), events[1..])
  }

  lemma {:induction false} CountsKept(y: System, events: seq<Event>)
    requires CanRunAll(y, events)
    ensures |RunAll(y, events).doubled| == |y.doubled| + Twice(y, events)
    ensures |RunAll(y, events).leaked| == |y.leaked| + Never(y, events)
    decreases events
  {
    if events != [] {
      CountsKept(After(y, events[0]), events[1..]);
    }
  }

  /** Lease accounting at quiescence, for every interleaving: the free connections are the
      created ones, one more for each register run that met -2, one less for each run that
      lost its connection; connection by connection and in total. */
  lemma LeaseAccounting(y: System, made: seq<Option<Conn>>, n: nat, events: seq<Event>)
    requires Reached(y, made, n, events) && Quiescent(y)
    ensures multiset(y.pool.available) + y.leaked == multiset(NonNull(made)) + y.doubled
    ensures |y.pool.available| + Never(Start(made, n), events) == |NonNull(made)| + Twice(Start(made, n), events)
  {
    var free, created := multiset(y.pool.available), multiset(NonNull(made));
    forall c: Conn ensures (free + y.leaked)[c] == (created + y.doubled)[c] {
      ReachedInv(y, made, n, events, c);
      QuietPlaces(y, c);
    }
    assert free + y.leaked == created + y.doubled;
    CountsKept(Start(made, n), events);
    assert |free + y.leaked| == |free| + |y.leaked| && |created + y.doubled| == |created| + |y.doubled|;
  }

  /** A connection that was never returned twice is never with two handlers, nor with one
      and in the queue. */
  lemma ExclusiveUnlessDoubled(y: System, made: seq<Option<Conn>>, n: nat, events: seq<Event>, c: Conn)
    requires Reached(y, made, n, events) && Distinct(NonNull(made)) && y.doubled[c] == 0
    ensures forall i, j :: 0 <= i < j < |y.handlers| ==> OwesIs(y.handlers[i], c) + OwesIs(y.handlers[j], c) <= 1
    ensures forall i :: 0 <= i < |y.handlers| ==> OwesIs(y.handlers[i], c) + multiset(y.pool.available)[c] <= 1
  {
    ReachedInv(y, made, n, events, c);
    DistinctCounts(NonNull(made));
    SumsNonNegative(y, c);
    forall i, j | 0 <= i < j < |y.handlers| ensures OwesIs(y.handlers[i], c) + OwesIs(y.handlers[j], c) <= 1 {
      SumPair(y.handlers, i, j, OwesOf(c));
    }
    forall i | 0 <= i < |y.handlers| ensures OwesIs(y.handlers[i], c) + multiset(y.pool.available)[c] <= 1 {
      SumMember(y.handlers, i, OwesOf(c));
    }
  }

  /** Only created connections ever circulate. */
  lemma {:induction false} OnlyCreated(y: System, events: seq<Event>, c: Conn)
    requires SysInv(y, c) && CanRunAll(y, events)
    requires c !in y.pool.h.initial && y.doubled[c] == 0
    ensures RunAll(y, events).doubled[c] == 0
    decreases events
  {
    if events != [] {
      var e := events[0];
      if e.Decide? {
        SumsNonNegative(y, c);
        SumMember(y.handlers, e.i, OwesOf(c));
        assert OwesIs(y.handlers[e.i], c) == 0;
      }
      MatchStep(y, e);
      BalancedStep(y, e, c);
      RunAllInv(y, [], c);
      InitialKept(y, e);
      OnlyCreated(After(y, e), events[1..], c);
    }
  }

  lemma InitialKept(y: System, e: Event)
    requires CanHappen(y, e)
    ensures After(y, e).pool.h.initial == y.pool.h.initial
  {
    if e.PoolStep? {
      InitialStays(y.pool, e.a);
    }
  }

  /** At quiescence no connection is queued twice exactly when each created one was given
      back twice at most as often as it was leaked; without leaks, exactly when no register
      run met -2. */
  lemma NoDuplicatesIff(y: System, made: seq<Option<Conn>>, n: nat, events: seq<Event>)
    requires Reached(y, made, n, events) && Quiescent(y) && Distinct(NonNull(made))
    ensures Distinct(y.pool.available) <==> forall c :: c in NonNull(made) ==> y.doubled[c] <= y.leaked[c]
    ensures Never(Start(made, n), events) == 0 ==>
      (Distinct(y.pool.available) <==> Twice(Start(made, n), events) == 0)
  {
    LeaseAccounting(y, made, n, events);
    var free := multiset(y.pool.available);
    DistinctCounts(NonNull(made));
    forall c: Conn
      ensures c !in NonNull(made) ==> y.doubled[c] == 0 && free[c] == 0
      ensures c in NonNull(made) ==> free[c] + y.leaked[c] == 1 + y.doubled[c]
    {
      assert (free + y.leaked)[c] == (multiset(NonNull(made)) + y.doubled)[c];
      if c !in NonNull(made) {
        StartInv(made, n, c);
        OnlyCreated(Start(made, n), events, c);
      }
    }
    DistinctIff(y.pool.available);
    CountsKept(Start(made, n), events);
    if Never(Start(made, n), events) == 0 {
      assert y.leaked == multiset{};
      if forall c :: c in NonNull(made) ==> y.doubled[c] == 0 {
        assert forall c :: y.doubled[c] == 0;
        assert y.doubled == multiset{};
      }
    }
  }

  lemma {:induction false} DistinctIff(q: seq<Conn>)
    ensures Distinct(q) <==> forall c: Conn :: multiset(q)[c] <= 1
  {
    if Distinct(q) {
      DistinctCounts(q);
    } else {
      var i, j :| 0 <= i < j < |q| && q[i] == q[j];
      assert q == q[..j] + q[j..];
      assert q[i] in q[..j] && q[j] in q[j..];
      assert multiset(q)[q[i]] == multiset(q[..j])[q[i]] + multiset(q[j..])[q[i]];
    }
  }

  // ----- exactly when two handlers can use one connection -----

  ghost predicate Leads(y: System, events: seq<Event>, y': System) { CanRunAll(y, events) && RunAll(y, events) == y' }

  lemma LeadsCons(y: System, e: Event, events: seq<Event>, y': System)
    requires CanHappen(y, e) && Leads(After(y, e), events, y')
    ensures Leads(y, [e] + events, y')
  {
    assert ([e] + events)[1..] == events;
  }

  lemma LeadsUncons(y: System, events: seq<Event>, y': System)
    requires events != [] && Leads(y, events, y')
    ensures CanHappen(y, events[0]) && Leads(After(y, events[0]), events[1..], y')
  {
  }

  lemma {:induction false} LeadsAppend(y: System, events: seq<Event>, mid: System, more: seq<Event>, y': System)
    requires Leads(y, events, mid) && Leads(mid, more, y')
    ensures Leads(y, events + more, y')
    decreases events
  {
    if events == [] {
      assert events + more == more;
    } else {
      LeadsUncons(y, events, mid);
      LeadsAppend(After(y, events[0]), events[1..], mid, more, y');
      LeadsCons(y, events[0], events[1..] + more, y');
      assert [events[0]] + (events[1..] + more) == events + more;
    }
  }

  lemma LeadsThrough(y: System, events: seq<Event>, mid: System, e: Event, more: seq<Event>, y': System)
    requires Leads(y, events, mid) && CanHappen(mid, e) && Leads(After(mid, e), more, y')
    ensures Leads(y, events + ([e] + more), y')
  {
    LeadsCons(mid, e, more, y');
    LeadsAppend(y, events, mid, [e] + more, y');
  }

  lemma LeadsFive(y: System, a: Event, b: Event, c: Event, d: Event, e: Event)
    requires CanHappen(y, a) && CanHappen(After(y, a), b) && CanHappen(After(After(y, a), b), c)
    requires CanHappen(After(After(After(y, a), b), c), d)
    requires CanHappen(After(After(After(After(y, a), b), c), d), e)
    ensures Leads(y, [a, b, c, d, e], After(After(After(After(After(y, a), b), c), d), e))
  {
    var y1, y2 := After(y, a), After(After(y, a), b);
    var y3, y4 := After(y2, c), After(After(y2, c), d);
    var y5 := After(y4, e);
    assert Leads(y5, [], y5);
    LeadsCons(y4, e, [], y5);
    LeadsCons(y3, d, [e], y5);
    LeadsCons(y2, c, [d, e], y5);
    LeadsCons(y1, b, [c, d, e], y5);
    LeadsCons(y, a, [b, c, d, e], y5);
    assert [a] + [b, c, d, e] == [a, b, c, d, e];
  }

  /** The pool is open and nobody is inside a call of it. */
  ghost predicate Calm(y: System) {
    && |y.handlers| == |y.pool.clients| && y.pool.mutex.None? && !y.pool.closed
    && forall j: nat :: y.pool.At(j) ==> y.pool.Pc(j).Idle?
  }

  lemma QuietIsCalm(y: System)
    requires Inv(y.pool) && MatchInv(y) && Quiescent(y)
    ensures Calm(y)
  {
    forall j: nat | y.pool.At(j) ensures y.pool.Pc(j).Idle? && !y.pool.Pc(j).Holds() {
      assert Matched(y.handlers[j], y.pool.clients[j].pc);
    }
  }

  ghost predicate CanLease(y: System, i: nat) {
    Calm(y) && i < |y.handlers| && y.handlers[i].HIdle? && y.pool.available != []
  }

  /** A register request of handler `i` that leases without having to wait. */
  function Lease(i: nat): seq<Event> { [Arrive(i, Register, Readable)] + TakeOut(i) }

  function TakeOut(i: nat): seq<Event> {
    [PoolStep(Lock(i)), PoolStep(Test(i)), PoolStep(Check(i)), PoolStep(Take(i)), PoolStep(Unlock(i))]
  }

  ghost function Leased(y: System, i: nat): System
    requires CanLease(y, i)
  {
    var c, client := y.pool.available[0], y.pool.clients[i];
    y.(handlers := y.handlers[i := HUsing(Register, c)],
       pool := y.pool.(available := y.pool.available[1..],
                       clients := y.pool.clients[i := Client(Idle, client.held + multiset{c})],
                       h := y.pool.h.(granted := y.pool.h.granted + [c])))
  }

  lemma LeaseLeads(y: System, i: nat)
    requires CanLease(y, i)
    ensures Leads(y, Lease(i), Leased(y, i)) && Calm(Leased(y, i))
  {
    var y1 := After(y, Arrive(i, Register, Readable));
    forall j: nat | y.pool.At(j) ensures Leased(y, i).pool.Pc(j).Idle? {
      assert y.pool.Pc(j).Idle?;
    }
    TakeOutLeads(y, i, y1);
    LeadsCons(y, Arrive(i, Register, Readable), TakeOut(i), Leased(y, i));
  }

  lemma TakeOutLeads(y: System, i: nat, y1: System)
    requires CanLease(y, i) && y1 == After(y, Arrive(i, Register, Readable))
    ensures Leads(y1, TakeOut(i), Leased(y, i))
  {
    var y2 := After(y1, PoolStep(Lock(i)));
    var y3 := After(y2, PoolStep(Test(i)));
    var y4 := After(y3, PoolStep(Check(i)));
    var y5 := After(y4, PoolStep(Take(i)));
    var y6 := After(y5, PoolStep(Unlock(i)));
    LeadsFive(y1, PoolStep(Lock(i)), PoolStep(Test(i)), PoolStep(Check(i)), PoolStep(Take(i)), PoolStep(Unlock(i)));
    assert y6.pool.clients == Leased(y, i).pool.clients;
    assert y6.handlers == Leased(y, i).handlers;
    assert y6 == Leased(y, i);
  }

  /** One call of returnConnection from its closed test on, with nobody else in the pool. */
  function PutBack(i: nat): seq<Event> {
    [PoolStep(TestReturn(i)), PoolStep(Lock(i)), PoolStep(Push(i)), PoolStep(NotifyOne(i, None)), PoolStep(Unlock(i))]
  }

  /** Handler `i` gives `c` back in a calm pool and goes on as `h`. */
  ghost function Given(y: System, i: nat, c: Conn, h: Handler): System
    requires Calm(y) && i < |y.handlers|
  {
    var client := y.pool.clients[i];
    y.(handlers := y.handlers[i := h],
       pool := y.pool.(available := y.pool.available + [c],
                       clients := y.pool.clients[i := Client(Idle, client.held - multiset{c})],
                       h := y.pool.h.(pushed := y.pool.h.pushed + [c])))
  }

  /** The same call under way, its client at `pc`. */
  ghost function Returning(y: System, i: nat, c: Conn, again: Option<Conn>, pc: Pc): System
    requires Calm(y) && i < |y.handlers|
  {
    var client, pushed := y.pool.clients[i], if pc.RNotify? || pc.RUnlock? then [c] else [];
    y.(handlers := y.handlers[i := HReturning(again)],
       pool := y.pool.(available := y.pool.available + pushed, mutex := if pc.Holds() then Some(i) else None,
                       clients := y.pool.clients[i := Client(pc, client.held - multiset{c})],
                       h := y.pool.h.(pushed := y.pool.h.pushed + pushed)))
  }

  lemma PutBackLeads(y: System, i: nat, c: Conn, again: Option<Conn>, y1: System)
    requires Calm(y) && i < |y.handlers|
    requires y1 == y.(pool := Next(y.pool, BeginReturn(i, Some(c))), handlers := y.handlers[i := HReturning(again)])
    ensures var h := if again.Some? then HReturning(again) else HIdle;
      Leads(y1, PutBack(i), Given(y, i, c, h)) && Calm(Given(y, i, c, h))
  {
    ReturnTests(y, i, c, again);
    ReturnLocks(y, i, c, again);
    ReturnPushes(y, i, c, again);
    ReturnNotifies(y, i, c, again);
    ReturnEnds(y, i, c, again);
    GivenIsCalm(y, i, c, if again.Some? then HReturning(again) else HIdle);
    assert y1 == Returning(y, i, c, again, RTest(Some(c)));
    LeadsFive(y1, PoolStep(TestReturn(i)), PoolStep(Lock(i)), PoolStep(Push(i)), PoolStep(NotifyOne(i, None)),
              PoolStep(Unlock(i)));
  }

  ghost predicate Goes(y: System, e: Event, y': System) { CanHappen(y, e) && After(y, e) == y' }

  lemma ReturnTests(y: System, i: nat, c: Conn, again: Option<Conn>)
    requires Calm(y) && i < |y.handlers|
    ensures Goes(Returning(y, i, c, again, RTest(Some(c))), PoolStep(TestReturn(i)),
                 Returning(y, i, c, again, RLock(c)))
  {
  }

  lemma ReturnLocks(y: System, i: nat, c: Conn, again: Option<Conn>)
    requires Calm(y) && i < |y.handlers|
    ensures Goes(Returning(y, i, c, again, RLock(c)), PoolStep(Lock(i)), Returning(y, i, c, again, RPush(c)))
  {
  }

  lemma ReturnPushes(y: System, i: nat, c: Conn, again: Option<Conn>)
    requires Calm(y) && i < |y.handlers|
    ensures Goes(Returning(y, i, c, again, RPush(c)), PoolStep(Push(i)), Returning(y, i, c, again, RNotify))
  {
  }

  lemma ReturnNotifies(y: System, i: nat, c: Conn, again: Option<Conn>)
    requires Calm(y) && i < |y.handlers|
    ensures Goes(Returning(y, i, c, again, RNotify), PoolStep(NotifyOne(i, None)), Returning(y, i, c, again, RUnlock))
  {
    NobodyAsleep(y, i, Returning(y, i, c, again, RNotify));
  }

  lemma ReturnEnds(y: System, i: nat, c: Conn, again: Option<Conn>)
    requires Calm(y) && i < |y.handlers|
    ensures Goes(Returning(y, i, c, again, RUnlock), PoolStep(Unlock(i)),
                 Given(y, i, c, if again.Some? then HReturning(again) else HIdle))
  {
    var kept := y.pool.clients[i].held - multiset{c};
    assert kept + RUnlock.Carries() == kept;
    var last := Returning(y, i, c, again, RUnlock);
    var pool' := Next(last.pool, Unlock(i));
    assert pool'.clients == y.pool.clients[i := Client(Idle, kept)];
    assert last.handlers[i := if again.Some? then HReturning(again) else HIdle]
        == y.handlers[i := if again.Some? then HReturning(again) else HIdle];
  }

  lemma NobodyAsleep(y: System, i: nat, y': System)
    requires Calm(y) && y.pool.At(i) && y'.pool.At(i) && y'.pool.Pc(i).RNotify?
    requires y'.pool.clients == y.pool.clients[i := y'.pool.clients[i]]
    ensures Enabled(y'.pool, NotifyOne(i, None))
  {
    forall j: nat | y'.pool.At(j) ensures !y'.pool.Pc(j).GAsleep? {
      assert y.pool.Pc(j).Idle?;
    }
  }

  lemma GivenIsCalm(y: System, i: nat, c: Conn, h: Handler)
    requires Calm(y) && i < |y.handlers|
    ensures Calm(Given(y, i, c, h))
  {
    forall j: nat | y.pool.At(j) ensures Given(y, i, c, h).pool.Pc(j).Idle? {
      assert y.pool.Pc(j).Idle?;
    }
  }

  /** A request whose code has expired: the connection goes back once. */
  const EXPIRED := Facts("", None, false, 0)

  function Visit(i: nat): seq<Event> { Lease(i) + ([Decide(i, EXPIRED)] + PutBack(i)) }

  /** What such a visit leaves behind: the front of the queue at its back. */
  ghost function Visited(y: System, i: nat): System
    requires CanLease(y, i)
  {
    var c := y.pool.available[0];
    y.(pool := y.pool.(available := y.pool.available[1..] + [c],
                       h := y.pool.h.(granted := y.pool.h.granted + [c], pushed := y.pool.h.pushed + [c])))
  }

  lemma VisitLeads(y: System, i: nat)
    requires CanLease(y, i)
    ensures Leads(y, Visit(i), Visited(y, i)) && CanLease(Visited(y, i), i)
  {
    var c, mid := y.pool.available[0], Leased(y, i);
    LeaseLeads(y, i);
    PutBackLeads(mid, i, c, None, After(mid, Decide(i, EXPIRED)));
    VisitEnds(y, i);
    LeadsThrough(y, Lease(i), mid, Decide(i, EXPIRED), PutBack(i), Visited(y, i));
  }

  lemma VisitEnds(y: System, i: nat)
    requires CanLease(y, i) && Calm(Leased(y, i))
    ensures Given(Leased(y, i), i, y.pool.available[0], HIdle) == Visited(y, i)
  {
    var c := y.pool.available[0];
    var end := Given(Leased(y, i), i, c, HIdle);
    var client := y.pool.clients[i];
    assert client.held + multiset{c} - multiset{c} == client.held;
    assert end.pool.clients[i] == Client(Idle, client.held) == client by {
      assert y.pool.Pc(i).Idle?;
    }
    assert end.pool.clients == y.pool.clients;
    assert end.handlers == y.handlers;
  }

  function Visits(i: nat, k: nat): seq<Event> { if k == 0 then [] else Visits(i, k - 1) + Visit(i) }

  /** `k` visits turn the queue by `k` places and change nothing else that a handler sees. */
  ghost predicate Turned(y: System, k: nat, y': System) {
    && k <= |y.pool.available| && y'.pool.available == y.pool.available[k..] + y.pool.available[..k]
    && y'.handlers == y.handlers && y'.doubled == y.doubled && y'.leaked == y.leaked
  }

  lemma {:induction false} VisitsTurn(y: System, i: nat, k: nat) returns (y': System)
    requires CanLease(y, i) && k <= |y.pool.available|
    ensures Leads(y, Visits(i, k), y') && CanLease(y', i) && Turned(y, k, y')
  {
    if k == 0 {
      y' := y;
    } else {
      var mid := VisitsTurn(y, i, k - 1);
      VisitLeads(mid, i);
      y' := Visited(mid, i);
      LeadsAppend(y, Visits(i, k - 1), mid, Visit(i), y');
    }
  }

  ghost predicate UsedByTwo(y: System, c: Conn) {
    exists i, j :: 0 <= i < j < |y.handlers| && Uses(y.handlers[i], c) && Uses(y.handlers[j], c)
  }

  predicate Uses(h: Handler, c: Conn) { h.HUsing? && h.conn == c }

  /** Two handlers come to use one connection at once, without any further -2 run. */
  ghost predicate SharedLater(y: System) {
    exists c: Conn, more :: CanRunAll(y, more) && Twice(y, more) == 0 && UsedByTwo(RunAll(y, more), c)
  }

  /** A connection queued twice, however far apart, comes to be used by two handlers. */
  lemma QueuedTwiceIsShared(y: System, p: nat, r: nat)
    requires Calm(y) && Quiescent(y) && |y.handlers| >= 2
    requires p < r < |y.pool.available| && y.pool.available[p] == y.pool.available[r]
    ensures SharedLater(y)
  {
    var q, c, apart := y.pool.available, y.pool.available[p], r - p - 1;
    var y1 := VisitsTurn(y, 0, p);
    LeaseLeads(y1, 0);
    var y2 := Leased(y1, 0);
    assert y2.pool.available == q[p + 1..] + q[..p];
    assert y2.pool.available[apart] == q[p + 1..][apart] == c;
    var y3 := VisitsTurn(y2, 1, apart);
    LeaseLeads(y3, 1);
    var y4 := Leased(y3, 1);
    assert y3.pool.available[0] == c;
    assert Uses(y4.handlers[0], c) && Uses(y4.handlers[1], c);
    LeadsAppend(y2, Visits(1, apart), y3, Lease(1), y4);
    LeadsAppend(y, Visits(0, p), y1, Lease(0), y2);
    LeadsAppend(y, Visits(0, p) + Lease(0), y2, Visits(1, apart) + Lease(1), y4);
    SharedBy(y, Visits(0, p) + Lease(0) + (Visits(1, apart) + Lease(1)), y4, c);
  }

  lemma SharedBy(y: System, more: seq<Event>, y': System, c: Conn)
    requires Leads(y, more, y') && y'.doubled == y.doubled && UsedByTwo(y', c)
    ensures SharedLater(y)
  {
    CountsKept(y, more);
  }

  /** Without a further -2 run a connection gets to no more places than it is in. */
  lemma {:induction false} PlacesOnlyShrink(y: System, more: seq<Event>, c: Conn)
    requires SysInv(y, c) && CanRunAll(y, more) && Twice(y, more) == 0
    ensures Places(RunAll(y, more), c) <= Places(y, c)
    decreases more
  {
    if more != [] {
      var y' := After(y, more[0]);
      MatchStep(y, more[0]);
      BalancedStep(y, more[0], c);
      InitialKept(y, more[0]);
      assert y'.doubled == y.doubled && y'.leaked[c] >= y.leaked[c];
      PlacesOnlyShrink(y', more[1..], c);
    }
  }

  lemma UsedTwicePlaces(y: System, c: Conn)
    requires UsedByTwo(y, c)
    ensures Places(y, c) >= 2
  {
    var i, j :| 0 <= i < j < |y.handlers| && Uses(y.handlers[i], c) && Uses(y.handlers[j], c);
    SumPair(y.handlers, i, j, OwesOf(c));
    SumsNonNegative(y, c);
  }

  /** The exact condition, at any moment when all requests are answered: two handlers can
      come to use one connection at once if and only if there are two handlers and some
      connection was given back twice more often than it was lost; if nothing was lost, if
      and only if a register run met -2. Any number of connections and handlers. */
  lemma SharedIff(y: System, made: seq<Option<Conn>>, n: nat, events: seq<Event>)
    requires Reached(y, made, n, events) && Quiescent(y) && Distinct(NonNull(made))
    ensures SharedLater(y) <==> n >= 2 && !Distinct(y.pool.available)
    ensures SharedLater(y) <==> n >= 2 && exists c :: c in NonNull(made) && y.doubled[c] > y.leaked[c]
    ensures Never(Start(made, n), events) == 0 ==>
      (SharedLater(y) <==> n >= 2 && Twice(Start(made, n), events) > 0)
  {
    NoDuplicatesIff(y, made, n, events);
    ReachedInv(y, made, n, events, 0);
    HandlersKept(Start(made, n), events);
    if n >= 2 && !Distinct(y.pool.available) {
      QuietIsCalm(y);
      var p, r :| 0 <= p < r < |y.pool.available| && y.pool.available[p] == y.pool.available[r];
      QueuedTwiceIsShared(y, p, r);
    } else if SharedLater(y) {
      SharedNeedsDuplicate(y, made, n, events);
    }
  }

  lemma SharedNeedsDuplicate(y: System, made: seq<Option<Conn>>, n: nat, events: seq<Event>)
    requires Reached(y, made, n, events) && Quiescent(y) && SharedLater(y)
    ensures |y.handlers| >= 2 && !Distinct(y.pool.available)
  {
    var c: Conn, more :| CanRunAll(y, more) && Twice(y, more) == 0 && UsedByTwo(RunAll(y, more), c);
    HandlersKept(y, more);
    ReachedInv(y, made, n, events, c);
    PlacesOnlyShrink(y, more, c);
    UsedTwicePlaces(RunAll(y, more), c);
    QuietPlaces(y, c);
    DistinctIff(y.pool.available);
  }

  // ----- a -2 run does happen -----

  /** A registration whose email RegUser finds registered. */
  const TAKEN := Facts("1", Some("1"), false, -2)

  function RegisterTaken(i: nat): seq<Event> {
    Lease(i) + ([Decide(i, TAKEN)] + (PutBack(i) + ([ReturnAgain(i)] + PutBack(i))))
  }

  lemma TakenLeads(y: System, i: nat) returns (y': System)
    requires CanLease(y, i)
    ensures Leads(y, RegisterTaken(i), y') && y'.handlers == y.handlers && y'.leaked == y.leaked
    ensures y'.doubled == y.doubled + multiset{y.pool.available[0]}
  {
    var c, y1 := y.pool.available[0], Leased(y, i);
    LeaseLeads(y, i);
    y' := GivenTwice(y1, i, c);
    LeadsThrough(y, Lease(i), y1, Decide(i, TAKEN), PutBack(i) + ([ReturnAgain(i)] + PutBack(i)), y');
    assert y'.handlers == y.handlers;
  }

  /** From the decision on: the first return, then the one that it falls through to. */
  lemma GivenTwice(y: System, i: nat, c: Conn) returns (y': System)
    requires Calm(y) && i < |y.handlers| && y.handlers[i] == HUsing(Register, c)
    ensures CanHappen(y, Decide(i, TAKEN))
    ensures Leads(After(y, Decide(i, TAKEN)), PutBack(i) + ([ReturnAgain(i)] + PutBack(i)), y')
    ensures y'.handlers == y.handlers[i := HIdle] && y'.leaked == y.leaked && y'.doubled == y.doubled + multiset{c}
  {
    var first := y.(doubled := y.doubled + multiset{c});
    PutBackLeads(first, i, c, Some(c), After(y, Decide(i, TAKEN)));
    var second := Given(first, i, c, HReturning(Some(c)));
    PutBackLeads(second, i, c, None, After(second, ReturnAgain(i)));
    y' := Given(second, i, c, HIdle);
    LeadsThrough(After(y, Decide(i, TAKEN)), PutBack(i), second, ReturnAgain(i), PutBack(i), y');
  }

  /** Whenever a pool has a connection and there are two handlers, one -2 run and two later
      requests have both handlers use the same connection. */
  lemma DoubleReturnIsShared(made: seq<Option<Conn>>, n: nat)
    requires n >= 2 && NonNull(made) != [] && Distinct(NonNull(made))
    ensures CanRunAll(Start(made, n), RegisterTaken(0))
    ensures Twice(Start(made, n), RegisterTaken(0)) == 1 && Never(Start(made, n), RegisterTaken(0)) == 0
    ensures Quiescent(RunAll(Start(made, n), RegisterTaken(0)))
    ensures SharedLater(RunAll(Start(made, n), RegisterTaken(0)))
  {
    var y := Start(made, n);
    var y' := TakenLeads(y, 0);
    CountsKept(y, RegisterTaken(0));
    assert Reached(y', made, n, RegisterTaken(0));
    SharedIff(y', made, n, RegisterTaken(0));
  }

  /** A registration whose code is an object or an array, with a code stored. */
  const UNREADABLE := Facts("1", None, false, 0)

  function RegisterUnreadable(i: nat): seq<Event> { Lease(i) + [Decide(i, UNREADABLE)] }

  lemma UnreadableLeads(y: System, i: nat) returns (y': System)
    requires CanLease(y, i)
    ensures Leads(y, RegisterUnreadable(i), y') && y'.handlers == y.handlers && y'.doubled == y.doubled
    ensures y'.pool.available == y.pool.available[1..] && y'.leaked == y.leaked + multiset{y.pool.available[0]}
  {
    var mid := Leased(y, i);
    LeaseLeads(y, i);
    y' := After(mid, Decide(i, UNREADABLE));
    assert Leads(y', [], y');
    LeadsCons(mid, Decide(i, UNREADABLE), [], y');
    assert [Decide(i, UNREADABLE)] + [] == [Decide(i, UNREADABLE)];
    LeadsAppend(y, Lease(i), mid, [Decide(i, UNREADABLE)], y');
    assert y'.handlers == y.handlers;
  }

  /** One such request takes a connection away from any pool, whatever the back ends say. */
  lemma UnreadableCodeLoses(made: seq<Option<Conn>>, n: nat)
    requires n >= 1 && NonNull(made) != []
    ensures CanRunAll(Start(made, n), RegisterUnreadable(0))
    ensures Quiescent(RunAll(Start(made, n), RegisterUnreadable(0)))
    ensures RunAll(Start(made, n), RegisterUnreadable(0)).pool.available == NonNull(made)[1..]
    ensures Twice(Start(made, n), RegisterUnreadable(0)) == 0 && Never(Start(made, n), RegisterUnreadable(0)) == 1
  {
    var y' := UnreadableLeads(Start(made, n), 0);
    CountsKept(Start(made, n), RegisterUnreadable(0));
  }

  lemma {:induction false} HandlersKept(y: System, events: seq<Event>)
    requires CanRunAll(y, events)
    ensures |RunAll(y, events).handlers| == |y.handlers|
    decreases events
  {
    if events != [] {
      HandlersKept(After(y, events[0]), events[1..]);
    }
  }
}

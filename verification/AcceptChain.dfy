/** The accept chain (src/Server.cpp) and the unguarded counter that it uses
    (src/AsioIOServicePool.cpp).

    A caller is one activation of Server::strat: the first comes from main, every other one
    from the completion handler of an accept. Completions run on the threads of the service
    pool, so the end of one caller may overlap with the next one. The counter is read,
    written back and wrapped in separate steps, with no lock. */
module AcceptChain {
  import opened RoundRobin

  /** `Pending`: the accept is outstanding. `Fired`: its handler has been entered.
      `Starting`: in new_connection->start(). `Read`, `Bump`, `Wrap`: inside GetIOService.
      `Issue`: making the connection and calling async_accept. `Tail`: after that. */
  datatype Caller =
    | Pending | Fired(error: bool) | Starting | Read | Bump(idx: nat) | Wrap(idx: nat) | Issue(idx: nat) | Tail | Done
  {
    predicate Live() { !Tail? && !Done? }
    predicate InCounter() { Read? || Bump? || Wrap? }
  }

  /** `bound[k]` is the service of the k-th accept; `threw` is history. */
  datatype State = State(n: nat, next: nat, callers: seq<Caller>, bound: seq<nat>, threw: bool)
  {
    function Move(i: nat, c: Caller): State requires i < |callers| { this.(callers := callers[i := c]) }
  }

  datatype Action =
    | Complete(i: nat, error: bool) | Enter(i: nat) | Started(i: nat) | Throw(i: nat)
    | ReadCounter(i: nat) | BumpCounter(i: nat) | WrapCounter(i: nat) | IssueAccept(i: nat) | Return(i: nat)

  function Init(n: nat): State { State(n, 0, [Read], [], false) }

  predicate Enabled(s: State, a: Action) {
    a.i < |s.callers| &&
    var c := s.callers[a.i];
    match a
    case Complete(_, _) => c.Pending?
    case Enter(_) => c.Fired?
    case Started(_) => c.Starting?
    case Throw(_) => c.Starting? || c.Issue?
    case ReadCounter(_) => c.Read?
    case BumpCounter(_) => c.Bump?
    case WrapCounter(_) => c.Wrap?
    case IssueAccept(_) => c.Issue?
    case Return(_) => c.Tail?
  }

  function Next(s: State, a: Action): State
    requires Enabled(s, a)
  {
    var i, c := a.i, s.callers[a.i];
    match a
    case Complete(_, error) => s.Move(i, Fired(error))
    case Enter(_) => s.Move(i, if c.error then Read else Starting)
    case Started(_) => s.Move(i, Read)
    case Throw(_) => s.Move(i, Done).(threw := true)
    case ReadCounter(_) => s.Move(i, Bump(s.next))
    case BumpCounter(_) => s.Move(i, Wrap(c.idx)).(next := c.idx + 1)
    case WrapCounter(_) => s.Move(i, Issue(c.idx)).(next := if s.next == s.n then 0 else s.next)
    case IssueAccept(_) => s.(callers := s.callers[i := Tail] + [Pending], bound := s.bound + [c.idx])
    case Return(_) => s.Move(i, Done)
  }

  predicate CanRun(s: State, acts: seq<Action>)
    decreases acts
  {
    acts == [] || (Enabled(s, acts[0]) && CanRun(Next(s, acts[0]), acts[1..]))
  }

  function Run(s: State, acts: seq<Action>): State
    requires CanRun(s, acts)
    decreases acts
  {
    if acts == [] then s else Run(Next(s, acts[0]), acts[1..])
  }

  ghost predicate Reachable(s: State, n: nat, acts: seq<Action>) { CanRun(Init(n), acts) && s == Run(Init(n), acts) }

  /** A run goes on by one step. */
  lemma {:induction false} RunSnoc(s: State, acts: seq<Action>, a: Action)
    requires CanRun(s, acts) && Enabled(Run(s, acts), a)
    ensures CanRun(s, acts + [a]) && Run(s, acts + [a]) == Next(Run(s, acts), a)
    decreases acts
  {
    if acts == [] {
      assert [a][1..] == [] && CanRun(Next(s, a), []);
      assert acts + [a] == [a];
    } else {
      RunSnoc(Next(s, acts[0]), acts[1..], a);
      assert (acts + [a])[1..] == acts[1..] + [a];
    }
  }

  // ----- the object, one step of a caller per method -----

  class Server {
    const n: nat
    var next: nat                // AsioIOServicePool::_nextIOService
    var callers: seq<Caller>
    var bound: seq<nat>
    ghost var threw: bool
    ghost var acts: seq<Action>  // the steps so far

    ghost function Abs(): State
      reads this
    {
      State(n, next, callers, bound, threw)
    }

    /** The steps so far lead from the first call of strat to here. */
    ghost predicate Valid()
      reads this
    {
      Reachable(Abs(), n, acts)
    }

    constructor (services: nat)
      ensures Valid() && Abs() == Init(services)
    {
      n, next, callers, bound, threw, acts := services, 0, [Read], [], false, [];
    }

    lemma Safe()
      requires Valid() && n > 0
      ensures Inv(Abs())
    {
      assert 0 % n == 0;
      RunInv(Init(n), acts);
    }

    /** Take down the step that is about to be made. */
    ghost method Record(a: Action)
      requires Valid() && Enabled(Abs(), a)
      modifies this`acts
      ensures acts == old(acts) + [a]
      ensures Reachable(Next(Abs(), a), n, acts)
    {
      RunSnoc(Init(n), acts, a);
      acts := acts + [a];
    }

    /** The accept finishes and its handler is called. */
    method Complete(i: nat, error: bool)
      requires Valid() && Enabled(Abs(), Action.Complete(i, error))
      modifies this
      ensures Valid() && Abs() == Next(old(Abs()), Action.Complete(i, error))
    {
      Record(Action.Complete(i, error));
      callers := callers[i := Fired(error)];
    }

    /** On an error the handler goes straight to strat, otherwise it starts the connection. */
    method Enter(i: nat)
      requires Valid() && Enabled(Abs(), Action.Enter(i))
      modifies this
      ensures Valid() && Abs() == Next(old(Abs()), Action.Enter(i))
    {
      Record(Action.Enter(i));
      callers := callers[i := if callers[i].error then Read else Starting];
    }

    method Started(i: nat)
      requires Valid() && Enabled(Abs(), Action.Started(i))
      modifies this
      ensures Valid() && Abs() == Next(old(Abs()), Action.Started(i))
    {
      Record(Action.Started(i));
      callers := callers[i := Read];
    }

    /** The catch block is empty: nothing is issued again. */
    method Throw(i: nat)
      requires Valid() && Enabled(Abs(), Action.Throw(i))
      modifies this
      ensures Valid() && Abs() == Next(old(Abs()), Action.Throw(i))
    {
      Record(Action.Throw(i));
      callers := callers[i := Done];
      threw := true;
    }

    method ReadCounter(i: nat)
      requires Valid() && Enabled(Abs(), Action.ReadCounter(i))
      modifies this
      ensures Valid() && Abs() == Next(old(Abs()), Action.ReadCounter(i))
    {
      Record(Action.ReadCounter(i));
      callers := callers[i := Bump(next)];
    }

    method BumpCounter(i: nat)
      requires Valid() && Enabled(Abs(), Action.BumpCounter(i))
      modifies this
      ensures Valid() && Abs() == Next(old(Abs()), Action.BumpCounter(i))
    {
      Record(Action.BumpCounter(i));
      var idx := callers[i].idx;
      next := idx + 1;
      callers := callers[i := Wrap(idx)];
    }

    method WrapCounter(i: nat)
      requires Valid() && Enabled(Abs(), Action.WrapCounter(i))
      modifies this
      ensures Valid() && Abs() == Next(old(Abs()), Action.WrapCounter(i))
    {
      Record(Action.WrapCounter(i));
      if next == n {
        next := 0;
      }
      callers := callers[i := Issue(callers[i].idx)];
    }

    /** async_accept: the new accept is outstanding before the caller returns. */
    method IssueAccept(i: nat)
      requires Valid() && Enabled(Abs(), Action.IssueAccept(i))
      modifies this
      ensures Valid() && Abs() == Next(old(Abs()), Action.IssueAccept(i))
    {
      Record(Action.IssueAccept(i));
      bound := bound + [callers[i].idx];
      callers := callers[i := Tail] + [Pending];
    }

    method Return(i: nat)
      requires Valid() && Enabled(Abs(), Action.Return(i))
      modifies this
      ensures Valid() && Abs() == Next(old(Abs()), Action.Return(i))
    {
      Record(Action.Return(i));
      callers := callers[i := Done];
    }
  }

  // ----- what every run keeps -----

  /** Only the youngest caller can be live, and it sees the counter of a sequential use. */
  ghost predicate Inv(s: State) {
    && s.n > 0 && |s.callers| == |s.bound| + 1
    && (forall i :: 0 <= i < |s.callers| - 1 ==> !s.callers[i].Live())
    && (forall k :: 0 <= k < |s.bound| ==> s.bound[k] == k % s.n)
    && CounterInv(s, s.callers[|s.callers| - 1], |s.bound| % s.n)
    && (!s.threw <==> s.callers[|s.callers| - 1].Live())
  }

  ghost predicate CounterInv(s: State, last: Caller, turn: nat)
    requires s.n > 0
  {
    match last
    case Bump(idx) => idx == turn && s.next == turn
    case Wrap(idx) => idx == turn && s.next == turn + 1
    case Issue(idx) => idx == turn && s.next == Advance(s.n, turn)
    case Tail => true
    case Done => true
    case _ => s.next == turn
  }

  lemma StepInv(s: State, a: Action)
    requires Inv(s) && Enabled(s, a)
    ensures Inv(Next(s, a))
  {
    var s' := Next(s, a);
    var m := |s.bound|;
    NextMod(s.n, m);
    if a.IssueAccept? {
      assert a.i == |s.callers| - 1;
      assert s'.bound[m] == m % s.n;
      assert s'.callers[|s'.callers| - 1] == Pending;
    }
  }

  lemma {:induction false} RunInv(s: State, acts: seq<Action>)
    requires Inv(s) && CanRun(s, acts)
    ensures Inv(Run(s, acts)) && Run(s, acts).n == s.n
    decreases acts
  {
    if acts != [] {
      StepInv(s, acts[0]);
      RunInv(Next(s, acts[0]), acts[1..]);
    }
  }

  ghost predicate OneLive(s: State) {
    forall i, j :: 0 <= i < j < |s.callers| ==> !(s.callers[i].Live() && s.callers[j].Live())
  }

  ghost predicate OneInCounter(s: State) {
    forall i, j :: 0 <= i < j < |s.callers| ==> !(s.callers[i].InCounter() && s.callers[j].InCounter())
  }

  /** The chain is sequential. Whatever the completions bring, success, error or exception,
      at most one caller is before its async_accept; the counter is never used by two at
      once and never out of range; accept k goes to service k mod n; and the chain goes on
      exactly as long as nothing has thrown. */
  lemma ChainIsSequential(n: nat, acts: seq<Action>)
    requires n > 0 && CanRun(Init(n), acts)
    ensures var s := Run(Init(n), acts);
      && OneLive(s) && OneInCounter(s)
      && (forall k :: 0 <= k < |s.bound| ==> s.bound[k] == Counter(n, k) == k % n)
      && (forall i :: 0 <= i < |s.callers| && s.callers[i].Bump? ==> s.callers[i].idx == s.next < n)
      && (!s.threw <==> exists i :: 0 <= i < |s.callers| && s.callers[i].Live())
  {
    assert 0 % n == 0;
    RunInv(Init(n), acts);
    var s := Run(Init(n), acts);
    forall k | 0 <= k < |s.bound| ensures s.bound[k] == Counter(n, k) == k % n {
      CallIndex(n, k);
    }
  }

  /** One exception ends the chain for good: no accept is ever issued again. */
  lemma {:induction false} ThrowEndsChain(s: State, more: seq<Action>)
    requires Inv(s) && s.threw && CanRun(s, more)
    ensures Run(s, more).bound == s.bound && Run(s, more).threw
    decreases more
  {
    if more != [] {
      StepInv(s, more[0]);
      ThrowEndsChain(Next(s, more[0]), more[1..]);
    }
  }

  // ----- which completions start a connection -----

  predicate Fresh(i: nat, past: seq<Action>) {
    Complete(i, true) !in past && Complete(i, false) !in past && Started(i) !in past && Throw(i) !in past
  }

  /** Where caller `i` stands against its events so far. */
  predicate Tracked(c: Caller, i: nat, past: seq<Action>) {
    match c
    case Pending => Fresh(i, past)
    case Fired(e) =>
      Complete(i, e) in past && Complete(i, !e) !in past && Started(i) !in past && Throw(i) !in past
    case Starting =>
      Complete(i, false) in past && Complete(i, true) !in past && Started(i) !in past && Throw(i) !in past
    case _ =>
      && !(Complete(i, true) in past && Complete(i, false) in past)
      && (Started(i) in past ==> Complete(i, false) in past)
      && (Complete(i, false) in past ==> Started(i) in past || Throw(i) in past)
  }

  ghost predicate StartInv(s: State, past: seq<Action>) {
    && (forall i: nat :: i < |s.callers| ==> Tracked(s.callers[i], i, past))
    && (forall i: nat :: i >= |s.callers| ==> Fresh(i, past))
  }

  lemma StartStep(s: State, a: Action, past: seq<Action>)
    requires StartInv(s, past) && Enabled(s, a)
    ensures StartInv(Next(s, a), past + [a])
  {
    var s' := Next(s, a);
    assert forall b :: b in past + [a] <==> b in past || b == a;
    forall i: nat | i < |s'.callers| ensures Tracked(s'.callers[i], i, past + [a]) {
      if i < |s.callers| {
        assert Tracked(s.callers[i], i, past);
      } else {
        assert Fresh(i, past);
      }
    }
    forall i: nat | i >= |s'.callers| ensures Fresh(i, past + [a]) {
      assert Fresh(i, past);
    }
  }

  lemma {:induction false} StartRun(s: State, past: seq<Action>, more: seq<Action>)
    requires StartInv(s, past) && CanRun(s, more)
    ensures StartInv(Run(s, more), past + more)
    decreases more
  {
    if more == [] {
      assert past + more == past;
    } else {
      StartStep(s, more[0], past);
      StartRun(Next(s, more[0]), past + [more[0]], more[1..]);
      assert past + [more[0]] + more[1..] == past + more;
    }
  }

  /** An accept that succeeds starts its connection, unless the start throws; one that fails
      starts none. Nothing else does. */
  lemma SuccessesStart(n: nat, acts: seq<Action>, i: nat)
    requires CanRun(Init(n), acts) && i < |Run(Init(n), acts).callers|
    ensures Started(i) in acts ==> Complete(i, false) in acts
    ensures Complete(i, true) in acts ==> Started(i) !in acts
    ensures var c := Run(Init(n), acts).callers[i];
      Complete(i, false) in acts ==> Started(i) in acts || Throw(i) in acts || c == Fired(false) || c.Starting?
  {
    StartRun(Init(n), [], acts);
    assert [] + acts == acts;
    assert Tracked(Run(Init(n), acts).callers[i], i, acts);
  }
}

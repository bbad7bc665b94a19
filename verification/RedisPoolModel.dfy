/** RedisPool as a system of concurrent steps (src/RedisPool.cpp).

    Any number of client threads call getConnection, returnConnection and close. Between
    two steps of one client any other client may run. A step is one access to shared
    data: taking the mutex, one read of the atomic flag, one queue operation under the
    mutex, one notify. Condition-variable wait is four steps: test the predicate under the
    mutex; unlock and start to sleep at once; be notified or wake spuriously; take the
    mutex again and test again. */
module RedisPoolModel {
  import opened Options

  /** A live connection object, known by its identity. */
  type Conn = nat

  /** Where a client stands. `G` points belong to getConnection, `R` points to
      returnConnection and `C` points to close. */
  datatype Pc =
    | Idle
    | GLock | GTest(retest: bool) | GBlock | GAsleep | GWoken | GCheck | GTake | GUnlock(got: Option<Conn>)
    | RTest(conn: Option<Conn>) | RLock(c: Conn) | RPush(c: Conn) | RNotify | RUnlock
    | CStore | CLock | CDrain | CNotify | CUnlock
  {
    predicate Holds() {
      GTest? || GBlock? || GCheck? || GTake? || GUnlock? || RPush? || RNotify? || RUnlock?
      || CDrain? || CNotify? || CUnlock?
    }

    predicate WantsMutex() { GLock? || GWoken? || RLock? || CLock? }

    /** The connection that this point keeps alive, if any. */
    function Cargo(): Option<Conn> {
      match this
      case GUnlock(got) => got
      case RTest(conn) => conn
      case RLock(c) => Some(c)
      case RPush(c) => Some(c)
      case _ => None
    }

    function Carries(): multiset<Conn> {
      if Cargo().Some? then multiset{Cargo().value} else multiset{}
    }
  }

  /** A client thread: its position and the connections that getConnection gave it. */
  datatype Client = Client(pc: Pc, held: multiset<Conn>)

  /** What has happened so far: the connections of the constructor, those pushed, handed
      out, drained, and destroyed by a return after closing; whether close() has notified;
      whether front() or pop() ever met an empty queue. */
  datatype History = History(
    initial: seq<Conn>, pushed: seq<Conn>, granted: seq<Conn>, drained: seq<Conn>,
    dropped: multiset<Conn>, announced: bool, fault: bool)

  /** The pool's members, the clients and the history. */
  datatype State = State(available: seq<Conn>, closed: bool, mutex: Option<nat>, clients: seq<Client>, h: History)
  {
    predicate At(i: nat) { i < |clients| }
    function Pc(i: nat): Pc requires At(i) { clients[i].pc }
    function Move(i: nat, pc: Pc): State requires At(i) {
      this.(clients := clients[i := clients[i].(pc := pc)])
    }
  }

  datatype Action =
    | BeginGet(i: nat) | BeginReturn(i: nat, conn: Option<Conn>) | BeginClose(i: nat)
    | Lock(i: nat) | Unlock(i: nat)
    | Test(i: nat) | Block(i: nat) | SpuriousWake(i: nat) | Check(i: nat) | Take(i: nat)
    | TestReturn(i: nat) | Push(i: nat) | NotifyOne(i: nat, waiter: Option<nat>)
    | StoreClosed(i: nat) | Drain(i: nat) | NotifyAll(i: nat)
  {
    /** A step inside a call, as opposed to the start of a new call. */
    predicate Internal() { !BeginGet? && !BeginReturn? && !BeginClose? }
  }

  /** The connections that the constructor's loop managed to create. */
  function NonNull(made: seq<Option<Conn>>): seq<Conn> {
    if made == [] then []
    else (if made[0].Some? then [made[0].value] else []) + NonNull(made[1..])
  }

  function Init(made: seq<Option<Conn>>, clients: nat): State {
    var queue := NonNull(made);
    State(queue, false, None, seq(clients, _ => Client(Idle, multiset{})),
          History(queue, [], [], [], multiset{}, false, false))
  }

  ghost predicate Enabled(s: State, a: Action) {
    s.At(a.i) &&
    var pc := s.Pc(a.i);
    match a
    case BeginGet(_) => pc.Idle?
    case BeginReturn(_, _) => pc.Idle?
    case BeginClose(_) => pc.Idle?
    case Lock(_) => pc.WantsMutex() && s.mutex.None?
    case Unlock(_) => pc.GUnlock? || pc.RUnlock? || pc.CUnlock?
    case Test(_) => pc.GTest?
    case Block(_) => pc.GBlock?
    case SpuriousWake(_) => pc.GAsleep?
    case Check(_) => pc.GCheck?
    case Take(_) => pc.GTake?
    case TestReturn(_) => pc.RTest?
    case Push(_) => pc.RPush?
    case NotifyOne(_, Some(w)) => pc.RNotify? && s.At(w) && s.Pc(w).GAsleep?
    case NotifyOne(_, None) => pc.RNotify? && forall j: nat :: s.At(j) ==> !s.Pc(j).GAsleep?
    case StoreClosed(_) => pc.CStore?
    case Drain(_) => pc.CDrain?
    case NotifyAll(_) => pc.CNotify?
  }

  function AfterLock(pc: Pc): Pc requires pc.WantsMutex() {
    match pc
    case GLock => GTest(false)
    case GWoken => GTest(true)
    case RLock(c) => RPush(c)
    case CLock => CDrain
  }

  function Wake(c: Client): Client { if c.pc.GAsleep? then c.(pc := GWoken) else c }

  function WakeAll(cs: seq<Client>): (r: seq<Client>)
    ensures |r| == |cs|
  {
    seq(|cs|, j requires 0 <= j < |cs| => Wake(cs[j]))
  }

  ghost function Next(s: State, a: Action): State
    requires Enabled(s, a)
  {
    var i, pc := a.i, s.Pc(a.i);
    match a
    case BeginGet(_) => s.Move(i, GLock)
    case BeginReturn(_, conn) =>
      var kept := if conn.Some? then s.clients[i].held - multiset{conn.value} else s.clients[i].held;
      s.(clients := s.clients[i := Client(RTest(conn), kept)])
    case BeginClose(_) => s.Move(i, CStore)
    case Lock(_) => s.Move(i, AfterLock(pc)).(mutex := Some(i))
    case Unlock(_) =>
      var held := s.clients[i].held + pc.Carries();
      s.(mutex := None, clients := s.clients[i := Client(Idle, held)])
    case Test(_) => s.Move(i, if s.available != [] || s.closed then GCheck else GBlock)
    case Block(_) => s.Move(i, GAsleep).(mutex := None)
    case SpuriousWake(_) => s.Move(i, GWoken)
    case Check(_) => s.Move(i, if s.closed then GUnlock(None) else GTake)
    case Take(_) =>
      if s.available == [] then s.Move(i, GUnlock(None)).(h := s.h.(fault := true))
      else s.Move(i, GUnlock(Some(s.available[0]))).(
             available := s.available[1..], h := s.h.(granted := s.h.granted + [s.available[0]]))
    case TestReturn(_) =>
      if pc.conn.None? then s.Move(i, Idle)
      else if s.closed then s.Move(i, Idle).(h := s.h.(dropped := s.h.dropped + multiset{pc.conn.value}))
      else s.Move(i, RLock(pc.conn.value))
    case Push(_) => s.Move(i, RNotify).(available := s.available + [pc.c], h := s.h.(pushed := s.h.pushed + [pc.c]))
    case NotifyOne(_, Some(w)) => s.Move(w, GWoken).Move(i, RUnlock)
    case NotifyOne(_, None) => s.Move(i, RUnlock)
    case StoreClosed(_) => s.Move(i, CLock).(closed := true)
    case Drain(_) => s.Move(i, CNotify).(available := [], h := s.h.(drained := s.h.drained + s.available))
    case NotifyAll(_) =>
      s.(clients := WakeAll(s.clients)[i := s.clients[i].(pc := CUnlock)], h := s.h.(announced := true))
  }

  /** Runs: any finite interleaving of the clients' steps. */
  ghost predicate CanRun(s: State, acts: seq<Action>)
    decreases acts
  {
    acts == [] || (Enabled(s, acts[0]) && CanRun(Next(s, acts[0]), acts[1..]))
  }

  ghost function Run(s: State, acts: seq<Action>): State
    requires CanRun(s, acts)
    decreases acts
  {
    if acts == [] then s else Run(Next(s, acts[0]), acts[1..])
  }
}

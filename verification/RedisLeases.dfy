/** The two handlers of LogicalSystem that lease Redis connections (src/LogicalSystem.cpp,
    /user_register and /submit_forget_passwd), over the concurrent pool.

    The pool stays open, the back ends do not throw, a stored code is present and may be
    empty. What Redis and MySQL answer is up to them, and a request may hold anything. */
module RedisLeases {
  import opened Options
  import opened Tally
  import opened RedisPoolModel
  import opened RedisPoolProofs
  import opened RedisPoolOwnership

  const SUCCESS := 0
  const ERROR_JSON := 1001
  const CODE_EXPIRED := 1003
  const CODE_WRONG := 1004
  const USER_EXISTS := 1005
  const MYSQL_ERROR := 1006
  const EMAIL_REGISTERED := 1008
  const USER_MISSING := 1009
  const EMAIL_MISMATCH := 1011

  datatype Kind = Register | ForgotPassword

  /** The request body: not JSON, JSON with a field that `asString` refuses (an object or an
      array) among those read before the lease, or usable. */
  datatype Request = NotJson | Refused | Readable

  /** What the back ends answer: the stored code, whether the user exists, and the result
      of RegUser or Change_Passwd_When_User_Forget_Passwd. `given` is the code in the
      request, None if `asString` refuses it. */
  datatype Facts = Facts(code: string, given: Option<string>, userExists: bool, result: int)

  /** The stored code is there and matches. */
  predicate CodeAccepted(f: Facts) { f.code != "" && f.given == Some(f.code) }

  /** RegUser is called and reports a registered email. */
  predicate RegistersTwice(kind: Kind, f: Facts) {
    kind.Register? && CodeAccepted(f) && !f.userExists && f.result == -2
  }

  /** The password change gives a result that no branch of its handler covers. */
  predicate FallsThrough(kind: Kind, f: Facts) {
    kind.ForgotPassword? && CodeAccepted(f) && f.result !in {-3, -2, -1, 1}
  }

  /** /user_register reads the given code only once it has its connection, and only to
      compare it with a stored one; the exception takes the connection along. */
  predicate ThrowsWithLease(kind: Kind, f: Facts) {
    kind.Register? && f.code != "" && f.given.None?
  }

  predicate Loses(kind: Kind, f: Facts) { FallsThrough(kind, f) || ThrowsWithLease(kind, f) }

  /** How often the handler hands its connection back. */
  function Returns(kind: Kind, f: Facts): nat {
    if RegistersTwice(kind, f) then 2 else if Loses(kind, f) then 0 else 1
  }

  /** What one run of a handler does: whether it takes a connection, how often it hands it
      back, the error codes written to the body, and whether it ends by an exception. */
  datatype Effect = Effect(leased: bool, returned: nat, replies: seq<int>, threw: bool)

  /** /user_register, statement by statement. */
  method UserRegister(request: Request, f: Facts) returns (e: Effect)
    ensures e.leased == request.Readable?
    ensures e.returned == if request.Readable? then Returns(Register, f) else 0
    ensures e.threw <==> request.Refused? || (request.Readable? && ThrowsWithLease(Register, f))
    ensures e.threw ==> e.replies == []
    ensures request.NotJson? ==> e.replies == [ERROR_JSON]
    ensures request.Readable? ==>
      && (f.code == "" ==> e.replies == [CODE_EXPIRED])
      && (f.code != "" && f.given.Some? && f.given.value != f.code ==> e.replies == [CODE_WRONG])
      && (CodeAccepted(f) && f.userExists ==> e.replies == [USER_EXISTS])
      && (CodeAccepted(f) && !f.userExists ==>
            e.replies == if f.result in {0, -1} then [MYSQL_ERROR]
                         else if f.result == -2 then [EMAIL_REGISTERED, SUCCESS] else [SUCCESS])
  {
    e := Effect(false, 0, [], false);
    if request.NotJson? {
      e := e.(replies := e.replies + [ERROR_JSON]);
      return;
    }
    if request.Refused? {
      e := e.(threw := true);
      return;
    }
    e := e.(leased := true);
    if f.code == "" {
      e := e.(replies := e.replies + [CODE_EXPIRED], returned := e.returned + 1);
      return;
    }
    if f.given.None? {
      e := e.(threw := true);
      return;
    }
    if f.code != f.given.value {
      e := e.(replies := e.replies + [CODE_WRONG], returned := e.returned + 1);
      return;
    }
    if f.userExists {
      e := e.(replies := e.replies + [USER_EXISTS], returned := e.returned + 1);
      return;
    }
    if f.result == 0 || f.result == -1 {
      e := e.(replies := e.replies + [MYSQL_ERROR], returned := e.returned + 1);
      return;
    }
    if f.result == -2 {
      e := e.(replies := e.replies + [EMAIL_REGISTERED], returned := e.returned + 1);
    }
    e := e.(replies := e.replies + [SUCCESS], returned := e.returned + 1);
  }

  /** /submit_forget_passwd, which reads all its fields before the lease. A result outside
      the four branches leaves the handler at its end, without an answer and without the
      return. */
  method SubmitForgetPasswd(request: Request, f: Facts) returns (e: Effect)
    ensures e.leased <==> request.Readable? && f.given.Some?
    ensures e.returned == if e.leased then Returns(ForgotPassword, f) else 0
    ensures e.threw <==> !request.NotJson? && !e.leased
    ensures e.threw ==> e.replies == []
    ensures request.NotJson? ==> e.replies == [ERROR_JSON]
    ensures e.leased ==>
      && (f.code == "" ==> e.replies == [CODE_EXPIRED])
      && (f.code != "" && f.given.value != f.code ==> e.replies == [CODE_WRONG])
      && (CodeAccepted(f) ==>
            e.replies == if f.result == -2 then [USER_MISSING] else if f.result == -1 then [MYSQL_ERROR]
                         else if f.result == -3 then [EMAIL_MISMATCH] else if f.result == 1 then [SUCCESS] else [])
  {
    e := Effect(false, 0, [], false);
    if request.NotJson? {
      e := e.(replies := e.replies + [ERROR_JSON]);
      return;
    }
    if request.Refused? || f.given.None? {
      e := e.(threw := true);
      return;
    }
    e := e.(leased := true);
    if f.code == "" {
      e := e.(replies := e.replies + [CODE_EXPIRED], returned := e.returned + 1);
      return;
    }
    if f.code != f.given.value {
      e := e.(replies := e.replies + [CODE_WRONG], returned := e.returned + 1);
      return;
    }
    if f.result == -2 {
      e := e.(returned := e.returned + 1, replies := e.replies + [USER_MISSING]);
      return;
    }
    if f.result == -1 {
      e := e.(returned := e.returned + 1, replies := e.replies + [MYSQL_ERROR]);
      return;
    }
    if f.result == -3 {
      e := e.(returned := e.returned + 1, replies := e.replies + [EMAIL_MISMATCH]);
      return;
    }
    if f.result == 1 {
      e := e.(returned := e.returned + 1, replies := e.replies + [SUCCESS]);
      return;
    }
  }

  // ----- handlers and pool as one system -----

  /** Where a handler stands: in getConnection, using its connection, or in a
      returnConnection that a second one may follow. `HCrashed` is a null dereference. */
  datatype Handler =
    | HIdle | HTaking(kind: Kind) | HUsing(kind: Kind, conn: Conn) | HReturning(again: Option<Conn>) | HCrashed

  /** `doubled` and `leaked` count, for each connection, the returns too many and too few. */
  datatype System = System(pool: State, handlers: seq<Handler>, doubled: multiset<Conn>, leaked: multiset<Conn>)

  datatype Event =
    | Arrive(i: nat, kind: Kind, request: Request)
    | Decide(i: nat, f: Facts)
    | ReturnAgain(i: nat)
    | PoolStep(a: Action)

  function Start(made: seq<Option<Conn>>, n: nat): System {
    System(Init(made, n), seq(n, _ => HIdle), multiset{}, multiset{})
  }

  ghost predicate CanHappen(y: System, e: Event) {
    |y.handlers| == |y.pool.clients| &&
    match e
    case Arrive(i, _, _) => i < |y.handlers| && y.handlers[i].HIdle? && y.pool.Pc(i).Idle?
    case Decide(i, f) =>
      && i < |y.handlers| && y.handlers[i].HUsing? && y.pool.Pc(i).Idle?
      && (y.handlers[i].kind.ForgotPassword? ==> f.given.Some?)
    case ReturnAgain(i) =>
      i < |y.handlers| && y.handlers[i].HReturning? && y.handlers[i].again.Some? && y.pool.Pc(i).Idle?
    case PoolStep(a) => a.Internal() && Enabled(y.pool, a)
  }

  /** Where a handler goes on when its client leaves a pool call. */
  function Follow(h: Handler, pc: Pc): Handler {
    match h
    case HTaking(kind) => if pc.GUnlock? && pc.got.Some? then HUsing(kind, pc.got.value) else HCrashed
    case HReturning(None) => HIdle
    case _ => h
  }

  ghost function After(y: System, e: Event): System
    requires CanHappen(y, e)
  {
    match e
    case Arrive(i, kind, request) =>
      if request.Readable? then y.(pool := Next(y.pool, BeginGet(i)), handlers := y.handlers[i := HTaking(kind)]) else y
    case Decide(i, f) =>
      var kind, c := y.handlers[i].kind, y.handlers[i].conn;
      var n := Returns(kind, f);
      if n == 0 then y.(handlers := y.handlers[i := HIdle], leaked := y.leaked + multiset{c})
      else y.(pool := Next(y.pool, BeginReturn(i, Some(c))),
              handlers := y.handlers[i := HReturning(if n == 2 then Some(c) else None)],
              doubled := if n == 2 then y.doubled + multiset{c} else y.doubled)
    case ReturnAgain(i) =>
      y.(pool := Next(y.pool, BeginReturn(i, y.handlers[i].again)), handlers := y.handlers[i := HReturning(None)])
    case PoolStep(a) =>
      var pool' := Next(y.pool, a);
      if pool'.Pc(a.i).Idle? then
        y.(pool := pool', handlers := y.handlers[a.i := Follow(y.handlers[a.i], y.pool.Pc(a.i))])
      else y.(pool := pool')
  }

  ghost predicate CanRunAll(y: System, events: seq<Event>)
    decreases events
  {
    events == [] || (CanHappen(y, events[0]) && CanRunAll(After(y, events[0]), events[1..]))
  }

  ghost function RunAll(y: System, events: seq<Event>): System
    requires CanRunAll(y, events)
    decreases events
  {
    if events == [] then y else RunAll(After(y, events[0]), events[1..])
  }

  // ----- what every run keeps -----

  predicate InGet(pc: Pc) {
    pc.GLock? || pc.GTest? || pc.GBlock? || pc.GAsleep? || pc.GWoken? || pc.GCheck? || pc.GTake?
    || (pc.GUnlock? && pc.got.Some?)
  }

  predicate InReturn(pc: Pc) {
    (pc.RTest? && pc.conn.Some?) || pc.RLock? || pc.RPush? || pc.RNotify? || pc.RUnlock?
  }

  /** A handler and its client in the pool are at the same point of the program. */
  predicate Matched(h: Handler, pc: Pc) {
    match h
    case HIdle => pc.Idle?
    case HTaking(_) => InGet(pc)
    case HUsing(_, _) => pc.Idle?
    case HReturning(again) => InReturn(pc) || (pc.Idle? && again.Some?)
    case HCrashed => false
  }

  ghost predicate MatchInv(y: System) {
    && |y.handlers| == |y.pool.clients| && !y.pool.closed
    && forall i :: 0 <= i < |y.handlers| ==> Matched(y.handlers[i], y.pool.clients[i].pc)
  }

  function CargoIs(client: Client, c: Conn): int { if client.pc.Cargo() == Some(c) then 1 else 0 }

  function CargoOf(c: Conn): Client -> int { client => CargoIs(client, c) }

  /** How often a handler still owes `c`, beyond what its client carries. */
  function OwesIs(h: Handler, c: Conn): int {
    match h
    case HUsing(_, conn) => if conn == c then 1 else 0
    case HReturning(Some(conn)) => if conn == c then 1 else 0
    case _ => 0
  }

  function OwesOf(c: Conn): Handler -> int { h => OwesIs(h, c) }

  /** Where `c` is: in the queue, moving through the pool, or with a handler. */
  ghost function Places(y: System, c: Conn): int {
    multiset(y.pool.available)[c] + Sum(y.pool.clients, CargoOf(c)) + Sum(y.handlers, OwesOf(c))
  }

  ghost predicate Balanced(y: System, c: Conn) {
    Places(y, c) + y.leaked[c] == multiset(y.pool.h.initial)[c] + y.doubled[c]
  }

  ghost predicate SysInv(y: System, c: Conn) { Inv(y.pool) && MatchInv(y) && Balanced(y, c) }

  lemma StartInv(made: seq<Option<Conn>>, n: nat, c: Conn)
    ensures SysInv(Start(made, n), c)
  {
    InitInv(made, n);
    SumZero(Start(made, n).pool.clients, CargoOf(c));
    SumZero(Start(made, n).handlers, OwesOf(c));
  }

  /** What a pool step inside a call does to a client of an open pool. */
  lemma PoolPoint(s: State, a: Action)
    requires Inv(s) && !s.closed && Enabled(s, a) && a.Internal()
    requires InGet(s.Pc(a.i)) || InReturn(s.Pc(a.i))
    ensures |Next(s, a).clients| == |s.clients| && !Next(s, a).closed
    ensures var pc, pc' := s.Pc(a.i), Next(s, a).Pc(a.i);
      && (InGet(pc) ==> InGet(pc') || (pc'.Idle? && pc.GUnlock?))
      && (InReturn(pc) ==> InReturn(pc') || (pc'.Idle? && pc.RUnlock?))
  {
    assert PointInv(s, s.Pc(a.i));
  }

  lemma MatchStep(y: System, e: Event)
    requires Inv(y.pool) && MatchInv(y) && CanHappen(y, e)
    ensures Inv(After(y, e).pool) && MatchInv(After(y, e))
  {
    match e
    case Arrive(i, kind, request) =>
      if request.Readable? {
        CallMatch(y, BeginGet(i), HTaking(kind));
      }
    case Decide(i, f) =>
      var c, n := y.handlers[i].conn, Returns(y.handlers[i].kind, f);
      if n > 0 {
        CallMatch(y, BeginReturn(i, Some(c)), HReturning(if n == 2 then Some(c) else None));
      }
    case ReturnAgain(i) =>
      CallMatch(y, BeginReturn(i, y.handlers[i].again), HReturning(None));
    case PoolStep(a) => PoolMatch(y, a);
  }

  /** A handler that starts a call of the pool stays matched with its client. */
  lemma CallMatch(y: System, a: Action, h: Handler)
    requires Inv(y.pool) && MatchInv(y) && Enabled(y.pool, a)
    requires (a.BeginGet? && h.HTaking?) || (a.BeginReturn? && a.conn.Some? && h.HReturning?)
    ensures Inv(Next(y.pool, a)) && MatchInv(y.(pool := Next(y.pool, a), handlers := y.handlers[a.i := h]))
  {
    StepInv(y.pool, a);
    var y' := y.(pool := Next(y.pool, a), handlers := y.handlers[a.i := h]);
    forall j | 0 <= j < |y'.handlers| ensures Matched(y'.handlers[j], y'.pool.clients[j].pc) {
      assert Matched(y.handlers[j], y.pool.clients[j].pc);
    }
  }

  lemma PoolMatch(y: System, a: Action)
    requires Inv(y.pool) && MatchInv(y) && CanHappen(y, PoolStep(a))
    ensures Inv(After(y, PoolStep(a)).pool) && MatchInv(After(y, PoolStep(a)))
  {
    var y', s' := After(y, PoolStep(a)), Next(y.pool, a);
    StepInv(y.pool, a);
    Frame(y.pool, a);
    assert Matched(y.handlers[a.i], y.pool.clients[a.i].pc);
    InsideCall(y.pool, a);
    PoolPoint(y.pool, a);
    assert y'.pool == s' && |y'.handlers| == |y.handlers|;
    forall j | 0 <= j < |y.handlers| ensures Matched(y'.handlers[j], s'.clients[j].pc) {
      assert Matched(y.handlers[j], y.pool.clients[j].pc);
      if j != a.i {
        assert y'.handlers[j] == y.handlers[j];
        WakeMatches(y.handlers[j], y.pool.clients[j], s'.clients[j]);
      }
    }
  }

  lemma WakeMatches(h: Handler, before: Client, after: Client)
    requires Matched(h, before.pc) && (after == before || after == Wake(before))
    ensures Matched(h, after.pc)
  {
  }

  lemma InsideCall(s: State, a: Action)
    requires Enabled(s, a) && a.Internal()
    ensures !s.Pc(a.i).Idle?
  {
  }

  /** A pool step moves a connection between queue and client, or out with the getter. */
  lemma PoolMoves(s: State, a: Action, c: Conn)
    requires Inv(s) && !s.closed && Enabled(s, a) && a.Internal()
    requires InGet(s.Pc(a.i)) || InReturn(s.Pc(a.i))
    ensures |Next(s, a).clients| == |s.clients|
    ensures multiset(Next(s, a).available)[c] + CargoIs(Next(s, a).clients[a.i], c)
            + (if s.Pc(a.i) == GUnlock(Some(c)) then 1 else 0)
         == multiset(s.available)[c] + CargoIs(s.clients[a.i], c)
  {
    if a.Take? {
      TakeMoves(s, a.i, c);
    } else if a.Push? || a.Unlock? || a.TestReturn? {
      CallMoves(s, a, c);
    } else {
      PartsKept(s, a);
    }
  }

  lemma TakeMoves(s: State, i: nat, c: Conn)
    requires Inv(s) && Enabled(s, Take(i))
    ensures |Next(s, Take(i)).clients| == |s.clients|
    ensures multiset(Next(s, Take(i)).available)[c] + CargoIs(Next(s, Take(i)).clients[i], c)
         == multiset(s.available)[c]
    ensures s.Pc(i).Cargo().None?
  {
    assert PointInv(s, s.Pc(i));
    assert s.available == [s.available[0]] + s.available[1..];
  }

  lemma CallMoves(s: State, a: Action, c: Conn)
    requires !s.closed && Enabled(s, a) && (a.Push? || a.Unlock? || a.TestReturn?)
    ensures |Next(s, a).clients| == |s.clients|
    ensures multiset(Next(s, a).available)[c] + CargoIs(Next(s, a).clients[a.i], c)
            + (if s.Pc(a.i) == GUnlock(Some(c)) then 1 else 0)
         == multiset(s.available)[c] + CargoIs(s.clients[a.i], c)
  {
  }

  lemma BalancedStep(y: System, e: Event, c: Conn)
    requires SysInv(y, c) && CanHappen(y, e)
    ensures Balanced(After(y, e), c)
  {
    match e
    case Arrive(i, kind, request) =>
      if request.Readable? {
        SumStep(y.pool, BeginGet(i), CargoOf(c));
        SumUpdate(y.handlers, i, HTaking(kind), OwesOf(c));
      }
    case Decide(i, f) => DecideBalances(y, i, f, c);
    case ReturnAgain(i) =>
      ReturnBegins(y.pool, i, y.handlers[i].again.value, c);
      SumUpdate(y.handlers, i, HReturning(None), OwesOf(c));
    case PoolStep(a) => PoolBalances(y, a, c);
  }

  lemma DecideBalances(y: System, i: nat, f: Facts, c: Conn)
    requires SysInv(y, c) && CanHappen(y, Decide(i, f))
    ensures Balanced(After(y, Decide(i, f)), c)
  {
    var kind, conn := y.handlers[i].kind, y.handlers[i].conn;
    var n := Returns(kind, f);
    var h := if n == 0 then HIdle else HReturning(if n == 2 then Some(conn) else None);
    var one := if c == conn then 1 else 0;
    SumUpdate(y.handlers, i, h, OwesOf(c));
    assert Sum(y.handlers[i := h], OwesOf(c)) == Sum(y.handlers, OwesOf(c)) - one + (if n == 2 then one else 0);
    if n == 0 {
      assert (y.leaked + multiset{conn})[c] == y.leaked[c] + one;
    } else {
      ReturnBegins(y.pool, i, conn, c);
      var pool' := Next(y.pool, BeginReturn(i, Some(conn)));
      assert multiset(pool'.available)[c] + Sum(pool'.clients, CargoOf(c))
          == multiset(y.pool.available)[c] + Sum(y.pool.clients, CargoOf(c)) + one;
      assert (y.doubled + multiset{conn})[c] == y.doubled[c] + one;
    }
  }

  lemma ReturnBegins(s: State, i: nat, conn: Conn, c: Conn)
    requires Enabled(s, BeginReturn(i, Some(conn)))
    ensures var s' := Next(s, BeginReturn(i, Some(conn)));
      && s'.available == s.available && s'.h == s.h
      && Sum(s'.clients, CargoOf(c)) == Sum(s.clients, CargoOf(c)) + (if c == conn then 1 else 0)
  {
    SumStep(s, BeginReturn(i, Some(conn)), CargoOf(c));
  }

  lemma PoolBalances(y: System, a: Action, c: Conn)
    requires SysInv(y, c) && CanHappen(y, PoolStep(a))
    ensures Balanced(After(y, PoolStep(a)), c)
  {
    PoolTotal(y, a, c);
    InitialStays(y.pool, a);
    if Next(y.pool, a).Pc(a.i).Idle? {
      LeaverOwes(y, a, c);
    } else {
      StillInside(y.pool, a);
    }
  }

  /** A handler whose client leaves the pool owes what the client got. */
  lemma LeaverOwes(y: System, a: Action, c: Conn)
    requires SysInv(y, c) && CanHappen(y, PoolStep(a))
    requires |Next(y.pool, a).clients| == |y.pool.clients| && Next(y.pool, a).Pc(a.i).Idle?
    ensures Sum(y.handlers[a.i := Follow(y.handlers[a.i], y.pool.Pc(a.i))], OwesOf(c))
         == Sum(y.handlers, OwesOf(c)) + (if y.pool.Pc(a.i) == GUnlock(Some(c)) then 1 else 0)
  {
    var h, pc := y.handlers[a.i], y.pool.Pc(a.i);
    assert Matched(h, y.pool.clients[a.i].pc);
    assert pc.GUnlock? || pc.RUnlock? by {
      InsideCall(y.pool, a);
      PoolPoint(y.pool, a);
    }
    SumUpdate(y.handlers, a.i, Follow(h, pc), OwesOf(c));
    FollowOwes(h, pc, c);
  }

  /** Queue and clients together lose a connection only to a getter that leaves with it. */
  lemma PoolTotal(y: System, a: Action, c: Conn)
    requires SysInv(y, c) && CanHappen(y, PoolStep(a))
    ensures |Next(y.pool, a).clients| == |y.pool.clients|
    ensures multiset(Next(y.pool, a).available)[c] + Sum(Next(y.pool, a).clients, CargoOf(c))
            + (if y.pool.Pc(a.i) == GUnlock(Some(c)) then 1 else 0)
         == multiset(y.pool.available)[c] + Sum(y.pool.clients, CargoOf(c))
  {
    assert Matched(y.handlers[a.i], y.pool.clients[a.i].pc);
    InsideCall(y.pool, a);
    PoolMoves(y.pool, a, c);
    SumStep(y.pool, a, CargoOf(c));
  }

  /** A getter that leaves the pool owes what it got; a return that is over owes nothing
      new. */
  lemma FollowOwes(h: Handler, pc: Pc, c: Conn)
    requires Matched(h, pc) && (pc.GUnlock? || pc.RUnlock?)
    ensures OwesIs(Follow(h, pc), c) - OwesIs(h, c) == if pc == GUnlock(Some(c)) then 1 else 0
  {
  }

  lemma StillInside(s: State, a: Action)
    requires Enabled(s, a) && !Next(s, a).Pc(a.i).Idle?
    ensures !s.Pc(a.i).GUnlock?
  {
  }

  lemma InitialStays(s: State, a: Action)
    requires Enabled(s, a)
    ensures Next(s, a).h.initial == s.h.initial
  {
  }

  lemma {:induction false} RunAllInv(y: System, events: seq<Event>, c: Conn)
    requires SysInv(y, c) && CanRunAll(y, events)
    ensures SysInv(RunAll(y, events), c) && RunAll(y, events).pool.h.initial == y.pool.h.initial
    decreases events
  {
    if events != [] {
      MatchStep(y, events[0]);
      BalancedStep(y, events[0], c);
      RunAllInv(After(y, events[0]), events[1..], c);
    }
  }
}

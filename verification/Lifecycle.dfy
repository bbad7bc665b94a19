/** One HTTP connection as an event machine (src/HttpConnection.cpp, start to
    check_deadline).

    All handlers of a connection run on the one thread of its service, one after the other;
    operations finish in the background at any time, even while a handler runs, and their
    handlers wait until the thread is free. */
module Lifecycle {
  import opened Options

  datatype Method = Get | Post | Other

  datatype Response = Response(versioned: bool, keepAlive: bool, status: nat, contentType: string, server: string,
                               body: string, length: int)

  const NOTFOUND := "url not found\r\n"

  /** What LogicalSystem makes of the request: a registered handler writes into the body and
      may set the content type. */
  datatype Outcome = NotFound | Found(output: string, contentType: Option<string>) | Throws

  /** An asynchronous operation: not started, running, finished with its handler waiting, or
      over. */
  datatype Op = Unused | Running | Waiting(error: bool) | Over

  datatype Socket = Open | SendShut | Closed

  /** Where the thread is. `R`: in the read handler; `W`: in the write handler; `T`: in the
      timer handler. */
  datatype Cpu =
    | Free
    | REntry(error: bool) | RPrepare | RGet | RGetDone(found: bool) | RTestPost | RPost | RPostDone(found: bool)
    | RWrite(last: bool) | RDeadline
    | WShutdown | WCancel
    | TEntry(error: bool)

  /** What has happened so far: how often a write was started and the response as it was
      then, whether the request was read without error, whether its URL was found or its
      handler threw, and how often the deadline was cancelled. */
  datatype History = History(writes: nat, sent: Response, handled: bool, found: bool, threw: bool, cancels: nat)

  datatype State = State(verb: Method, read: Op, write: Op, timer: Op, socket: Socket, response: Response, cpu: Cpu,
                         h: History)

  datatype Action =
    | ReadFinishes(error: bool) | WriteFinishes(error: bool) | TimerExpires
    | RunRead | RunWrite | RunTimer
    | Continue | Logic(o: Outcome)

  const BLANK := Response(false, true, 200, "", "", "", -1)

  /** Just after start() has issued the read. */
  function Init(verb: Method): State {
    State(verb, Running, Unused, Unused, Open, BLANK, Free, History(0, BLANK, false, false, false, 0))
  }

  predicate Enabled(s: State, a: Action) {
    match a
    case ReadFinishes(_) => s.read.Running?
    case WriteFinishes(_) => s.write.Running?
    case TimerExpires => s.timer.Running?
    case RunRead => s.cpu.Free? && s.read.Waiting?
    case RunWrite => s.cpu.Free? && s.write.Waiting?
    case RunTimer => s.cpu.Free? && s.timer.Waiting?
    case Continue => !s.cpu.Free? && !s.cpu.RGet? && !s.cpu.RPost?
    case Logic(_) => s.cpu.RGet? || s.cpu.RPost?
  }

  /** The response as a registered handler leaves it. */
  function Filled(r: Response, output: string, contentType: Option<string>): Response {
    r.(body := r.body + output, contentType := if contentType.Some? then contentType.value else r.contentType)
  }

  /** An unknown URL leaves the response alone. */
  function AfterLogic(s: State, o: Outcome): State {
    match o
    case Throws => s.(cpu := Free, h := s.h.(threw := true))
    case NotFound => s.(cpu := if s.cpu.RGet? then RGetDone(false) else RPostDone(false))
    case Found(output, contentType) =>
      s.(cpu := if s.cpu.RGet? then RGetDone(true) else RPostDone(true),
         response := Filled(s.response, output, contentType), h := s.h.(found := true))
  }

  /** The status lines of handlereq; `last` says that handlereq returns after the write. */
  function Answer(s: State, found: bool, last: bool): State {
    if found then
      s.(cpu := RWrite(last), response := s.response.(status := 200, server := "GateServer"))
    else
      s.(cpu := RWrite(true),
         response := s.response.(status := 404, contentType := "text/plain", body := s.response.body + NOTFOUND))
  }

  function StartWrite(s: State, last: bool): State {
    var r := s.response.(length := |s.response.body|);
    s.(response := r, write := Running, cpu := if last then RDeadline else RTestPost,
       h := s.h.(writes := s.h.writes + 1, sent := r))
  }

  function Continued(s: State): State
    requires Enabled(s, Continue)
  {
    match s.cpu
    case REntry(error) => if error then s.(cpu := Free) else s.(cpu := RPrepare, h := s.h.(handled := true))
    case RPrepare => s.(cpu := if s.verb.Get? then RGet else RTestPost,
                        response := s.response.(versioned := true, keepAlive := false))
    case RGetDone(found) => Answer(s, found, false)
    case RTestPost => s.(cpu := if s.verb.Post? then RPost else RDeadline)
    case RPostDone(found) => Answer(s, found, true)
    case RWrite(last) => StartWrite(s, last)
    case RDeadline => s.(timer := Running, cpu := Free)
    case WShutdown => s.(socket := if s.socket.Open? then SendShut else s.socket, cpu := WCancel)
    case WCancel => s.(timer := if s.timer.Running? then Waiting(true) else s.timer, cpu := Free,
                          h := s.h.(cancels := s.h.cancels + 1))
    case TEntry(error) => s.(socket := if error then s.socket else Closed, cpu := Free)
  }

  function Next(s: State, a: Action): State
    requires Enabled(s, a)
  {
    match a
    case ReadFinishes(error) => s.(read := Waiting(error))
    case WriteFinishes(error) => s.(write := Waiting(error))
    case TimerExpires => s.(timer := Waiting(false))
    case RunRead => s.(read := Over, cpu := REntry(s.read.error))
    case RunWrite => s.(write := Over, cpu := WShutdown)
    case RunTimer => s.(timer := Over, cpu := TEntry(s.timer.error))
    case Continue => Continued(s)
    case Logic(o) => AfterLogic(s, o)
  }

  predicate CanRun(s: State, acts: seq<Action>)
    decreases acts
  {
    acts == [] || (Enabled(s, acts[0]) && CanRun(Next(s, acts[0]), acts[1..]))
  }

  function Run(s: State, acts: seq<Action>): State
    requires CanRun(s, acts)
    decreases acts
  {
    if acts == [] then s else Run(Next(s, acts[0]), acts[1..])
  }

  ghost predicate Reachable(s: State, verb: Method, acts: seq<Action>) {
    CanRun(Init(verb), acts) && s == Run(Init(verb), acts)
  }

  /** A run goes on by one step. */
  lemma {:induction false} RunSnoc(s: State, acts: seq<Action>, a: Action)
    requires CanRun(s, acts) && Enabled(Run(s, acts), a)
    ensures CanRun(s, acts + [a]) && Run(s, acts + [a]) == Next(Run(s, acts), a)
    decreases acts
  {
    if acts == [] {
      assert [a][1..] == [] && CanRun(Next(s, a), []);
      assert acts + [a] == [a];
    } else {
      RunSnoc(Next(s, acts[0]), acts[1..], a);
      assert (acts + [a])[1..] == acts[1..] + [a];
    }
  }

  // ----- the object -----

  class HttpConnection {
    const verb: Method
    var read: Op
    var write: Op
    var timer: Op                // deadline_
    var socket: Socket           // socket_
    var response: Response       // response_
    var cpu: Cpu
    ghost var h: History
    ghost var acts: seq<Action>  // the steps so far

    ghost function Abs(): State
      reads this
    {
      State(verb, read, write, timer, socket, response, cpu, h)
    }

    /** The steps so far lead from start() to here. */
    ghost predicate Valid()
      reads this
    {
      Reachable(Abs(), verb, acts)
    }

    /** start() has issued async_read. */
    constructor (verb: Method)
      ensures Valid() && Abs() == Init(verb)
    {
      this.verb, read, write, timer, socket, response, cpu := verb, Running, Unused, Unused, Open, BLANK, Free;
      h, acts := History(0, BLANK, false, false, false, 0), [];
    }

    lemma Safe()
      requires Valid()
      ensures Inv(Abs())
    {
      RunInv(Init(verb), acts);
    }

    /** Take down the step that is about to be made. */
    ghost method Record(a: Action)
      requires Valid() && Enabled(Abs(), a)
      modifies this`acts
      ensures acts == old(acts) + [a]
      ensures Reachable(Next(Abs(), a), verb, acts)
    {
      RunSnoc(Init(verb), acts, a);
      acts := acts + [a];
    }

    /** An operation finishes in the background. */
    method Finishes(a: Action)
      requires a.ReadFinishes? || a.WriteFinishes? || a.TimerExpires?
      requires Valid() && Enabled(Abs(), a)
      modifies this
      ensures Valid() && Abs() == Next(old(Abs()), a)
    {
      Record(a);
      match a {
        case ReadFinishes(error) => read := Waiting(error);
        case WriteFinishes(error) => write := Waiting(error);
        case TimerExpires => timer := Waiting(false);
      }
    }

    /** The free thread picks a waiting handler. */
    method Dispatch(a: Action)
      requires a.RunRead? || a.RunWrite? || a.RunTimer?
      requires Valid() && Enabled(Abs(), a)
      modifies this
      ensures Valid() && Abs() == Next(old(Abs()), a)
    {
      Record(a);
      match a {
        case RunRead => read, cpu := Over, REntry(read.error);
        case RunWrite => write, cpu := Over, WShutdown;
        case RunTimer => timer, cpu := Over, TEntry(timer.error);
      }
    }

    /** The call of LogicalSystem inside handlereq. */
    method CallLogic(o: Outcome)
      requires Valid() && Enabled(Abs(), Action.Logic(o))
      modifies this
      ensures Valid() && Abs() == Next(old(Abs()), Action.Logic(o))
    {
      Record(Action.Logic(o));
      match o {
        case Throws =>
          cpu, h := Free, h.(threw := true);
        case NotFound =>
          cpu := if cpu.RGet? then RGetDone(false) else RPostDone(false);
        case Found(output, contentType) =>
          response := response.(body := response.body + output);
          if contentType.Some? {
            response := response.(contentType := contentType.value);
          }
          cpu, h := if cpu.RGet? then RGetDone(true) else RPostDone(true), h.(found := true);
      }
    }

    /** One statement of the read handler and handlereq. */
    method HandleReq()
      requires Valid() && Enabled(Abs(), Continue)
      requires cpu.REntry? || cpu.RPrepare? || cpu.RGetDone? || cpu.RTestPost? || cpu.RPostDone?
      modifies this
      ensures Valid() && Abs() == Next(old(Abs()), Continue)
    {
      Record(Continue);
      match cpu {
        case REntry(error) =>
          if error {
            cpu := Free;
          } else {
            cpu, h := RPrepare, h.(handled := true);
          }
        case RPrepare =>
          response := response.(versioned := true, keepAlive := false);
          cpu := if verb.Get? then RGet else RTestPost;
        case RGetDone(ok) =>
          SetStatus(ok);
          cpu := RWrite(!ok);
        case RTestPost =>
          cpu := if verb.Post? then RPost else RDeadline;
        case RPostDone(ok) =>
          SetStatus(ok);
          cpu := RWrite(true);
      }
    }

    method SetStatus(ok: bool)
      modifies this`response
      ensures Abs().(cpu := RWrite(!ok)) == Answer(old(Abs()), ok, false)
    {
      if ok {
        response := response.(status := 200, server := "GateServer");
      } else {
        response := response.(status := 404, contentType := "text/plain", body := response.body + NOTFOUND);
      }
    }

    method WriteResponse()
      requires Valid() && Enabled(Abs(), Continue) && cpu.RWrite?
      modifies this
      ensures Valid() && Abs() == Next(old(Abs()), Continue)
    {
      Record(Continue);
      response := response.(length := |response.body|);
      h := h.(writes := h.writes + 1, sent := response);
      write := Running;
      cpu := if cpu.last then RDeadline else RTestPost;
    }

    method CheckDeadline()
      requires Valid() && Enabled(Abs(), Continue) && cpu.RDeadline?
      modifies this
      ensures Valid() && Abs() == Next(old(Abs()), Continue)
    {
      Record(Continue);
      timer, cpu := Running, Free;
    }

    /** The handlers that write_response and check_deadline leave behind. */
    method FinishHandler()
      requires Valid() && Enabled(Abs(), Continue) && (cpu.WShutdown? || cpu.WCancel? || cpu.TEntry?)
      modifies this
      ensures Valid() && Abs() == Next(old(Abs()), Continue)
    {
      Record(Continue);
      match cpu {
        case WShutdown =>
          if socket.Open? {
            socket := SendShut;
          }
          cpu := WCancel;
        case WCancel =>
          if timer.Running? {
            timer := Waiting(true);
          }
          cpu, h := Free, h.(cancels := h.cancels + 1);
        case TEntry(error) =>
          if !error {
            socket := Closed;
          }
          cpu := Free;
      }
    }
  }

  // ----- what every run keeps -----

  predicate Handling(c: Cpu) {
    c.RPrepare? || c.RGet? || c.RGetDone? || c.RTestPost? || c.RPost? || c.RPostDone? || c.RWrite? || c.RDeadline?
  }

  /** Before the first write of a request the thread is still in its read handler. */
  predicate BeforeWrite(c: Cpu) { c.RPrepare? || c.RGet? || c.RGetDone? || c.RPost? || c.RPostDone? || c.RWrite? }

  /** One write at most, of a response that is complete and never touched again. */
  ghost predicate WriteInv(s: State) {
    && s.h.writes <= 1 && (s.h.writes == 0 <==> s.write.Unused?)
    && (BeforeWrite(s.cpu) ==> s.h.writes == 0)
    && (s.h.writes == 1 ==>
          && s.response == s.h.sent && s.verb != Other && s.h.handled && !s.h.threw
          && s.h.sent.length == |s.h.sent.body| && s.h.sent.versioned && !s.h.sent.keepAlive
          && Answered(s.h.sent, s.h.found))
  }

  /** The status line and headers of both outcomes, and the body when the URL is unknown. */
  predicate Answered(r: Response, found: bool) {
    if found then r.status == 200 && r.server == "GateServer"
    else r.status == 404 && r.contentType == "text/plain" && r.body == NOTFOUND
  }

  /** What the read handler knows at its points. */
  ghost predicate HandlerInv(s: State) {
    && !s.read.Unused?
    && (s.read.Running? || s.read.Waiting? || s.cpu.REntry? ==> s.h.writes == 0 && s.timer.Unused? && !s.h.handled)
    && (s.read.Running? || s.read.Waiting? ==> s.cpu.Free?)
    && (!s.h.handled ==> !s.h.found && !s.h.threw && s.h.writes == 0)
    && (Handling(s.cpu) ==> s.h.handled && !s.h.threw && s.timer.Unused? && !s.write.Over?)
    && (Handling(s.cpu) && !s.cpu.RPrepare? ==> s.response.versioned && !s.response.keepAlive)
    && (s.cpu.RPrepare? || s.cpu.RGet? || s.cpu.RPost? ==> !s.h.found)
    && (s.cpu.RGet? || s.cpu.RGetDone? ==> s.verb.Get?) && (s.cpu.RPost? || s.cpu.RPostDone? ==> s.verb.Post?)
    && (s.cpu.RGetDone? || s.cpu.RPostDone? ==> s.cpu.found == s.h.found)
    && (s.cpu.RWrite? ==> s.verb != Other && (s.verb.Post? ==> s.cpu.last) && Answered(s.response, s.h.found))
    && (!s.h.found && s.h.writes == 0 && !s.cpu.RWrite? ==> s.response.body == "")
    && (s.cpu.RTestPost? ==> (s.h.writes == 1 <==> s.verb.Get?) && (s.verb.Post? ==> !s.h.found))
    && (s.cpu.RDeadline? ==> (s.h.writes == 1 <==> s.verb != Other))
  }

  /** The deadline against the write: armed by the time the write handler can run. */
  ghost predicate TimerInv(s: State) {
    && (s.h.threw ==> s.timer.Unused? && s.h.writes == 0 && s.cpu.Free?)
    && (s.timer.Unused? ==> !s.h.handled || s.h.threw || Handling(s.cpu))
    && (!s.timer.Unused? ==> s.h.handled && (s.h.writes == 1 <==> s.verb != Other))
    && (s.cpu.TEntry? ==> s.timer.Over?)
    && (s.cpu.WShutdown? || s.cpu.WCancel? ==> s.write.Over? && !s.timer.Unused?)
    && (s.write.Over? && !s.cpu.WShutdown? ==> !s.socket.Open?)
    && s.h.cancels <= 1
    && (s.h.cancels == 1 <==> s.write.Over? && !s.cpu.WShutdown? && !s.cpu.WCancel?)
    && (s.timer == Waiting(true) || s.cpu == TEntry(true) ==> s.h.cancels == 1)
    && (s.h.cancels == 1 ==> !s.timer.Running? && !s.timer.Unused?)
    && (s.timer.Over? && !s.cpu.TEntry? ==> s.socket.Closed? || s.h.cancels == 1)
  }

  ghost predicate Inv(s: State) { WriteInv(s) && HandlerInv(s) && TimerInv(s) }

  /** Operations that finish touch nothing but their own state. */
  lemma FinishInv(s: State, a: Action)
    requires Inv(s) && Enabled(s, a) && (a.ReadFinishes? || a.WriteFinishes? || a.TimerExpires?)
    ensures Inv(Next(s, a))
  {
  }

  lemma DispatchInv(s: State, a: Action)
    requires Inv(s) && Enabled(s, a) && (a.RunRead? || a.RunWrite? || a.RunTimer?)
    ensures Inv(Next(s, a))
  {
  }

  lemma LogicInv(s: State, o: Outcome)
    requires Inv(s) && Enabled(s, Logic(o))
    ensures Inv(AfterLogic(s, o))
  {
  }

  lemma ContinueWrite(s: State)
    requires Inv(s) && Enabled(s, Continue)
    ensures WriteInv(Continued(s))
  {
  }

  lemma ContinueHandler(s: State)
    requires Inv(s) && Enabled(s, Continue)
    ensures HandlerInv(Continued(s))
  {
  }

  lemma ContinueTimer(s: State)
    requires Inv(s) && Enabled(s, Continue)
    ensures TimerInv(Continued(s))
  {
  }

  lemma StepInv(s: State, a: Action)
    requires Inv(s) && Enabled(s, a)
    ensures Inv(Next(s, a))
  {
    match a
    case Continue =>
      ContinueWrite(s);
      ContinueHandler(s);
      ContinueTimer(s);
    case Logic(o) => LogicInv(s, o);
    case RunRead => DispatchInv(s, a);
    case RunWrite => DispatchInv(s, a);
    case RunTimer => DispatchInv(s, a);
    case _ => FinishInv(s, a);
  }

  /** Writes are never undone, and what was given to one stays on record. */
  lemma StepKeepsSent(s: State, a: Action)
    requires Inv(s) && Enabled(s, a)
    ensures Next(s, a).verb == s.verb && s.h.writes <= Next(s, a).h.writes
    ensures s.h.writes == 1 ==> Next(s, a).h.sent == s.h.sent
  {
  }

  lemma {:induction false} WritesKept(s: State, more: seq<Action>)
    requires CanRun(s, more)
    ensures s.h.writes <= Run(s, more).h.writes
    decreases more
  {
    if more != [] {
      WritesKept(Next(s, more[0]), more[1..]);
    }
  }

  lemma {:induction false} RunInv(s: State, acts: seq<Action>)
    requires Inv(s) && CanRun(s, acts)
    ensures Inv(Run(s, acts)) && Run(s, acts).verb == s.verb
    ensures s.h.writes == 1 ==> Run(s, acts).h.sent == s.h.sent
    decreases acts
  {
    if acts != [] {
      StepInv(s, acts[0]);
      StepKeepsSent(s, acts[0]);
      RunInv(Next(s, acts[0]), acts[1..]);
    }
  }

  /** At most one write is ever started, and `response_` is never changed after that: every
      later state, whatever happens, still holds the response that the write was given. */
  lemma WrittenOnceAndUntouched(s: State, verb: Method, acts: seq<Action>, more: seq<Action>)
    requires Reachable(s, verb, acts) && s.h.writes > 0 && CanRun(s, more)
    ensures Run(s, more).h.writes == s.h.writes == 1
    ensures Run(s, more).response == s.response
    ensures s.response.length == |s.response.body| && !s.response.keepAlive
    ensures Answered(s.response, s.h.found)
  {
    RunInv(Init(verb), acts);
    WritesKept(s, more);
    RunInv(s, more);
  }

  /** When the write handler cancels the deadline, the wait has been armed. */
  lemma ArmedBeforeCancelled(s: State, verb: Method, acts: seq<Action>)
    requires Reachable(s, verb, acts) && s.cpu.WCancel?
    ensures !s.timer.Unused? && Next(s, Continue).timer in {Waiting(true), Waiting(false), Over}
  {
    RunInv(Init(verb), acts);
  }

  /** Until the request has been read nothing but the read can happen: no deadline runs. */
  lemma NoDeadlineBeforeRequest(s: State, verb: Method, acts: seq<Action>, a: Action)
    requires Reachable(s, verb, acts) && s.read.Running?
    ensures Enabled(s, a) <==> a.ReadFinishes?
  {
    RunInv(Init(verb), acts);
  }

  function CpuRank(c: Cpu): nat {
    match c
    case Free => 0 case WCancel => 1 case TEntry(_) => 1 case WShutdown => 2 case RDeadline => 4
    case RWrite(last) => if last then 9 else 17
    case RPostDone(_) => 10 case RPost => 11 case RTestPost => 12
    case RGetDone(_) => 18 case RGet => 19 case RPrepare => 20 case REntry(_) => 21
  }

  /** Steps left: every operation counts its own end and its handler. */
  function Rank(s: State): nat {
    CpuRank(s.cpu)
    + (match s.read case Running => 23 case Waiting(_) => 22 case _ => 0)
    + (match s.write case Running => 4 case Waiting(_) => 3 case _ => 0)
    + (match s.timer case Running => 3 case Waiting(_) => 2 case _ => 0)
  }

  lemma RankStep(s: State, a: Action)
    requires Inv(s) && Enabled(s, a)
    ensures Rank(Next(s, a)) < Rank(s)
  {
  }

  lemma {:induction false} RunIsShort(s: State, acts: seq<Action>)
    requires Inv(s) && CanRun(s, acts)
    ensures |acts| + Rank(Run(s, acts)) <= Rank(s)
    decreases acts
  {
    if acts != [] {
      RankStep(s, acts[0]);
      StepInv(s, acts[0]);
      RunIsShort(Next(s, acts[0]), acts[1..]);
    }
  }

  ghost predicate Finished(s: State) { forall a: Action :: !Enabled(s, a) }

  /** Every order of events comes to an end, after at most 23 steps. Then no operation is
      pending and the thread is free; and if the request was read and its handler did not
      throw, exactly one write has been made for GET and POST, none for other methods, and
      the socket is shut down or closed. */
  lemma EveryRunSettles(s: State, verb: Method, acts: seq<Action>)
    requires Reachable(s, verb, acts)
    ensures |acts| <= 23
    ensures Finished(s) ==> s.cpu.Free? && s.read.Over? && s.write in {Unused, Over} && s.timer in {Unused, Over}
    ensures Finished(s) && s.h.handled && !s.h.threw ==>
      && s.timer.Over? && !s.socket.Open?
      && s.h.writes == (if verb.Other? then 0 else 1) && (s.write.Over? <==> s.h.writes == 1)
  {
    RunInv(Init(verb), acts);
    RunIsShort(Init(verb), acts);
    if Finished(s) {
      assert !Enabled(s, Continue) && !Enabled(s, Logic(NotFound));
      assert !Enabled(s, RunRead) && !Enabled(s, RunWrite) && !Enabled(s, RunTimer);
      assert !Enabled(s, ReadFinishes(false)) && !Enabled(s, WriteFinishes(false)) && !Enabled(s, TimerExpires);
    }
  }
}

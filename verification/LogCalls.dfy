/** What the calls of the log come to: every push and every direct call is carried out once
    and with its own message, every line bears the time read inside its own call, and a call
    of stop() returns. */
module LogCalls {
  import opened Options
  import opened Tally
  import opened LogModel
  import opened LogProofs
  import opened LogTheorems

  // ----- pushes and direct calls -----

  /** How many of the calls of push, and of log from outside the queue, are for `m`. */
  function PushCalls(acts: seq<Action>, m: Msg): nat {
    if acts == [] then 0 else IsPush(acts[0], m) + PushCalls(acts[1..], m)
  }

  function LogCalls(acts: seq<Action>, m: Msg): nat {
    if acts == [] then 0 else IsLog(acts[0], m) + LogCalls(acts[1..], m)
  }

  function IsPush(a: Action, m: Msg): nat { if a.BeginPush? && a.m == m then 1 else 0 }

  function IsLog(a: Action, m: Msg): nat { if a.BeginLog? && a.m == m then 1 else 0 }

  /** Threads with `m` in hand, before it reaches the queue or a line of the file. */
  function Pushing(m: Msg): OtherPc -> int { p => if p == OLock(m) || p == OPush(m) then 1 else 0 }

  function Logging(m: Msg): OtherPc -> int { p => if p == OLog(LWant(m)) then 1 else 0 }

  lemma OthersStep(s: State, a: Action, w: OtherPc -> int)
    requires Enabled(s, a) && Actor(a).Other?
    ensures var i := Actor(a).i;
      && i < |s.others| == |Next(s, a).others|
      && Sum(Next(s, a).others, w) - Sum(s.others, w) == w(Next(s, a).others[i]) - w(s.others[i])
  {
    var i := Actor(a).i;
    assert Next(s, a).others == s.others[i := Next(s, a).others[i]];
    SumUpdate(s.others, i, Next(s, a).others[i], w);
  }

  lemma OthersRest(s: State, a: Action)
    requires Enabled(s, a) && !Actor(a).Other?
    ensures Next(s, a).others == s.others && Next(s, a).h.pushed == s.h.pushed && Next(s, a).h.direct == s.h.direct
  {
  }

  lemma PushStep(s: State, a: Action, m: Msg)
    requires Enabled(s, a)
    ensures multiset(Next(s, a).h.pushed)[m] + Sum(Next(s, a).others, Pushing(m))
         == multiset(s.h.pushed)[m] + Sum(s.others, Pushing(m)) + IsPush(a, m)
  {
    if Actor(a).Other? {
      OthersStep(s, a, Pushing(m));
      OwnPush(s, a, Actor(a).i, m);
    } else {
      OthersRest(s, a);
    }
  }

  lemma OwnPush(s: State, a: Action, i: nat, m: Msg)
    requires Enabled(s, a) && Actor(a) == Other(i) && i < |s.others| == |Next(s, a).others|
    ensures multiset(Next(s, a).h.pushed)[m] + Pushing(m)(Next(s, a).others[i])
         == multiset(s.h.pushed)[m] + Pushing(m)(s.others[i]) + IsPush(a, m)
  {
  }

  lemma LogStep(s: State, a: Action, m: Msg)
    requires Enabled(s, a)
    ensures multiset(Next(s, a).h.direct)[m] + Sum(Next(s, a).others, Logging(m))
         == multiset(s.h.direct)[m] + Sum(s.others, Logging(m)) + IsLog(a, m)
  {
    if Actor(a).Other? {
      OthersStep(s, a, Logging(m));
      OwnLog(s, a, Actor(a).i, m);
    } else {
      OthersRest(s, a);
    }
  }

  lemma OwnLog(s: State, a: Action, i: nat, m: Msg)
    requires Enabled(s, a) && Actor(a) == Other(i) && i < |s.others| == |Next(s, a).others|
    ensures multiset(Next(s, a).h.direct)[m] + Logging(m)(Next(s, a).others[i])
         == multiset(s.h.direct)[m] + Logging(m)(s.others[i]) + IsLog(a, m)
  {
  }

  lemma {:induction false} CallsRun(s: State, more: seq<Action>, m: Msg)
    requires CanRun(s, more)
    ensures multiset(Run(s, more).h.pushed)[m] + Sum(Run(s, more).others, Pushing(m))
         == multiset(s.h.pushed)[m] + Sum(s.others, Pushing(m)) + PushCalls(more, m)
    ensures multiset(Run(s, more).h.direct)[m] + Sum(Run(s, more).others, Logging(m))
         == multiset(s.h.direct)[m] + Sum(s.others, Logging(m)) + LogCalls(more, m)
    decreases more
  {
    if more != [] {
      PushStep(s, more[0], m);
      LogStep(s, more[0], m);
      CallsRun(Next(s, more[0]), more[1..], m);
    }
  }

  /** Every call of push queues its message once, every direct call of log writes one line
      of its own: in every state the calls made are those carried out and those under way. */
  lemma CallsCarriedOut(s: State, n: nat, acts: seq<Action>, m: Msg)
    requires Reachable(s, n, acts)
    ensures PushCalls(acts, m) == multiset(s.h.pushed)[m] + Sum(s.others, Pushing(m))
    ensures LogCalls(acts, m) == multiset(s.h.direct)[m] + Sum(s.others, Logging(m))
    ensures (forall i: nat :: i < |s.others| ==> s.others[i].OIdle?) ==>
      PushCalls(acts, m) == multiset(s.h.pushed)[m] && LogCalls(acts, m) == multiset(s.h.direct)[m]
  {
    CallsRun(Init(n), acts, m);
    SumZero(Init(n).others, Pushing(m));
    SumZero(Init(n).others, Logging(m));
    if forall i: nat :: i < |s.others| ==> s.others[i].OIdle? {
      SumZero(s.others, Pushing(m));
      SumZero(s.others, Logging(m));
    }
  }

  // ----- time stamps -----

  /** The times read by the calls of log, in the order of the calls. */
  function Stamps(acts: seq<Action>): seq<string> {
    if acts == [] then [] else StampOf(acts[0]) + Stamps(acts[1..])
  }

  function StampOf(a: Action): seq<string> { if a.OpenLog? then [a.stamp] else [] }

  function LineStamps(lines: seq<Line>): seq<string> {
    if lines == [] then [] else LineStamps(lines[..|lines| - 1]) + [lines[|lines| - 1].stamp]
  }

  /** The time on the unfinished line, if there is one. */
  function OpenStamp(s: State): seq<string> {
    if s.fileLock.None? || !s.At(s.fileLock.value) then []
    else match s.LogOf(s.fileLock.value) case Some(LWrite(line, _)) => [line.stamp] case _ => []
  }

  lemma LineStampsAppend(lines: seq<Line>, last: Line)
    ensures LineStamps(lines + [last]) == LineStamps(lines) + [last.stamp]
  {
    assert (lines + [last])[..|lines|] == lines;
  }

  lemma StampStep(s: State, a: Action)
    requires Inv(s) && Enabled(s, a)
    ensures LineStamps(Next(s, a).h.lines) + OpenStamp(Next(s, a))
         == LineStamps(s.h.lines) + OpenStamp(s) + StampOf(a)
  {
    if a.Step? && s.At(a.who) && s.LogOf(a.who).Some? {
      assert s.HoldsFile(a.who) && LineOk(s.LogOf(a.who), a.who);
      WriteStamp(s, a.who);
    } else if a.OpenLog? {
      OpenedStamp(s, a.who, a.stamp);
    } else {
      StampKept(s, a);
    }
  }

  lemma WriteStamp(s: State, who: Who)
    requires Enabled(s, Step(who)) && s.At(who) && s.LogOf(who).Some? && LineOk(s.LogOf(who), who)
    requires s.fileLock == Some(who)
    ensures LineStamps(LogNext(s, who).h.lines) + OpenStamp(LogNext(s, who)) == LineStamps(s.h.lines) + OpenStamp(s)
  {
    if s.LogOf(who).value.LWrite? {
      LineStampsAppend(s.h.lines, s.LogOf(who).value.line);
      InsertEffect(s, who);
    }
  }

  lemma OpenedStamp(s: State, who: Who, stamp: string)
    requires Enabled(s, OpenLog(who, stamp))
    ensures LineStamps(OpenNext(s, who, stamp).h.lines) + OpenStamp(OpenNext(s, who, stamp))
         == LineStamps(s.h.lines) + OpenStamp(s) + [stamp]
  {
    var s' := OpenNext(s, who, stamp);
    assert s'.LogOf(who) == Some(LWrite(Line(s.LogOf(who).value.m, !who.Other?, stamp), 0));
  }

  lemma StampKept(s: State, a: Action)
    requires Inv(s) && Enabled(s, a) && !a.OpenLog? && (a.Step? && s.At(a.who) ==> s.LogOf(a.who).None?)
    ensures Next(s, a).h.lines == s.h.lines && OpenStamp(Next(s, a)) == OpenStamp(s)
  {
    OutsideLog(s, a);
    StepLocal(s, a);
    if s.fileLock.Some? {
      var w := s.fileLock.value;
      assert s.HoldsFile(w) && Next(s, a).LogOf(w) == s.LogOf(w);
    }
  }

  lemma {:induction false} StampRun(s: State, more: seq<Action>)
    requires Inv(s) && CanRun(s, more)
    ensures LineStamps(Run(s, more).h.lines) + OpenStamp(Run(s, more))
         == LineStamps(s.h.lines) + OpenStamp(s) + Stamps(more)
    decreases more
  {
    if more != [] {
      StampStep(s, more[0]);
      StepInv(s, more[0]);
      StampRun(Next(s, more[0]), more[1..]);
      Reassociate(LineStamps(s.h.lines) + OpenStamp(s), StampOf(more[0]), Stamps(more[1..]));
    }
  }

  /** Line by line, the file bears the times that the calls of log read under log_mutex. */
  lemma StampsInOrder(s: State, n: nat, acts: seq<Action>)
    requires Reachable(s, n, acts)
    ensures Stamps(acts) == LineStamps(s.h.lines) + OpenStamp(s) && |OpenStamp(s)| <= 1
  {
    InitInv(n);
    StampRun(Init(n), acts);
    assert LineStamps(Init(n).h.lines) + OpenStamp(Init(n)) == [];
    assert [] + Stamps(acts) == Stamps(acts);
  }

  // ----- stop() -----

  lemma {:induction false} StopIsUnderWay(s: State, more: seq<Action>)
    requires Inv(s) && !s.stopper.SIdle? && CanRun(s, more)
    ensures !Run(s, more).stopper.SIdle?
    decreases more
  {
    if more != [] {
      StepInv(s, more[0]);
      NotIdleAgain(s, more[0]);
      StopIsUnderWay(Next(s, more[0]), more[1..]);
    }
  }

  lemma NotIdleAgain(s: State, a: Action)
    requires Enabled(s, a) && !s.stopper.SIdle?
    ensures !Next(s, a).stopper.SIdle?
  {
  }

  /** A call of stop() returns: without new calls of other threads, a run from it on that
      cannot go on has come to its end, with the worker joined and the flag down. */
  lemma StopReturns(s: State, n: nat, acts: seq<Action>, more: seq<Action>)
    requires Reachable(s, n, acts) && s.stopper.SIdle?
    requires CanRun(Next(s, BeginStop), more)
    ensures CanStep(Run(Next(s, BeginStop), more)) || Settled(Run(Next(s, BeginStop), more))
    ensures Settled(Run(Next(s, BeginStop), more)) ==> !Run(Next(s, BeginStop), more).running
  {
    ReachableInv(s, n, acts);
    StepInv(s, BeginStop);
    var s' := Run(Next(s, BeginStop), more);
    RunInv(Next(s, BeginStop), more);
    StopIsUnderWay(Next(s, BeginStop), more);
    if s'.running {
      assert Enabled(s', Step(Stopper));
    } else if !Settled(s') {
      StoppedNeverStuck(s');
    }
  }
}

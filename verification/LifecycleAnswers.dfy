/** What a connection does with its events (src/HttpConnection.cpp): which answer goes out,
    which requests are handled, and when the deadline closes the socket. */
module LifecycleAnswers {
  import opened Options
  import opened Lifecycle

  /** The outcomes of the calls of LogicalSystem in a run, in order. */
  function Outcomes(acts: seq<Action>): seq<Outcome> {
    if acts == [] then [] else OutcomeOf(acts[0]) + Outcomes(acts[1..])
  }

  function OutcomeOf(a: Action): seq<Outcome> { if a.Logic? then [a.o] else [] }

  predicate BeforeLogic(s: State) { !s.h.handled || s.cpu.RPrepare? || s.cpu.RGet? || s.cpu.RPost? }

  /** The response against what the request handler has done so far. */
  ghost predicate GivenInv(s: State, given: seq<Outcome>) {
    && |given| <= 1
    && (BeforeLogic(s) ==> given == []) && (s.cpu.RTestPost? && s.verb.Post? ==> given == [])
    && (given == [] ==> !s.h.found && !s.h.threw && s.response.contentType == "")
    && (s.cpu.RGetDone? || s.cpu.RPostDone? || s.cpu.RWrite? || s.h.writes == 1 ==> |given| == 1 && !given[0].Throws?)
    && (|given| == 1 ==> (s.h.found <==> given[0].Found?) && (s.h.threw <==> given[0].Throws?))
    && (|given| == 1 && given[0].Found? ==>
          && s.response.body == given[0].output
          && s.response.contentType == (if given[0].contentType.Some? then given[0].contentType.value else ""))
  }

  lemma GivenStep(s: State, a: Action, given: seq<Outcome>)
    requires Inv(s) && GivenInv(s, given) && Enabled(s, a)
    ensures GivenInv(Next(s, a), given + OutcomeOf(a))
  {
    if a.Continue? {
      GivenContinue(s, given);
    }
  }

  lemma GivenContinue(s: State, given: seq<Outcome>)
    requires Inv(s) && GivenInv(s, given) && Enabled(s, Continue)
    ensures GivenInv(Continued(s), given)
  {
  }

  lemma {:induction false} GivenRun(s: State, given: seq<Outcome>, more: seq<Action>)
    requires Inv(s) && GivenInv(s, given) && CanRun(s, more)
    ensures GivenInv(Run(s, more), given + Outcomes(more))
    decreases more
  {
    if more == [] {
      assert given + [] == given;
    } else {
      StepInv(s, more[0]);
      GivenStep(s, more[0], given);
      GivenRun(Next(s, more[0]), given + OutcomeOf(more[0]), more[1..]);
      assert given + OutcomeOf(more[0]) + Outcomes(more[1..]) == given + Outcomes(more);
    }
  }

  /** The answer that goes out is the request handler's: it was called exactly once, and
      the write was given what it put into the body, under the content type it set if it
      set one; an unknown URL is answered with 404 and a fixed text. */
  lemma AnswerIsTheHandlers(s: State, verb: Method, acts: seq<Action>)
    requires Reachable(s, verb, acts) && s.h.writes > 0
    ensures |Outcomes(acts)| == 1 && s.response == s.h.sent && s.h.sent.length == |s.h.sent.body|
    ensures match Outcomes(acts)[0]
      case Found(output, contentType) =>
        && s.h.sent.status == 200 && s.h.sent.body == output && s.h.sent.server == "GateServer"
        && s.h.sent.contentType == (if contentType.Some? then contentType.value else "")
      case NotFound =>
        s.h.sent.status == 404 && s.h.sent.body == "url not found\r\n" && s.h.sent.contentType == "text/plain"
      case Throws => false
  {
    RunInv(Init(verb), acts);
    GivenRun(Init(verb), [], acts);
    assert [] + Outcomes(acts) == Outcomes(acts);
  }

  /** The read, the deadline and the socket against the events so far. */
  ghost predicate EventInv(s: State, past: seq<Action>) {
    && (s.read.Running? ==> ReadFinishes(true) !in past && ReadFinishes(false) !in past)
    && !(ReadFinishes(true) in past && ReadFinishes(false) in past)
    && (s.read == Waiting(true) || s.cpu == REntry(true) ==> ReadFinishes(true) in past)
    && (s.read == Waiting(false) || s.cpu == REntry(false) || s.h.handled ==> ReadFinishes(false) in past)
    && (ReadFinishes(false) in past ==> s.read == Waiting(false) || s.cpu == REntry(false) || s.h.handled)
    && (s.timer == Waiting(false) || s.cpu == TEntry(false) || s.socket.Closed? ==> TimerExpires in past)
    && (TimerExpires in past ==> s.timer == Waiting(false) || s.cpu == TEntry(false) || s.socket.Closed?)
    && (s.timer.Unused? || s.timer.Running? ==> TimerExpires !in past)
    && (s.socket.SendShut? ==> s.write.Over?)
  }

  lemma EventStep(s: State, a: Action, past: seq<Action>)
    requires Inv(s) && EventInv(s, past) && Enabled(s, a)
    ensures EventInv(Next(s, a), past + [a])
  {
    var s' := Next(s, a);
    assert forall b :: b in past + [a] <==> b in past || b == a;
  }

  lemma {:induction false} EventRun(s: State, past: seq<Action>, more: seq<Action>)
    requires Inv(s) && EventInv(s, past) && CanRun(s, more)
    ensures EventInv(Run(s, more), past + more)
    decreases more
  {
    if more == [] {
      assert past + more == past;
    } else {
      StepInv(s, more[0]);
      EventStep(s, more[0], past);
      EventRun(Next(s, more[0]), past + [more[0]], more[1..]);
      assert past + [more[0]] + more[1..] == past + more;
    }
  }

  /** A request is handled exactly when its read ended without an error; the socket is
      closed exactly when the deadline expired before it was cancelled, and otherwise only
      shut down, by the write handler. */
  lemma EventsDecide(s: State, verb: Method, acts: seq<Action>)
    requires Reachable(s, verb, acts)
    ensures s.h.handled ==> ReadFinishes(false) in acts
    ensures s.socket.Closed? ==> TimerExpires in acts
    ensures s.socket.SendShut? ==> s.write.Over?
    ensures Finished(s) ==> (s.h.handled <==> ReadFinishes(false) in acts)
    ensures Finished(s) ==> (s.socket.Closed? <==> TimerExpires in acts)
    ensures ReadFinishes(true) in acts ==> s.h.writes == 0 && s.socket.Open?
  {
    RunInv(Init(verb), acts);
    EventRun(Init(verb), [], acts);
    assert [] + acts == acts;
    if Finished(s) {
      EveryRunSettles(s, verb, acts);
    }
  }
}

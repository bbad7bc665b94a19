/** What users of the log may rely on, over every run from the start of the worker. */
module LogTheorems {
  import opened Options
  import opened Tally
  import opened LogModel
  import opened LogProofs
  import opened LogFile

  ghost predicate Reachable(s: State, n: nat, acts: seq<Action>) { CanRun(Init(n), acts) && s == Run(Init(n), acts) }

  lemma ReachableInv(s: State, n: nat, acts: seq<Action>)
    requires Reachable(s, n, acts)
    ensures Inv(s)
  {
    InitInv(n);
    RunInv(Init(n), acts);
  }

  /** A run goes on by one step. */
  lemma {:induction false} RunSnoc(s: State, acts: seq<Action>, a: Action)
    requires CanRun(s, acts) && Enabled(Run(s, acts), a)
    ensures CanRun(s, acts + [a]) && Run(s, acts + [a]) == Next(Run(s, acts), a)
    decreases acts
  {
    if acts == [] {
      assert [a][1..] == [] && CanRun(Next(s, a), []);
      assert acts + [a] == [a];
    } else {
      RunSnoc(Next(s, acts[0]), acts[1..], a);
      assert (acts + [a])[1..] == acts[1..] + [a];
    }
  }

  /** Exactly-once, in-order delivery: what was pushed is what stands in the file, then at
      most one message in the hands of a consumer, then the queue. Worker and stopper never
      consume at the same time, and no front() or pop() meets an empty queue. */
  lemma ExactlyOnceInOrder(s: State, n: nat, acts: seq<Action>)
    requires Reachable(s, n, acts)
    ensures s.h.pushed == Origin(s.h.lines, true) + InFlight(s) + s.queue
    ensures |InFlight(s)| <= 1
    ensures s.stopper.Draining() ==> s.worker.WDone?
    ensures !s.h.fault
  {
    ReachableInv(s, n, acts);
  }

  /** front() and pop() never meet an empty queue. */
  lemma ConsumersNeverStarve(s: State, n: nat, acts: seq<Action>)
    requires Reachable(s, n, acts) && (s.worker.WPop? || s.stopper.SPop?)
    ensures s.queue != []
  {
    ReachableInv(s, n, acts);
  }

  /** Whoever is writing a line has a piece of it left to write. */
  lemma InsertionsInRange(s: State, n: nat, acts: seq<Action>, who: Who)
    requires Reachable(s, n, acts) && s.At(who) && s.LogOf(who).Some? && s.LogOf(who).value.LWrite?
    ensures s.LogOf(who).value.j < PIECES
  {
    ReachableInv(s, n, acts);
    assert LineOk(s.LogOf(who), who);
  }

  /** The shared file holds whole lines, one per finished call of log, then the insertions
      of at most one call under way. Read by origin, the lines are a prefix of what was
      pushed, in push order, and the direct calls in the order they took log_mutex. */
  lemma FileIsWholeLines(s: State, n: nat, acts: seq<Action>)
    requires Reachable(s, n, acts)
    ensures s.fileLock.None? ==> s.file == FileText(s.h.lines) && s.h.direct == Origin(s.h.lines, false)
    ensures s.fileLock.Some? ==> s.At(s.fileLock.value)
    ensures s.fileLock.Some? ==>
      (match s.LogOf(s.fileLock.value)
       case Some(LWrite(line, j)) =>
         FileText(s.h.lines) <= s.file <= FileText(s.h.lines) + LineText(line)
       case _ => s.file == FileText(s.h.lines))
    ensures Origin(s.h.lines, true) <= s.h.pushed && Origin(s.h.lines, false) <= s.h.direct
  {
    ReachableInv(s, n, acts);
    TextIsFileText(s.h.lines);
    if s.fileLock.Some? {
      var who := s.fileLock.value;
      assert s.At(who) && LineOk(s.LogOf(who), who);
      match s.LogOf(who)
      case Some(LWrite(line, j)) =>
        PartialIsPrefix(line, j);
        assert s.file == FileText(s.h.lines) + Partial(line, j);
      case _ =>
    }
  }

  /** The sleeping worker is never left alone with work: whoever pushed is about to notify
      it and still holds queue_mutex. */
  lemma WorkerNeverMissesWork(s: State, n: nat, acts: seq<Action>)
    requires Reachable(s, n, acts) && s.worker.WAsleep? && s.running && s.queueLock.None?
    ensures s.queue == []
  {
    ReachableInv(s, n, acts);
    if s.queue != [] {
      var i: nat :| i < |s.others| && s.others[i].ONotify?;
      assert s.HoldsQueue(Other(i));
    }
  }

  /** At the stopper's final empty test, everything pushed so far is written. */
  lemma FinalTestFindsAllWritten(s: State, n: nat, acts: seq<Action>)
    requires Reachable(s, n, acts) && s.stopper.STest? && s.queue == []
    ensures s.h.pushed == Origin(s.h.lines, true)
  {
    ReachableInv(s, n, acts);
  }

  // ----- stop() comes to an end -----

  function LogRank(lp: LogPc): int {
    match lp case LWant(_) => 10 case LWrite(_, j) => 9 - j case LUnlock => 1
  }

  /** Steps left once the flag is down. A queued message costs the drain at most thirty. */
  function WorkerRank(w: WorkerPc): int {
    match w
    case WDone => 0 case WLoop => 1 case WLeave => 2 case WInner => 3 case WTest => 4 case WRelock => 4
    case WLock => 5 case WWoken => 5 case WAsleep => 6 case WBlock => 7
    case WLog(lp) => 4 + LogRank(lp) case WUnlock(_) => 15 case WPop => 16
  }

  function StopperRank(p: StopperPc): int {
    match p
    case SDone => 0 case SFinish => 1 case SPop => 1 case STest => 2 case SRelock => 3 case SJoin => 4
    case SLog(lp) => 4 + LogRank(lp) case SUnlock(_) => 20
    case SRelease => 5 case SNotify => 6 case SLock => 7 case SStore => 8 case SIdle => 9
  }

  function OtherRank(p: OtherPc): int {
    match p
    case OIdle => 0 case OUnlock => 1 case ONotify => 2 case OPush(_) => 33 case OLock(_) => 34
    case OLog(lp) => 1 + LogRank(lp)
  }

  function Rank(s: State): int {
    WorkerRank(s.worker) + StopperRank(s.stopper) + Sum(s.others, OtherRank) + 30 * |s.queue|
  }

  lemma RankStep(s: State, a: Action)
    requires PhaseInv(s) && LineInv(s) && !s.running && Enabled(s, a) && a.Internal()
    ensures Rank(Next(s, a)) < Rank(s)
  {
    match a
    case SpuriousWake =>
    case OpenLog(who, stamp) => OpenRankStep(s, who, stamp);
    case Step(who) =>
      if s.At(who) && s.LogOf(who).Some? {
        assert LineOk(s.LogOf(who), who);
        LogRankStep(s, who);
      } else {
        match who
        case Worker => WorkerRankStep(s);
        case Stopper => StopperRankStep(s);
        case Other(i) => OtherRankStep(s, i);
      }
  }

  lemma OpenRankStep(s: State, who: Who, stamp: string)
    requires Enabled(s, OpenLog(who, stamp))
    ensures Rank(OpenNext(s, who, stamp)) < Rank(s)
  {
    if who.Other? {
      SumUpdate(s.others, who.i, OpenNext(s, who, stamp).others[who.i], OtherRank);
    }
  }

  lemma OtherRankStep(s: State, i: nat)
    requires Enabled(s, Step(Other(i))) && s.LogOf(Other(i)).None?
    ensures Rank(OtherNext(s, i)) < Rank(s)
  {
    SumUpdate(s.others, i, OtherNext(s, i).others[i], OtherRank);
  }

  lemma WorkerRankStep(s: State)
    requires PhaseInv(s) && !s.running && Enabled(s, Step(Worker)) && s.LogOf(Worker).None?
    ensures Rank(WorkerNext(s)) < Rank(s)
  {
  }

  lemma StopperRankStep(s: State)
    requires PhaseInv(s) && !s.running && Enabled(s, Step(Stopper)) && s.LogOf(Stopper).None?
    ensures Rank(StopperNext(s)) < Rank(s)
  {
  }

  lemma LogRankStep(s: State, who: Who)
    requires Enabled(s, Step(who)) && s.At(who) && s.LogOf(who).Some? && LineOk(s.LogOf(who), who)
    ensures Rank(LogNext(s, who)) < Rank(s)
  {
    if who.Other? {
      SumUpdate(s.others, who.i, LogNext(s, who).others[who.i], OtherRank);
    }
  }

  ghost predicate AllInternal(acts: seq<Action>) { forall k :: 0 <= k < |acts| ==> acts[k].Internal() }

  lemma FlagStaysDown(s: State, a: Action)
    requires Enabled(s, a)
    ensures Next(s, a).running ==> s.running
  {
  }

  lemma {:induction false} StoppedRunIsShort(s: State, more: seq<Action>)
    requires Inv(s) && !s.running && CanRun(s, more) && AllInternal(more)
    ensures |more| + Rank(Run(s, more)) <= Rank(s) && !Run(s, more).running
    decreases more
  {
    if more != [] {
      assert more[0].Internal();
      RankStep(s, more[0]);
      StepInv(s, more[0]);
      FlagStaysDown(s, more[0]);
      assert forall k :: 0 <= k < |more| - 1 ==> more[1..][k] == more[k + 1];
      StoppedRunIsShort(Next(s, more[0]), more[1..]);
    }
  }

  ghost predicate CanStep(s: State) {
    exists a: Action :: Enabled(s, a) && a.Internal() && !a.SpuriousWake?
  }

  ghost predicate Settled(s: State) {
    s.worker.WDone? && s.stopper.SDone? && forall i: nat :: i < |s.others| ==> s.others[i].OIdle?
  }

  /** Inside log, the owner of log_mutex goes on; without an owner anyone may open. */
  lemma LogNeverStuck(s: State, who: Who)
    requires LockInv(s) && LineInv(s) && s.At(who) && s.LogOf(who).Some?
    ensures CanStep(s)
  {
    if s.fileLock.Some? {
      assert s.HoldsFile(s.fileLock.value);
      assert Enabled(s, Step(s.fileLock.value));
    } else {
      assert !s.HoldsFile(who);
      assert Enabled(s, OpenLog(who, ""));
    }
  }

  /** Once the flag is down nothing can get stuck: the worker is not asleep for good
      because the stopper takes queue_mutex between its store and its notify_all. */
  lemma StoppedNeverStuck(s: State)
    requires Inv(s) && !s.running && !Settled(s)
    ensures CanStep(s)
  {
    if s.queueLock.Some? {
      var owner := s.queueLock.value;
      assert s.HoldsQueue(owner);
      assert Enabled(s, Step(owner));
    } else if s.LogOf(Worker).Some? {
      LogNeverStuck(s, Worker);
    } else if s.LogOf(Stopper).Some? {
      LogNeverStuck(s, Stopper);
    } else if i: nat :| i < |s.others| && !s.others[i].OIdle? {
      if s.LogOf(Other(i)).Some? {
        LogNeverStuck(s, Other(i));
      } else {
        assert Enabled(s, Step(Other(i)));
      }
    } else if s.worker.WDone? || s.worker.WAsleep? {
      assert Enabled(s, Step(Stopper));
    } else {
      assert Enabled(s, Step(Worker));
    }
  }

  /** Messages whose push() has begun and not yet reached the queue. */
  ghost predicate NoPushUnderWay(s: State) {
    forall i: nat :: i < |s.others| ==> !s.others[i].OLock? && !s.others[i].OPush?
  }

  ghost predicate NothingLeft(s: State) {
    NoPushUnderWay(s) && (s.stopper.SFinish? || s.stopper.SDone? ==> s.queue == [])
  }

  lemma {:induction false} NothingLeftRun(s: State, more: seq<Action>)
    requires NothingLeft(s) && CanRun(s, more) && AllInternal(more)
    ensures NothingLeft(Run(s, more)) && Run(s, more).h.pushed == s.h.pushed
    decreases more
  {
    if more != [] {
      assert more[0].Internal();
      NothingLeftStep(s, more[0]);
      assert forall k :: 0 <= k < |more| - 1 ==> more[1..][k] == more[k + 1];
      NothingLeftRun(Next(s, more[0]), more[1..]);
    }
  }

  lemma NothingLeftStep(s: State, a: Action)
    requires NothingLeft(s) && Enabled(s, a) && a.Internal()
    ensures NothingLeft(Next(s, a)) && Next(s, a).h.pushed == s.h.pushed
  {
    match a
    case Step(who) =>
      if s.At(who) && s.LogOf(who).Some? {
        NothingLeftLog(s, who);
      } else {
        match who
        case Worker => NothingLeftWorker(s);
        case Stopper => NothingLeftStopper(s);
        case Other(i) => assert !s.others[i].OLock? && !s.others[i].OPush?;
      }
    case _ =>
  }

  lemma NothingLeftWorker(s: State)
    requires NothingLeft(s) && Enabled(s, Step(Worker)) && s.LogOf(Worker).None?
    ensures NothingLeft(WorkerNext(s)) && WorkerNext(s).h.pushed == s.h.pushed
  {
  }

  lemma NothingLeftStopper(s: State)
    requires NothingLeft(s) && Enabled(s, Step(Stopper)) && s.LogOf(Stopper).None?
    ensures NothingLeft(StopperNext(s)) && StopperNext(s).h.pushed == s.h.pushed
  {
  }

  /** A call of the file log touches neither the queue nor a push under way. */
  lemma NothingLeftLog(s: State, who: Who)
    requires NothingLeft(s) && Enabled(s, Step(who)) && s.At(who) && s.LogOf(who).Some?
    ensures NothingLeft(LogNext(s, who)) && LogNext(s, who).h.pushed == s.h.pushed
  {
  }

  /** stop() terminates and loses nothing. From the moment its store is done, with no new
      calls, every run is bounded; one that cannot go on has the worker joined and stop()
      returned, without the help of a spurious wake-up; and if no push() was under way,
      every message ever pushed then stands in the file. */
  lemma StopTerminatesAndLosesNothing(s: State, n: nat, acts: seq<Action>, more: seq<Action>)
    requires Reachable(s, n, acts) && !s.running
    requires CanRun(s, more) && AllInternal(more)
    ensures |more| <= Rank(s)
    ensures CanStep(Run(s, more)) || Settled(Run(s, more))
    ensures Settled(Run(s, more)) && NothingLeft(s) ==> Origin(Run(s, more).h.lines, true) == s.h.pushed
  {
    ReachableInv(s, n, acts);
    var s' := Run(s, more);
    RunInv(s, more);
    StoppedRunIsShort(s, more);
    RankNonNegative(s');
    if !Settled(s') {
      StoppedNeverStuck(s');
    } else if NothingLeft(s) {
      NothingLeftRun(s, more);
    }
  }

  /** Once everything has come to rest, the file is exactly the lines of the direct calls
      and of the messages pushed, but for those still queued. */
  lemma FileAtRest(s: State, n: nat, acts: seq<Action>)
    requires Reachable(s, n, acts) && Settled(s)
    ensures s.file == FileText(s.h.lines)
    ensures Origin(s.h.lines, true) + s.queue == s.h.pushed && Origin(s.h.lines, false) == s.h.direct
  {
    ReachableInv(s, n, acts);
    FileIsWholeLines(s, n, acts);
    NobodyInLog(s);
  }

  lemma NobodyInLog(s: State)
    requires LockInv(s) && Settled(s)
    ensures s.fileLock.None?
  {
    forall who: Who | s.At(who) ensures !s.HoldsFile(who) {
    }
  }

  lemma RankNonNegative(s: State)
    requires LineInv(s)
    ensures Rank(s) >= 0
  {
    assert LineOk(s.LogOf(Worker), Worker) && LineOk(s.LogOf(Stopper), Stopper);
    forall i | 0 <= i < |s.others| ensures OtherRank(s.others[i]) >= 0 {
      assert LineOk(s.LogOf(Other(i)), Other(i));
    }
    SumNonNegative(s.others, OtherRank);
  }

  /** Exactly the messages pushed after the final test stay unwritten: from then on the
      queued lines of the file never change. */
  lemma {:induction false} LatePushesStayQueued(s: State, more: seq<Action>)
    requires Inv(s) && (s.stopper.SFinish? || s.stopper.SDone?) && CanRun(s, more)
    ensures var s' := Run(s, more);
      && Origin(s'.h.lines, true) == Origin(s.h.lines, true)
      && s'.h.pushed == Origin(s.h.lines, true) + s'.queue
    decreases more
  {
    if more != [] {
      StepInv(s, more[0]);
      LateStep(s, more[0]);
      LatePushesStayQueued(Next(s, more[0]), more[1..]);
    }
  }

  lemma LateStep(s: State, a: Action)
    requires PhaseInv(s) && LineInv(s) && (s.stopper.SFinish? || s.stopper.SDone?) && Enabled(s, a)
    ensures Next(s, a).stopper.SFinish? || Next(s, a).stopper.SDone?
    ensures Origin(Next(s, a).h.lines, true) == Origin(s.h.lines, true)
  {
    if a.Step? && s.At(a.who) && s.LogOf(a.who).Some? {
      assert LineOk(s.LogOf(a.who), a.who);
      LogFields(s, a.who);
      OriginOfDirect(s, a.who);
    }
    FinishedStep(s, a);
  }

  lemma OriginOfDirect(s: State, who: Who)
    requires s.At(who) && who.Other? && s.LogOf(who).Some? && LineOk(s.LogOf(who), who)
    ensures var lp := s.LogOf(who).value;
      lp.LWrite? ==> Origin(s.h.lines + [lp.line], true) == Origin(s.h.lines, true)
  {
    var lp := s.LogOf(who).value;
    if lp.LWrite? {
      OriginAppend(s.h.lines, lp.line, true);
    }
  }

  lemma FinishedStep(s: State, a: Action)
    requires PhaseInv(s) && (s.stopper.SFinish? || s.stopper.SDone?) && Enabled(s, a)
    ensures Next(s, a).stopper.SFinish? || Next(s, a).stopper.SDone?
    ensures !(a.Step? && s.At(a.who) && s.LogOf(a.who).Some?) ==> Next(s, a).h.lines == s.h.lines
  {
  }

  // ----- the running log keeps up -----

  /** Steps left while the flag is up and pushes cease. */
  function RunningWorkerRank(w: WorkerPc, idle: bool): int {
    match w
    case WAsleep => 0 case WDone => 0 case WBlock => 1 case WPop => 2 case WTest => 7 case WLock => 8 case WWoken => 8
    case WLoop => 9 case WLeave => 10 case WInner => if idle then 11 else 3
    case WRelock => 12 case WLog(lp) => 13 + LogRank(lp) case WUnlock(_) => 24
  }

  function RunningOtherRank(p: OtherPc): int {
    match p
    case OIdle => 0 case OUnlock => 1 case ONotify => 10 case OPush(_) => 51 case OLock(_) => 52
    case OLog(lp) => 1 + LogRank(lp)
  }

  function RunningRank(s: State): int {
    RunningWorkerRank(s.worker, s.queue == []) + Sum(s.others, RunningOtherRank) + 40 * |s.queue|
    + (if s.stopper.SStore? then 1 else 0)
  }

  lemma RunningRankStep(s: State, a: Action)
    requires PhaseInv(s) && LineInv(s) && Enabled(s, a) && a.Internal() && !a.SpuriousWake? && Next(s, a).running
    ensures RunningRank(Next(s, a)) < RunningRank(s)
  {
    match a
    case OpenLog(who, stamp) => RunningOpenStep(s, who, stamp);
    case Step(who) =>
      if s.At(who) && s.LogOf(who).Some? {
        assert LineOk(s.LogOf(who), who);
        RunningLogRank(s, who);
      } else {
        match who
        case Worker => RunningWorkerStep(s);
        case Stopper =>
        case Other(i) => RunningOtherStep(s, i);
      }
  }

  lemma RunningOpenStep(s: State, who: Who, stamp: string)
    requires PhaseInv(s) && s.running && Enabled(s, OpenLog(who, stamp))
    ensures RunningRank(OpenNext(s, who, stamp)) < RunningRank(s)
  {
    if who.Other? {
      SumUpdate(s.others, who.i, OpenNext(s, who, stamp).others[who.i], RunningOtherRank);
    }
  }

  lemma RunningOtherStep(s: State, i: nat)
    requires s.running && Enabled(s, Step(Other(i))) && s.LogOf(Other(i)).None?
    ensures RunningRank(OtherNext(s, i)) < RunningRank(s)
  {
    SumUpdate(s.others, i, OtherNext(s, i).others[i], RunningOtherRank);
  }

  lemma RunningWorkerStep(s: State)
    requires PhaseInv(s) && s.running && Enabled(s, Step(Worker)) && s.LogOf(Worker).None?
    ensures RunningRank(WorkerNext(s)) < RunningRank(s)
  {
  }

  lemma RunningLogRank(s: State, who: Who)
    requires PhaseInv(s) && s.running && Enabled(s, Step(who))
    requires s.At(who) && s.LogOf(who).Some? && LineOk(s.LogOf(who), who)
    ensures RunningRank(LogNext(s, who)) < RunningRank(s)
  {
    if who.Other? {
      SumUpdate(s.others, who.i, LogNext(s, who).others[who.i], RunningOtherRank);
    }
  }

  ghost predicate Undisturbed(acts: seq<Action>) {
    forall k :: 0 <= k < |acts| ==> acts[k].Internal() && !acts[k].SpuriousWake?
  }

  lemma StaysStopped(s: State, a: Action)
    requires Enabled(s, a) && !s.running
    ensures !Next(s, a).running
  {
  }

  lemma {:induction false} NeverRestarts(s: State, more: seq<Action>)
    requires CanRun(s, more) && !s.running
    ensures !Run(s, more).running
    decreases more
  {
    if more != [] {
      StaysStopped(s, more[0]);
      NeverRestarts(Next(s, more[0]), more[1..]);
    }
  }

  lemma {:induction false} RunningIsShort(s: State, more: seq<Action>)
    requires Inv(s) && CanRun(s, more) && Undisturbed(more) && Run(s, more).running
    ensures |more| + RunningRank(Run(s, more)) <= RunningRank(s)
    decreases more
  {
    if more != [] {
      var s' := Next(s, more[0]);
      if !s'.running {
        NeverRestarts(s', more[1..]);
      }
      assert more[0].Internal() && !more[0].SpuriousWake?;
      RunningRankStep(s, more[0]);
      StepInv(s, more[0]);
      assert forall k :: 0 <= k < |more| - 1 ==> more[1..][k] == more[k + 1];
      RunningIsShort(s', more[1..]);
    }
  }

  /** While the log runs and no new calls come, every run without spurious wake-ups is
      bounded, and when nothing can go on everything pushed is in the file, in order, and
      the file is whole lines. */
  lemma RunningLogCatchesUp(s: State, n: nat, acts: seq<Action>, more: seq<Action>)
    requires Reachable(s, n, acts)
    requires CanRun(s, more) && Undisturbed(more) && Run(s, more).running
    ensures |more| <= RunningRank(s)
    ensures var s' := Run(s, more);
      CanStep(s') || (s'.queue == [] && s'.h.pushed == Origin(s'.h.lines, true) && s'.file == Text(s'.h.lines))
  {
    ReachableInv(s, n, acts);
    RunningIsShort(s, more);
    RunInv(s, more);
    var s' := Run(s, more);
    RunningRankNonNegative(s');
    if !CanStep(s') {
      NothingMovesNothingLeft(s');
    }
  }

  lemma RunningRankNonNegative(s: State)
    requires LineInv(s)
    ensures RunningRank(s) >= 0
  {
    assert LineOk(s.LogOf(Worker), Worker);
    forall i | 0 <= i < |s.others| ensures RunningOtherRank(s.others[i]) >= 0 {
      assert LineOk(s.LogOf(Other(i)), Other(i));
    }
    SumNonNegative(s.others, RunningOtherRank);
  }

  lemma NothingMovesNothingLeft(s: State)
    requires Inv(s) && s.running && !CanStep(s)
    ensures s.queue == [] && s.h.pushed == Origin(s.h.lines, true) && s.file == Text(s.h.lines)
  {
    if s.queueLock.Some? {
      var owner := s.queueLock.value;
      assert s.HoldsQueue(owner);
      assert Enabled(s, Step(owner));
    }
    if s.LogOf(Worker).Some? {
      LogNeverStuck(s, Worker);
    }
    if s.fileLock.Some? {
      assert s.HoldsFile(s.fileLock.value);
      LogNeverStuck(s, s.fileLock.value);
    }
    if !s.worker.WAsleep? {
      assert Enabled(s, Step(Worker));
    }
    if s.queue != [] {
      var i: nat :| i < |s.others| && s.others[i].ONotify?;
      assert s.HoldsQueue(Other(i));
    }
  }
}

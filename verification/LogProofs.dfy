/** What every run of the log pipeline keeps. */
module LogProofs {
  import opened Options
  import opened LogModel

  /** Each mutex excludes: exactly its owner stands inside. */
  ghost predicate LockInv(s: State) {
    && (s.queueLock.Some? ==> s.At(s.queueLock.value)) && (s.fileLock.Some? ==> s.At(s.fileLock.value))
    && (forall who: Who :: s.At(who) ==> (s.HoldsQueue(who) <==> s.queueLock == Some(who)))
    && (forall who: Who :: s.At(who) ==> (s.HoldsFile(who) <==> s.fileLock == Some(who)))
  }

  /** What worker and stopper may rely on at their points. */
  ghost predicate PhaseInv(s: State) {
    && (s.running <==> s.stopper.SIdle? || s.stopper.SStore?)
    && (s.worker.WDone? ==> !s.running)
    && (s.stopper.Draining() ==> s.worker.WDone?)
    && (s.stopper.SRelease? || s.stopper.SJoin? ==> !s.worker.WAsleep? && !s.worker.WBlock?)
    && (s.worker.WPop? || s.stopper.SPop? ==> s.queue != [])
    && (s.worker.WBlock? || s.stopper.SFinish? ==> s.queue == [])
    && !s.h.fault
  }

  /** A position inside log is unfinished and of the right origin. */
  ghost predicate LineOk(lp: Option<LogPc>, who: Who) {
    lp.Some? && lp.value.LWrite? ==> lp.value.j < PIECES && lp.value.line.queued == !who.Other?
  }

  /** A line that `who` writes has the origin of its writer and an unfinished position. */
  ghost predicate LineInv(s: State) {
    forall who: Who :: s.At(who) ==> LineOk(s.LogOf(who), who)
  }

  /** The message a consumer has popped and not yet completed in the file. */
  function Carried(lp: Option<LogPc>): seq<Msg> {
    match lp
    case Some(LWant(m)) => [m]
    case Some(LWrite(line, _)) => [line.msg]
    case _ => []
  }

  function WorkerCarries(w: WorkerPc): seq<Msg> {
    match w case WUnlock(m) => [m] case WLog(lp) => Carried(Some(lp)) case _ => []
  }

  function StopperCarries(p: StopperPc): seq<Msg> {
    match p case SUnlock(m) => [m] case SLog(lp) => Carried(Some(lp)) case _ => []
  }

  function InFlight(s: State): seq<Msg> { WorkerCarries(s.worker) + StopperCarries(s.stopper) }

  ghost predicate DeliveryInv(s: State) {
    s.h.pushed == Origin(s.h.lines, true) + InFlight(s) + s.queue
  }

  /** The unfinished line at the end of the file. */
  ghost function Tail(s: State): string
    requires LockInv(s) && LineInv(s)
  {
    if s.fileLock.None? then ""
    else match s.LogOf(s.fileLock.value)
         case Some(LWrite(line, j)) => Partial(line, j)
         case _ => ""
  }

  /** The direct message whose line is unfinished. */
  ghost function DirectTail(s: State): seq<Msg>
    requires LockInv(s)
  {
    match s.fileLock
    case Some(Other(i)) => Carried(s.LogOf(Other(i)))
    case _ => []
  }

  ghost predicate FileInv(s: State) {
    && LockInv(s) && LineInv(s)
    && s.file == Text(s.h.lines) + Tail(s)
    && s.h.direct == Origin(s.h.lines, false) + DirectTail(s)
  }

  /** While the worker sleeps and the flag is up, a queued message has its notify ahead. */
  ghost predicate WakeInv(s: State) {
    s.worker.WAsleep? && s.running && s.queue != [] ==> exists i: nat :: i < |s.others| && s.others[i].ONotify?
  }

  ghost predicate Inv(s: State) {
    LockInv(s) && PhaseInv(s) && LineInv(s) && DeliveryInv(s) && FileInv(s) && WakeInv(s)
  }

  lemma InitInv(n: nat)
    ensures Inv(Init(n))
  {
  }

  /** Who makes the step. */
  function Actor(a: Action): Who {
    match a
    case BeginPush(i, _) => Other(i)
    case BeginLog(i, _) => Other(i)
    case BeginStop => Stopper
    case Step(who) => who
    case OpenLog(who, _) => who
    case SpuriousWake => Worker
  }

  /** A lock changes hands only between nobody and the acting thread. */
  predicate Handled(before: Option<Who>, after: Option<Who>, who: Who, held: bool, holds: bool) {
    || (after == before && holds == held)
    || (before.None? && after == Some(who) && holds)
    || (held && after.None? && !holds)
  }

  /** A step moves one thread; the others keep their locks and their place inside log. */
  ghost predicate Local(s: State, s': State, who: Who) {
    && |s'.others| == |s.others| && s.At(who)
    && (forall w: Who :: s.At(w) && w != who ==> s'.LogOf(w) == s.LogOf(w) && s'.HoldsQueue(w) == s.HoldsQueue(w))
    && Handled(s.queueLock, s'.queueLock, who, s.HoldsQueue(who), s'.HoldsQueue(who))
    && Handled(s.fileLock, s'.fileLock, who, s.HoldsFile(who), s'.HoldsFile(who))
  }

  lemma WorkerLocal(s: State)
    requires Enabled(s, Step(Worker)) && s.LogOf(Worker).None?
    ensures Local(s, WorkerNext(s), Worker) && LineOk(WorkerNext(s).LogOf(Worker), Worker)
  {
  }

  lemma StopperLocal(s: State)
    requires Enabled(s, Step(Stopper)) && s.LogOf(Stopper).None?
    ensures Local(s, StopperNext(s), Stopper) && LineOk(StopperNext(s).LogOf(Stopper), Stopper)
  {
  }

  lemma OtherLocal(s: State, i: nat)
    requires Enabled(s, Step(Other(i))) && s.LogOf(Other(i)).None?
    ensures Local(s, OtherNext(s, i), Other(i)) && LineOk(OtherNext(s, i).LogOf(Other(i)), Other(i))
  {
  }

  lemma LogLocal(s: State, who: Who)
    requires Enabled(s, Step(who)) && s.At(who) && s.LogOf(who).Some? && LineOk(s.LogOf(who), who)
    ensures Local(s, LogNext(s, who), who) && LineOk(LogNext(s, who).LogOf(who), who)
  {
  }

  lemma OpenLocal(s: State, who: Who, stamp: string)
    requires Enabled(s, OpenLog(who, stamp))
    ensures Local(s, OpenNext(s, who, stamp), who) && LineOk(OpenNext(s, who, stamp).LogOf(who), who)
  {
  }

  lemma StepLocal(s: State, a: Action)
    requires Enabled(s, a) && LineInv(s)
    ensures Local(s, Next(s, a), Actor(a)) && LineOk(Next(s, a).LogOf(Actor(a)), Actor(a))
  {
    match a
    case OpenLog(who, stamp) => OpenLocal(s, who, stamp);
    case Step(who) =>
      if s.At(who) && s.LogOf(who).Some? {
        assert LineOk(s.LogOf(who), who);
        LogLocal(s, who);
      } else {
        match who
        case Worker => WorkerLocal(s);
        case Stopper => StopperLocal(s);
        case Other(i) => OtherLocal(s, i);
      }
    case _ =>
  }

  lemma LocalLocks(s: State, s': State, who: Who)
    requires LockInv(s) && LineInv(s) && Local(s, s', who) && LineOk(s'.LogOf(who), who)
    ensures LockInv(s') && LineInv(s')
  {
    forall w: Who | s'.At(w)
      ensures s'.HoldsQueue(w) <==> s'.queueLock == Some(w)
      ensures s'.HoldsFile(w) <==> s'.fileLock == Some(w)
      ensures LineOk(s'.LogOf(w), w)
    {
      assert s.HoldsQueue(w) <==> s.queueLock == Some(w);
      assert s.HoldsFile(w) <==> s.fileLock == Some(w);
      assert LineOk(s.LogOf(w), w);
      assert s.HoldsQueue(who) <==> s.queueLock == Some(who);
      assert s.HoldsFile(who) <==> s.fileLock == Some(who);
    }
  }

  lemma LockStep(s: State, a: Action)
    requires LockInv(s) && LineInv(s) && Enabled(s, a)
    ensures LockInv(Next(s, a)) && LineInv(Next(s, a))
  {
    StepLocal(s, a);
    LocalLocks(s, Next(s, a), Actor(a));
  }

  lemma PhaseStep(s: State, a: Action)
    requires LockInv(s) && PhaseInv(s) && LineInv(s) && Enabled(s, a)
    ensures PhaseInv(Next(s, a))
  {
    assert s.HoldsQueue(Worker) <==> s.queueLock == Some(Worker);
    assert s.HoldsQueue(Stopper) <==> s.queueLock == Some(Stopper);
    match a
    case Step(who) =>
      if s.At(who) && s.LogOf(who).Some? {
        assert LineOk(s.LogOf(who), who);
        LogPhase(s, who);
      } else {
        match who
        case Worker => WorkerPhase(s);
        case Stopper => StopperPhase(s);
        case Other(i) => OtherPhase(s, i);
      }
    case OpenLog(who, stamp) => OpenPhase(s, who, stamp);
    case _ =>
  }

  lemma WorkerPhase(s: State)
    requires PhaseInv(s) && Enabled(s, Step(Worker)) && s.LogOf(Worker).None?
    requires !(s.HoldsQueue(Worker) && s.HoldsQueue(Stopper))
    ensures PhaseInv(WorkerNext(s))
  {
  }

  lemma StopperPhase(s: State)
    requires PhaseInv(s) && Enabled(s, Step(Stopper)) && s.LogOf(Stopper).None?
    requires !(s.HoldsQueue(Worker) && s.HoldsQueue(Stopper))
    ensures PhaseInv(StopperNext(s))
  {
  }

  lemma OtherPhase(s: State, i: nat)
    requires PhaseInv(s) && LockInv(s) && Enabled(s, Step(Other(i))) && s.LogOf(Other(i)).None?
    ensures PhaseInv(OtherNext(s, i))
  {
    assert s.HoldsQueue(Other(i)) <==> s.queueLock == Some(Other(i));
    assert s.HoldsQueue(Worker) <==> s.queueLock == Some(Worker);
    assert s.HoldsQueue(Stopper) <==> s.queueLock == Some(Stopper);
  }

  lemma LogPhase(s: State, who: Who)
    requires PhaseInv(s) && Enabled(s, Step(who)) && s.At(who) && s.LogOf(who).Some? && LineOk(s.LogOf(who), who)
    ensures PhaseInv(LogNext(s, who))
  {
  }

  lemma OpenPhase(s: State, who: Who, stamp: string)
    requires PhaseInv(s) && Enabled(s, OpenLog(who, stamp))
    ensures PhaseInv(OpenNext(s, who, stamp))
  {
  }

  lemma {:induction false} OriginAppend(lines: seq<Line>, last: Line, queued: bool)
    ensures Origin(lines + [last], queued) == Origin(lines, queued) + (if last.queued == queued then [last.msg] else [])
  {
    assert (lines + [last])[..|lines|] == lines;
  }

  lemma TextAppend(lines: seq<Line>, last: Line)
    ensures Text(lines + [last]) == Text(lines) + Partial(last, PIECES)
  {
    assert (lines + [last])[..|lines|] == lines;
  }

  lemma DeliveryStep(s: State, a: Action)
    requires PhaseInv(s) && LineInv(s) && DeliveryInv(s) && Enabled(s, a)
    ensures DeliveryInv(Next(s, a))
  {
    match a
    case Step(who) =>
      if s.At(who) && s.LogOf(who).Some? {
        assert LineOk(s.LogOf(who), who);
        LogDelivery(s, who);
      } else {
        match who
        case Worker => WorkerDelivery(s);
        case Stopper => StopperDelivery(s);
        case Other(i) => OtherDelivery(s, i);
      }
    case OpenLog(who, stamp) => OpenDelivery(s, who, stamp);
    case _ =>
  }

  lemma WorkerDelivery(s: State)
    requires PhaseInv(s) && DeliveryInv(s) && Enabled(s, Step(Worker)) && s.LogOf(Worker).None?
    ensures DeliveryInv(WorkerNext(s))
  {
    if s.worker.WPop? {
      assert !s.stopper.Draining();
      WorkerPops(s);
    } else {
      WorkerKeeps(s);
    }
  }

  lemma WorkerKeeps(s: State)
    requires Enabled(s, Step(Worker)) && s.LogOf(Worker).None? && !s.worker.WPop?
    ensures WorkerNext(s).queue == s.queue && WorkerNext(s).h == s.h && WorkerNext(s).stopper == s.stopper
    ensures WorkerCarries(WorkerNext(s).worker) == WorkerCarries(s.worker)
  {
  }

  lemma WorkerPops(s: State)
    requires s.worker.WPop? && s.queue != [] && DeliveryInv(s) && StopperCarries(s.stopper) == []
    requires Enabled(s, Step(Worker))
    ensures DeliveryInv(WorkerNext(s))
  {
    PoppedInOrder(Origin(s.h.lines, true), s.queue);
  }

  lemma StopperDelivery(s: State)
    requires PhaseInv(s) && DeliveryInv(s) && Enabled(s, Step(Stopper)) && s.LogOf(Stopper).None?
    ensures DeliveryInv(StopperNext(s))
  {
    if s.stopper.SPop? {
      StopperPops(s);
    } else {
      StopperKeeps(s);
    }
  }

  lemma StopperKeeps(s: State)
    requires Enabled(s, Step(Stopper)) && s.LogOf(Stopper).None? && !s.stopper.SPop?
    ensures StopperNext(s).queue == s.queue && StopperNext(s).h == s.h
    ensures WorkerCarries(StopperNext(s).worker) == WorkerCarries(s.worker)
    ensures StopperCarries(StopperNext(s).stopper) == StopperCarries(s.stopper)
  {
  }

  lemma StopperPops(s: State)
    requires s.stopper.SPop? && s.queue != [] && DeliveryInv(s) && WorkerCarries(s.worker) == []
    requires Enabled(s, Step(Stopper))
    ensures DeliveryInv(StopperNext(s))
  {
    PoppedInOrder(Origin(s.h.lines, true), s.queue);
  }

  /** The front of the queue goes in flight between what is written and the rest. */
  lemma PoppedInOrder(done: seq<Msg>, queue: seq<Msg>)
    requires queue != []
    ensures done + ([] + []) + queue == done + ([queue[0]] + []) + queue[1..]
    ensures done + ([] + []) + queue == done + ([] + [queue[0]]) + queue[1..]
  {
    assert queue == [queue[0]] + queue[1..];
  }

  lemma OtherDelivery(s: State, i: nat)
    requires DeliveryInv(s) && Enabled(s, Step(Other(i))) && s.LogOf(Other(i)).None?
    ensures DeliveryInv(OtherNext(s, i))
  {
    var s' := OtherNext(s, i);
    assert InFlight(s') == InFlight(s);
    if s.others[i].OPush? {
      PushedIsDelivered(Origin(s.h.lines, true) + InFlight(s), s.queue, s.others[i].m);
    }
  }

  lemma PushedIsDelivered(done: seq<Msg>, queue: seq<Msg>, m: Msg)
    ensures done + (queue + [m]) == done + queue + [m]
  {
  }

  /** A consumer's message leaves its hands exactly when its line is complete. */
  lemma LogDelivery(s: State, who: Who)
    requires PhaseInv(s) && DeliveryInv(s) && Enabled(s, Step(who)) && s.At(who) && s.LogOf(who).Some?
    requires LineOk(s.LogOf(who), who)
    ensures DeliveryInv(LogNext(s, who))
  {
    var s', lp := LogNext(s, who), s.LogOf(who).value;
    LogFields(s, who);
    if lp.LWrite? && lp.j + 1 == PIECES {
      var landed := if lp.line.queued then [lp.line.msg] else [];
      OriginAppend(s.h.lines, lp.line, true);
      LineLands(s, who);
      LandedIsDelivered(s, s', landed);
    } else {
      InFlightKept(s, who);
      LandedIsDelivered(s, s', []);
    }
  }

  lemma LandedIsDelivered(s: State, s': State, landed: seq<Msg>)
    requires DeliveryInv(s) && s'.queue == s.queue && s'.h.pushed == s.h.pushed
    requires InFlight(s) == landed + InFlight(s')
    requires Origin(s'.h.lines, true) == Origin(s.h.lines, true) + landed
    ensures DeliveryInv(s')
  {
    Reassociate(Origin(s.h.lines, true), landed, InFlight(s'));
  }

  lemma Reassociate<T>(a: seq<T>, b: seq<T>, c: seq<T>)
    ensures a + (b + c) == a + b + c
  {
  }

  lemma LogFields(s: State, who: Who)
    requires Enabled(s, Step(who)) && s.At(who) && s.LogOf(who).Some?
    ensures LogNext(s, who).queue == s.queue && LogNext(s, who).h.pushed == s.h.pushed
    ensures var lp := s.LogOf(who).value;
      LogNext(s, who).h.lines == if lp.LWrite? && lp.j + 1 == PIECES then s.h.lines + [lp.line] else s.h.lines
  {
  }

  lemma LineLands(s: State, who: Who)
    requires PhaseInv(s) && s.At(who) && s.LogOf(who).Some? && LineOk(s.LogOf(who), who)
    requires s.LogOf(who).value.LWrite? && s.LogOf(who).value.j + 1 == PIECES
    ensures Enabled(s, Step(who))
    ensures var line := s.LogOf(who).value.line;
      InFlight(s) == (if line.queued then [line.msg] else []) + InFlight(LogNext(s, who))
  {
  }

  lemma InFlightKept(s: State, who: Who)
    requires Enabled(s, Step(who)) && s.At(who) && s.LogOf(who).Some? && LineOk(s.LogOf(who), who)
    requires !(s.LogOf(who).value.LWrite? && s.LogOf(who).value.j + 1 == PIECES)
    ensures InFlight(LogNext(s, who)) == InFlight(s)
  {
  }

  lemma OpenDelivery(s: State, who: Who, stamp: string)
    requires DeliveryInv(s) && Enabled(s, OpenLog(who, stamp))
    ensures DeliveryInv(OpenNext(s, who, stamp))
  {
  }

  lemma FileStep(s: State, a: Action)
    requires FileInv(s) && Enabled(s, a)
    ensures FileInv(Next(s, a))
  {
    LockStep(s, a);
    match a
    case Step(who) =>
      if s.At(who) && s.LogOf(who).Some? {
        LogFile(s, who);
      } else {
        StepLocal(s, a);
        FileKept(s, a);
      }
    case OpenLog(who, stamp) => OpenFile(s, who, stamp);
    case _ =>
      StepLocal(s, a);
      FileKept(s, a);
  }

  /** Steps outside log leave the file and its writer alone. */
  lemma FileKept(s: State, a: Action)
    requires FileInv(s) && Enabled(s, a) && LockInv(Next(s, a)) && LineInv(Next(s, a))
    requires !a.OpenLog? && (a.Step? && s.At(a.who) ==> s.LogOf(a.who).None?)
    requires Local(s, Next(s, a), Actor(a))
    ensures FileInv(Next(s, a))
  {
    var s' := Next(s, a);
    OutsideLog(s, a);
    if s.fileLock.Some? {
      var w := s.fileLock.value;
      assert s.HoldsFile(w) && s'.LogOf(w) == s.LogOf(w);
    }
  }

  lemma OutsideLog(s: State, a: Action)
    requires Enabled(s, a) && !a.OpenLog? && (a.Step? && s.At(a.who) ==> s.LogOf(a.who).None?)
    ensures Next(s, a).file == s.file && Next(s, a).fileLock == s.fileLock
    ensures Next(s, a).h.lines == s.h.lines && Next(s, a).h.direct == s.h.direct
  {
  }

  lemma LogFile(s: State, who: Who)
    requires FileInv(s) && Enabled(s, Step(who)) && s.At(who) && s.LogOf(who).Some?
    requires LockInv(LogNext(s, who)) && LineInv(LogNext(s, who))
    ensures FileInv(LogNext(s, who))
  {
    assert s.HoldsFile(who) && s.fileLock == Some(who);
    assert LineOk(s.LogOf(who), who);
    if s.LogOf(who).value.LWrite? {
      InsertFile(s, who);
    }
  }

  /** An insertion moves the unfinished line on; the last one makes it whole. */
  lemma InsertFile(s: State, who: Who)
    requires FileInv(s) && Enabled(s, Step(who)) && s.At(who) && s.LogOf(who).Some? && s.LogOf(who).value.LWrite?
    requires s.fileLock == Some(who) && LineOk(s.LogOf(who), who)
    requires LockInv(LogNext(s, who)) && LineInv(LogNext(s, who))
    ensures FileInv(LogNext(s, who))
  {
    var s', lp := LogNext(s, who), s.LogOf(who).value;
    InsertText(s.h.lines, lp.line, lp.j);
    InsertEffect(s, who);
    if lp.j + 1 == PIECES {
      OriginAppend(s.h.lines, lp.line, false);
      assert Tail(s') == "";
    }
  }

  lemma InsertEffect(s: State, who: Who)
    requires Enabled(s, Step(who)) && s.At(who) && s.LogOf(who).Some? && s.LogOf(who).value.LWrite?
    requires LineOk(s.LogOf(who), who)
    ensures var s', lp := LogNext(s, who), s.LogOf(who).value;
      && s'.file == s.file + Piece(lp.line, lp.j) && s'.fileLock == s.fileLock && s'.h.direct == s.h.direct
      && s'.At(who) && s'.LogOf(who) == Some(if lp.j + 1 < PIECES then LWrite(lp.line, lp.j + 1) else LUnlock)
      && s'.h.lines == if lp.j + 1 == PIECES then s.h.lines + [lp.line] else s.h.lines
  {
  }

  lemma InsertText(lines: seq<Line>, line: Line, j: nat)
    requires j < PIECES
    ensures Text(lines) + Partial(line, j) + Piece(line, j) == Text(lines) + Partial(line, j + 1)
    ensures j + 1 == PIECES ==> Text(lines + [line]) == Text(lines) + Partial(line, j) + Piece(line, j)
  {
    Reassociate(Text(lines), Partial(line, j), Piece(line, j));
    TextAppend(lines, line);
  }

  lemma OpenFile(s: State, who: Who, stamp: string)
    requires FileInv(s) && Enabled(s, OpenLog(who, stamp))
    requires LockInv(OpenNext(s, who, stamp)) && LineInv(OpenNext(s, who, stamp))
    ensures FileInv(OpenNext(s, who, stamp))
  {
    var s' := OpenNext(s, who, stamp);
    assert s'.LogOf(who) == Some(LWrite(Line(s.LogOf(who).value.m, !who.Other?, stamp), 0));
  }

  lemma WakeStep(s: State, a: Action)
    requires LockInv(s) && PhaseInv(s) && WakeInv(s) && Enabled(s, a)
    ensures WakeInv(Next(s, a))
  {
    var s' := Next(s, a);
    if s'.worker.WAsleep? && s'.running && s'.queue != [] {
      if a.Step? && a.who.Other? && s.others[a.who.i].OPush? {
        assert s'.others[a.who.i].ONotify?;
      } else {
        var i: nat :| i < |s.others| && s.others[i].ONotify?;
        assert s'.others[i].ONotify?;
      }
    }
  }

  lemma StepInv(s: State, a: Action)
    requires Inv(s) && Enabled(s, a)
    ensures Inv(Next(s, a))
  {
    LockStep(s, a);
    PhaseStep(s, a);
    DeliveryStep(s, a);
    FileStep(s, a);
    WakeStep(s, a);
  }

  lemma {:induction false} RunInv(s: State, acts: seq<Action>)
    requires Inv(s) && CanRun(s, acts)
    ensures Inv(Run(s, acts))
    decreases acts
  {
    if acts != [] {
      StepInv(s, acts[0]);
      RunInv(Next(s, acts[0]), acts[1..]);
    }
  }
}

/** The asynchronous log as a system of concurrent steps (src/LogSystem.cpp,
    includes/LogSystem.h), from the moment run() has started the worker.

    Producers push under queue_mutex. The worker pops under queue_mutex, unlocks, and
    writes through LogSystem::log under log_mutex. stop() clears the flag, wakes the
    worker, joins it and drains the rest itself, again unlocking around each write. Other
    threads call LogSystem::log directly at any time. One thread calls stop(). */
module LogModel {
  import opened Options

  datatype LogLevel = DEBUG | INFO | WARN | ERROR

  datatype Msg = Msg(level: LogLevel, text: string)

  /** A call of LogSystem::log: the message, whether it came through the queue, and the
      time stamp read inside the call. */
  datatype Line = Line(msg: Msg, queued: bool, stamp: string)

  function LevelString(level: LogLevel): string {
    match level
    case DEBUG => "DEBUG"
    case INFO => "INFO"
    case WARN => "WARN"
    case ERROR => "ERROR"
  }

  const PIECES := 7

  /** The stream insertions that make up one line, in order. */
  function Piece(line: Line, j: nat): string
    requires j < PIECES
  {
    if j == 0 then "[" else if j == 1 then line.stamp else if j == 2 then "] ["
    else if j == 3 then LevelString(line.msg.level) else if j == 4 then "] "
    else if j == 5 then line.msg.text else "\n"
  }

  /** A line after its first `j` insertions. */
  function Partial(line: Line, j: nat): string
    requires j <= PIECES
  {
    if j == 0 then "" else Partial(line, j - 1) + Piece(line, j - 1)
  }

  function Text(lines: seq<Line>): string {
    if lines == [] then "" else Text(lines[..|lines| - 1]) + Partial(lines[|lines| - 1], PIECES)
  }

  /** The messages of the lines with the given origin, in file order. */
  function Origin(lines: seq<Line>, queued: bool): seq<Msg> {
    if lines == [] then []
    else
      var last := lines[|lines| - 1];
      Origin(lines[..|lines| - 1], queued) + (if last.queued == queued then [last.msg] else [])
  }

  /** Inside LogSystem::log: waiting for log_mutex, after `j` insertions, before unlocking. */
  datatype LogPc = LWant(m: Msg) | LWrite(line: Line, j: nat) | LUnlock

  datatype WorkerPc =
    | WLoop | WLock | WTest | WBlock | WAsleep | WWoken | WInner | WPop | WUnlock(m: Msg) | WLog(lp: LogPc) | WRelock
    | WLeave | WDone
  {
    predicate HoldsQueue() { WTest? || WBlock? || WInner? || WPop? || WUnlock? || WLeave? }
    predicate WantsQueue() { WLock? || WWoken? || WRelock? }
  }

  datatype StopperPc =
    | SIdle | SStore | SLock | SNotify | SRelease | SJoin
    | SRelock | STest | SPop | SUnlock(m: Msg) | SLog(lp: LogPc) | SFinish | SDone
  {
    predicate HoldsQueue() { SNotify? || SRelease? || STest? || SPop? || SUnlock? || SFinish? }
    predicate WantsQueue() { SLock? || SRelock? }
    /** Past the join: the stopper is the only consumer now. */
    predicate Draining() { SRelock? || STest? || SPop? || SUnlock? || SLog? || SFinish? || SDone? }
  }

  /** Any other thread: producing into the queue or logging directly. */
  datatype OtherPc = OIdle | OLock(m: Msg) | OPush(m: Msg) | ONotify | OUnlock | OLog(lp: LogPc)
  {
    predicate HoldsQueue() { OPush? || ONotify? || OUnlock? }
  }

  datatype Who = Worker | Stopper | Other(i: nat)

  /** What has happened so far: messages queued, messages of direct calls in the order they
      took log_mutex, lines completed in the file; whether front() or pop() ever met an
      empty queue. */
  datatype History = History(pushed: seq<Msg>, direct: seq<Msg>, lines: seq<Line>, fault: bool)

  /** The queue and its flag, the file, the owners of the two mutexes, the threads. */
  datatype State = State(
    queue: seq<Msg>, running: bool, queueLock: Option<Who>, fileLock: Option<Who>, file: string,
    worker: WorkerPc, stopper: StopperPc, others: seq<OtherPc>, h: History)
  {
    predicate At(who: Who) { who.Other? ==> who.i < |others| }

    /** Where `who` stands inside LogSystem::log, if it is there. */
    function LogOf(who: Who): Option<LogPc> requires At(who) {
      match who
      case Worker => if worker.WLog? then Some(worker.lp) else None
      case Stopper => if stopper.SLog? then Some(stopper.lp) else None
      case Other(i) => if others[i].OLog? then Some(others[i].lp) else None
    }

    function SetLog(who: Who, lp: LogPc): State requires At(who) {
      match who
      case Worker => this.(worker := WLog(lp))
      case Stopper => this.(stopper := SLog(lp))
      case Other(i) => this.(others := others[i := OLog(lp)])
    }

    /** Where `who` goes on after the call of LogSystem::log. */
    function LeaveLog(who: Who): State requires At(who) {
      match who
      case Worker => this.(worker := WRelock)
      case Stopper => this.(stopper := SRelock)
      case Other(i) => this.(others := others[i := OIdle])
    }

    predicate HoldsQueue(who: Who) requires At(who) {
      match who
      case Worker => worker.HoldsQueue()
      case Stopper => stopper.HoldsQueue()
      case Other(i) => others[i].HoldsQueue()
    }

    predicate HoldsFile(who: Who) requires At(who) {
      var lp := LogOf(who); lp.Some? && !lp.value.LWant?
    }
  }

  datatype Action =
    | BeginPush(i: nat, m: Msg) | BeginLog(i: nat, m: Msg) | BeginStop
    | Step(who: Who) | OpenLog(who: Who, stamp: string) | SpuriousWake
  {
    predicate Internal() { Step? || OpenLog? || SpuriousWake? }
  }

  function Init(others: nat): State {
    State([], true, None, None, "", WLoop, SIdle, seq(others, _ => OIdle), History([], [], [], false))
  }

  predicate Enabled(s: State, a: Action) {
    match a
    case BeginPush(i, _) => i < |s.others| && s.others[i].OIdle?
    case BeginLog(i, _) => i < |s.others| && s.others[i].OIdle?
    case BeginStop => s.stopper.SIdle?
    case OpenLog(who, _) => s.At(who) && s.LogOf(who).Some? && s.LogOf(who).value.LWant? && s.fileLock.None?
    case SpuriousWake => s.worker.WAsleep?
    case Step(who) =>
      if s.At(who) && s.LogOf(who).Some? then !s.LogOf(who).value.LWant?
      else match who
           case Worker => !s.worker.WAsleep? && !s.worker.WDone? && (s.worker.WantsQueue() ==> s.queueLock.None?)
           case Stopper => !s.stopper.SIdle? && !s.stopper.SDone? && (s.stopper.WantsQueue() ==> s.queueLock.None?)
                           && (s.stopper.SJoin? ==> s.worker.WDone?)
           case Other(i) => i < |s.others| && !s.others[i].OIdle? && (s.others[i].OLock? ==> s.queueLock.None?)
  }

  function Wake(w: WorkerPc): WorkerPc { if w.WAsleep? then WWoken else w }

  /** The worker's loops in run(). */
  function WorkerNext(s: State): State
    requires Enabled(s, Step(Worker)) && s.LogOf(Worker).None?
  {
    match s.worker
    case WLoop => s.(worker := if s.running then WLock else WDone)
    case WLock => s.(worker := WTest, queueLock := Some(Worker))
    case WWoken => s.(worker := WTest, queueLock := Some(Worker))
    case WTest => s.(worker := if s.queue != [] || !s.running then WInner else WBlock)
    case WBlock => s.(worker := WAsleep, queueLock := None)
    case WInner => s.(worker := if s.queue != [] && s.running then WPop else WLeave)
    case WPop =>
      if s.queue == [] then s.(worker := WLeave, h := s.h.(fault := true))
      else s.(worker := WUnlock(s.queue[0]), queue := s.queue[1..])
    case WUnlock(m) => s.(worker := WLog(LWant(m)), queueLock := None)
    case WRelock => s.(worker := WInner, queueLock := Some(Worker))
    case WLeave => s.(worker := WLoop, queueLock := None)
  }

  function StopperNext(s: State): State
    requires Enabled(s, Step(Stopper)) && s.LogOf(Stopper).None?
  {
    match s.stopper
    case SStore => s.(stopper := SLock, running := false)
    case SLock => s.(stopper := SNotify, queueLock := Some(Stopper))
    case SNotify => s.(stopper := SRelease, worker := Wake(s.worker))
    case SRelease => s.(stopper := SJoin, queueLock := None)
    case SJoin => s.(stopper := SRelock)
    case SRelock => s.(stopper := STest, queueLock := Some(Stopper))
    case STest => s.(stopper := if s.queue != [] then SPop else SFinish)
    case SPop =>
      if s.queue == [] then s.(stopper := SFinish, h := s.h.(fault := true))
      else s.(stopper := SUnlock(s.queue[0]), queue := s.queue[1..])
    case SUnlock(m) => s.(stopper := SLog(LWant(m)), queueLock := None)
    case SFinish => s.(stopper := SDone, queueLock := None)
  }

  function OtherNext(s: State, i: nat): State
    requires Enabled(s, Step(Other(i))) && s.LogOf(Other(i)).None?
  {
    match s.others[i]
    case OLock(m) => s.(others := s.others[i := OPush(m)], queueLock := Some(Other(i)))
    case OPush(m) => s.(others := s.others[i := ONotify], queue := s.queue + [m], h := s.h.(pushed := s.h.pushed + [m]))
    case ONotify => s.(others := s.others[i := OUnlock], worker := Wake(s.worker))
    case OUnlock => s.(others := s.others[i := OIdle], queueLock := None)
  }

  /** Inside LogSystem::log under log_mutex: one insertion at a time, then unlock. */
  function LogNext(s: State, who: Who): State
    requires Enabled(s, Step(who)) && s.LogOf(who).Some?
  {
    match s.LogOf(who).value
    case LWrite(line, j) =>
      if j >= PIECES then s.SetLog(who, LUnlock).(h := s.h.(fault := true))
      else if j + 1 < PIECES then s.SetLog(who, LWrite(line, j + 1)).(file := s.file + Piece(line, j))
      else s.SetLog(who, LUnlock).(file := s.file + Piece(line, j), h := s.h.(lines := s.h.lines + [line]))
    case LUnlock => s.LeaveLog(who).(fileLock := None)
  }

  function OpenNext(s: State, who: Who, stamp: string): State
    requires Enabled(s, OpenLog(who, stamp))
  {
    var m := s.LogOf(who).value.m;
    var s1 := s.SetLog(who, LWrite(Line(m, !who.Other?, stamp), 0)).(fileLock := Some(who));
    if who.Other? then s1.(h := s1.h.(direct := s1.h.direct + [m])) else s1
  }

  function Next(s: State, a: Action): State
    requires Enabled(s, a)
  {
    match a
    case BeginPush(i, m) => s.(others := s.others[i := OLock(m)])
    case BeginLog(i, m) => s.(others := s.others[i := OLog(LWant(m))])
    case BeginStop => s.(stopper := SStore)
    case OpenLog(who, stamp) => OpenNext(s, who, stamp)
    case SpuriousWake => s.(worker := WWoken)
    case Step(who) =>
      if s.LogOf(who).Some? then LogNext(s, who)
      else match who
           case Worker => WorkerNext(s)
           case Stopper => StopperNext(s)
           case Other(i) => OtherNext(s, i)
  }

  predicate CanRun(s: State, acts: seq<Action>)
    decreases acts
  {
    acts == [] || (Enabled(s, acts[0]) && CanRun(Next(s, acts[0]), acts[1..]))
  }

  function Run(s: State, acts: seq<Action>): State
    requires CanRun(s, acts)
    decreases acts
  {
    if acts == [] then s else Run(Next(s, acts[0]), acts[1..])
  }
}

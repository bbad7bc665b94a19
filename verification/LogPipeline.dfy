/** LogQueue and LogSystem in the source's own shape: one object whose members the threads
    update step by step. Each step is proved to be the step of the model; the object stays in
    a reachable state, so the theorems hold of it between any two calls. */
module LogPipelineObject {
  import opened Options
  import opened LogModel
  import opened LogProofs
  import opened LogTheorems

  class LogPipeline {
    var queue: seq<Msg>             // log_queue
    var running: bool               // running
    var queueLock: Option<Who>      // queue_mutex
    var fileLock: Option<Who>       // log_mutex
    var file: string                // the log file
    var worker: WorkerPc            // log_thread
    var stopper: StopperPc
    var others: seq<OtherPc>
    ghost var h: History
    ghost const threads: nat
    ghost var acts: seq<Action>     // the steps so far

    ghost function Abs(): State
      reads this
    {
      State(queue, running, queueLock, fileLock, file, worker, stopper, others, h)
    }

    /** The steps so far lead from the start of the worker to here. */
    ghost predicate Valid()
      reads this
    {
      Reachable(Abs(), threads, acts)
    }

    /** The queue just after run(). */
    constructor (threads: nat)
      ensures Valid() && Abs() == Init(threads)
    {
      queue, running, queueLock, fileLock, file := [], true, None, None, "";
      worker, stopper, others := WLoop, SIdle, seq(threads, _ => OIdle);
      h := History([], [], [], false);
      this.threads, acts := threads, [];
    }

    lemma Safe()
      requires Valid()
      ensures Inv(Abs())
    {
      ReachableInv(Abs(), threads, acts);
    }

    /** Take down the step that is about to be made. */
    ghost method Record(a: Action)
      requires Valid() && Enabled(Abs(), a)
      modifies this`acts
      ensures acts == old(acts) + [a]
      ensures Reachable(Next(Abs(), a), threads, acts)
    {
      RunSnoc(Init(threads), acts, a);
      acts := acts + [a];
    }

    /** pop(): takes no lock itself; its callers hold queue_mutex on a non-empty queue. */
    method Pop() returns (m: Msg)
      requires queue != []
      modifies this`queue
      ensures [m] + queue == old(queue)
    {
      m := queue[0];
      queue := queue[1..];
    }

    method BeginPush(i: nat, m: Msg)
      requires Valid() && Enabled(Abs(), Action.BeginPush(i, m))
      modifies this
      ensures Valid() && Abs() == Next(old(Abs()), Action.BeginPush(i, m))
    {
      Record(Action.BeginPush(i, m));
      others := others[i := OLock(m)];
    }

    /** push() and the rest of a producer's critical section. */
    method ProducerStep(i: nat)
      requires Valid() && Enabled(Abs(), Step(Other(i))) && !others[i].OLog?
      modifies this
      ensures Valid() && Abs() == Next(old(Abs()), Step(Other(i)))
    {
      Record(Step(Other(i)));
      match others[i] {
        case OLock(m) =>
          queueLock := Some(Other(i));
          others := others[i := OPush(m)];
        case OPush(m) =>
          queue := queue + [m];
          h := h.(pushed := h.pushed + [m]);
          others := others[i := ONotify];
        case ONotify =>
          WakeWorker();
          others := others[i := OUnlock];
        case OUnlock =>
          queueLock := None;
          others := others[i := OIdle];
      }
    }

    /** notify_one and notify_all: only the worker ever waits on queue_cond. */
    method WakeWorker()
      modifies this`worker
      ensures worker == Wake(old(worker))
    {
      if worker.WAsleep? {
        worker := WWoken;
      }
    }

    method SpuriousWake()
      requires Valid() && Enabled(Abs(), Action.SpuriousWake)
      modifies this
      ensures Valid() && Abs() == Next(old(Abs()), Action.SpuriousWake)
    {
      Record(Action.SpuriousWake);
      worker := WWoken;
    }

    /** The nested loops of the thread that run() starts. */
    method WorkerStep()
      requires Valid() && Enabled(Abs(), Step(Worker)) && !worker.WLog?
      modifies this
      ensures Valid() && Abs() == Next(old(Abs()), Step(Worker))
    {
      if worker.WPop? {
        ConsumersNeverStarve(Abs(), threads, acts);
      }
      Record(Step(Worker));
      match worker {
        case WLoop =>
          worker := if running then WLock else WDone;
        case WLock =>
          queueLock, worker := Some(Worker), WTest;
        case WWoken =>
          queueLock, worker := Some(Worker), WTest;
        case WTest =>
          worker := if queue != [] || !running then WInner else WBlock;
        case WBlock =>
          queueLock, worker := None, WAsleep;
        case WInner =>
          worker := if queue != [] && running then WPop else WLeave;
        case WPop =>
          var m := Pop();
          worker := WUnlock(m);
        case WUnlock(m) =>
          queueLock, worker := None, WLog(LWant(m));
        case WRelock =>
          queueLock, worker := Some(Worker), WInner;
        case WLeave =>
          queueLock, worker := None, WLoop;
      }
    }

    method BeginStop()
      requires Valid() && Enabled(Abs(), Action.BeginStop)
      modifies this
      ensures Valid() && Abs() == Next(old(Abs()), Action.BeginStop)
    {
      Record(Action.BeginStop);
      stopper := SStore;
    }

    /** stop(): store, notify under the mutex, join, then the drain loop. */
    method StopStep()
      requires Valid() && Enabled(Abs(), Step(Stopper)) && !stopper.SLog?
      modifies this
      ensures Valid() && Abs() == Next(old(Abs()), Step(Stopper))
    {
      if stopper.SPop? {
        ConsumersNeverStarve(Abs(), threads, acts);
      }
      Record(Step(Stopper));
      match stopper {
        case SStore =>
          running, stopper := false, SLock;
        case SLock =>
          queueLock, stopper := Some(Stopper), SNotify;
        case SNotify =>
          WakeWorker();
          stopper := SRelease;
        case SRelease =>
          queueLock, stopper := None, SJoin;
        case SJoin =>
          stopper := SRelock;
        case SRelock =>
          queueLock, stopper := Some(Stopper), STest;
        case STest =>
          stopper := if queue != [] then SPop else SFinish;
        case SPop =>
          var m := Pop();
          stopper := SUnlock(m);
        case SUnlock(m) =>
          queueLock, stopper := None, SLog(LWant(m));
        case SFinish =>
          queueLock, stopper := None, SDone;
      }
    }

    method BeginLog(i: nat, m: Msg)
      requires Valid() && Enabled(Abs(), Action.BeginLog(i, m))
      modifies this
      ensures Valid() && Abs() == Next(old(Abs()), Action.BeginLog(i, m))
    {
      Record(Action.BeginLog(i, m));
      others := others[i := OLog(LWant(m))];
    }

    /** LogSystem::log takes log_mutex, opens the file and reads the clock. */
    method OpenLog(who: Who, stamp: string)
      requires Valid() && Enabled(Abs(), Action.OpenLog(who, stamp))
      modifies this
      ensures Valid() && Abs() == Next(old(Abs()), Action.OpenLog(who, stamp))
    {
      Record(Action.OpenLog(who, stamp));
      fileLock := Some(who);
      match who {
        case Worker =>
          worker := WLog(LWrite(Line(worker.lp.m, true, stamp), 0));
        case Stopper =>
          stopper := SLog(LWrite(Line(stopper.lp.m, true, stamp), 0));
        case Other(i) =>
          var m := others[i].lp.m;
          others := others[i := OLog(LWrite(Line(m, false, stamp), 0))];
          h := h.(direct := h.direct + [m]);
      }
    }

    /** LogSystem::log inserts one piece of its line. */
    method Insert(who: Who)
      requires Valid() && Enabled(Abs(), Step(who)) && Abs().At(who)
      requires Abs().LogOf(who).Some? && Abs().LogOf(who).value.LWrite?
      modifies this
      ensures Valid() && Abs() == Next(old(Abs()), Step(who))
    {
      InsertionsInRange(Abs(), threads, acts, who);
      Record(Step(who));
      var lp := match who case Worker => worker.lp case Stopper => stopper.lp case Other(i) => others[i].lp;
      file := file + Piece(lp.line, lp.j);
      var lp' := if lp.j + 1 < PIECES then LWrite(lp.line, lp.j + 1) else LUnlock;
      if lp'.LUnlock? {
        h := h.(lines := h.lines + [lp.line]);
      }
      match who {
        case Worker => worker := WLog(lp');
        case Stopper => stopper := SLog(lp');
        case Other(i) => others := others[i := OLog(lp')];
      }
    }

    /** LogSystem::log returns. */
    method LeaveLog(who: Who)
      requires Valid() && Enabled(Abs(), Step(who)) && Abs().At(who)
      requires Abs().LogOf(who) == Some(LUnlock)
      modifies this
      ensures Valid() && Abs() == Next(old(Abs()), Step(who))
    {
      Record(Step(who));
      fileLock := None;
      match who {
        case Worker => worker := WRelock;
        case Stopper => stopper := SRelock;
        case Other(i) => others := others[i := OIdle];
      }
    }
  }
}

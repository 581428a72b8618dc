/**
 * The thread-per-request and the process-per-request launcher as one step system: the
 * launcher thread, the workers it starts, the permit counter with its mutex and condition
 * variable, the counter of executed requests and, between threads, the shared list of
 * finished thread arguments.
 */
module Launchers {
  import opened Base

  type WorkerId = nat

  datatype Kind = ThreadPerRequest | ProcessPerRequest

  /** What a worker does next. The list steps are the thread launcher's only. */
  datatype WorkerPc =
    | Run | ListLock | SetLink | SetHead | ListUnlock
    | PermitLock | Increment | Signal | PermitUnlock | Count | Exited

  /** A worker and its `thread_arg`, of which only the link and its being freed matter. */
  datatype Worker = Worker(pc: WorkerPc, link: Option<WorkerId>, freed: bool)

  /** What the launcher thread does next; Outside is between two calls. */
  datatype MainPc =
    | Outside | Spawning
    | Acquiring | Checking | Sleeping | Releasing
    | AcquiringList | Taking | ReleasingList(cursor: Option<WorkerId>)
    | Reaping(cursor: Option<WorkerId>) | Joining(temp: WorkerId, next: Option<WorkerId>)
    | WaitingAll

  datatype Holder = Main | Of(worker: WorkerId)

  datatype State = State(
    kind: Kind, limit: nat, permits: nat, issued: nat, executed: nat,
    mutex: Option<Holder>, listMutex: Option<Holder>, head: Option<WorkerId>,
    workers: seq<Worker>, main: MainPc)

  datatype Event = CallExecute | CallWait | MainStep | WorkerStep(worker: WorkerId) | SpuriousWake

  function Start(kind: Kind, limit: nat): State {
    State(kind, limit, limit, 0, 0, None, None, None, [], Outside)
  }

  /***** Workers *****/

  /** How many steps the worker has left. */
  function Rank(kind: Kind, pc: WorkerPc): nat {
    match pc
    case Run => if kind.ThreadPerRequest? then 10 else 6
    case ListLock => 9
    case SetLink => 8
    case SetHead => 7
    case ListUnlock => 6
    case PermitLock => if kind.ThreadPerRequest? then 5 else 4
    case Increment => if kind.ThreadPerRequest? then 4 else 3
    case Signal => if kind.ThreadPerRequest? then 3 else 2
    case PermitUnlock => if kind.ThreadPerRequest? then 2 else 1
    case Count => if kind.ThreadPerRequest? then 1 else 5
    case Exited => 0
  }

  /** A thread counts the request as executed at the end, a process before it gives its permit back. */
  function Next(kind: Kind, pc: WorkerPc): WorkerPc {
    match pc
    case Run => if kind.ThreadPerRequest? then ListLock else Count
    case ListLock => SetLink
    case SetLink => SetHead
    case SetHead => ListUnlock
    case ListUnlock => PermitLock
    case PermitLock => Increment
    case Increment => Signal
    case Signal => PermitUnlock
    case PermitUnlock => if kind.ThreadPerRequest? then Count else Exited
    case Count => if kind.ThreadPerRequest? then Exited else PermitLock
    case Exited => Exited
  }

  predicate HasListMutex(pc: WorkerPc) {
    pc.SetLink? || pc.SetHead? || pc.ListUnlock?
  }

  predicate HasMutex(pc: WorkerPc) {
    pc.Increment? || pc.Signal? || pc.PermitUnlock?
  }

  /** Of this launcher's kind: processes have no list. */
  predicate PcOk(kind: Kind, pc: WorkerPc) {
    kind.ProcessPerRequest? ==> !pc.ListLock? && !HasListMutex(pc)
  }

  predicate WorkerCanStep(s: State, w: WorkerId) {
    && w < |s.workers|
    && match s.workers[w].pc
       case ListLock => s.listMutex.None?
       case PermitLock => s.mutex.None?
       case Exited => false
       case _ => true
  }

  /** The worker's own part of its step. */
  function StepWorker(kind: Kind, x: Worker, head: Option<WorkerId>): Worker {
    Worker(Next(kind, x.pc), if x.pc.SetLink? then head else x.link, x.freed)
  }

  function AfterWorker(s: State, w: WorkerId): State
    requires WorkerCanStep(s, w)
  {
    var x := s.workers[w];
    var s' := s.(workers := s.workers[w := StepWorker(s.kind, x, s.head)]);
    match x.pc
    case ListLock => s'.(listMutex := Some(Of(w)))
    case SetHead => s'.(head := Some(w))
    case ListUnlock => s'.(listMutex := None)
    case PermitLock => s'.(mutex := Some(Of(w)))
    case Increment => s'.(permits := s.permits + 1)
    case Signal => s'.(main := if s.main.Sleeping? then Acquiring else s.main)
    case PermitUnlock => s'.(mutex := None)
    case Count => s'.(executed := s.executed + 1)
    case _ => s'
  }

  /***** The launcher thread *****/

  predicate MainCanStep(s: State) {
    match s.main
    case Outside => false
    case Acquiring => s.mutex.None?
    case Sleeping => false
    case AcquiringList => s.listMutex.None?
    case Reaping(cursor) => cursor.Some? ==> cursor.value < |s.workers|
    case Joining(temp, _) => temp < |s.workers| && s.workers[temp].pc.Exited?
    case WaitingAll => s.executed == s.issued
    case _ => true
  }

  /** Waiting on the condition variable releases the mutex and goes to sleep in one step. */
  function AfterMain(s: State): State
    requires MainCanStep(s)
  {
    match s.main
    case Spawning => s.(workers := s.workers + [Worker(Run, None, false)], main := Acquiring)
    case Acquiring => s.(mutex := Some(Main), main := Checking)
    case Checking =>
      if s.permits <= 0 then s.(mutex := None, main := Sleeping)
      else s.(permits := s.permits - 1, main := Releasing)
    case Releasing => s.(mutex := None, main := if s.kind.ThreadPerRequest? then AcquiringList else Outside)
    case AcquiringList => s.(listMutex := Some(Main), main := Taking)
    case Taking => s.(head := None, main := ReleasingList(s.head))
    case ReleasingList(cursor) => s.(listMutex := None, main := Reaping(cursor))
    case Reaping(cursor) =>
      s.(main := if cursor.None? then Outside else Joining(cursor.value, s.workers[cursor.value].link))
    case Joining(temp, next) =>
      s.(workers := s.workers[temp := s.workers[temp].(freed := true)], main := Reaping(next))
    case WaitingAll => s.(main := Outside)
    case _ => s
  }

  /***** Steps and runs *****/

  predicate Enabled(s: State, e: Event) {
    match e
    case CallExecute => s.main.Outside?
    case CallWait => s.main.Outside?
    case MainStep => MainCanStep(s)
    case WorkerStep(w) => WorkerCanStep(s, w)
    case SpuriousWake => s.main.Sleeping?
  }

  function Step(s: State, e: Event): State
    requires Enabled(s, e)
  {
    match e
    case CallExecute => s.(issued := s.issued + 1, main := Spawning)
    case CallWait => s.(main := WaitingAll)
    case MainStep => AfterMain(s)
    case WorkerStep(w) => AfterWorker(s, w)
    case SpuriousWake => s.(main := Acquiring)
  }

  predicate Legal(s: State, es: seq<Event>)
    decreases |es|
  {
    es == [] || (Enabled(s, es[0]) && Legal(Step(s, es[0]), es[1..]))
  }

  function RunAll(s: State, es: seq<Event>): State
    requires Legal(s, es)
    decreases |es|
  {
    if es == [] then s else RunAll(Step(s, es[0]), es[1..])
  }

  ghost predicate Reaches(kind: Kind, limit: nat, es: seq<Event>, s: State) {
    Legal(Start(kind, limit), es) && s == RunAll(Start(kind, limit), es)
  }
}

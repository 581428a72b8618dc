/**
 * The thread pool: one queue and one worker for each thread, clients that add tasks to any
 * queue, and the destructor, which stops the workers after they have drained their queues.
 */
module ThreadPool {

  type Task = nat
  type ThreadId = nat

  /***** The queue *****/

  /** A queue whose operations are critical sections; TryLock's outcome is a parameter. */
  class AtomicQueue<T(0)> {
    var items: seq<T>

    constructor ()
      ensures items == []
    {
      items := [];
    }

    method Size() returns (n: nat)
      ensures n == |items|
    {
      n := |items|;
    }

    method Push(item: T)
      modifies this
      ensures items == old(items) + [item]
    {
      items := items + [item];
    }

    method Pop() returns (popped: bool, result: T)
      modifies this
      ensures popped <==> old(items) != []
      ensures popped ==> old(items) == [result] + items
      ensures !popped ==> items == old(items)
    {
      popped := items != [];
      result := *;
      if popped {
        result := items[0];
        items := items[1..];
      }
    }

    method PushNonBlocking(item: T, acquired: bool) returns (pushed: bool)
      modifies this
      ensures pushed <==> acquired
      ensures items == if pushed then old(items) + [item] else old(items)
    {
      pushed := acquired;
      if pushed {
        items := items + [item];
      }
    }

    method PopNonBlocking(acquired: bool) returns (popped: bool, result: T)
      modifies this
      ensures popped <==> acquired && old(items) != []
      ensures popped ==> old(items) == [result] + items
      ensures !popped ==> items == old(items)
    {
      popped := false;
      result := *;
      if acquired {
        popped, result := Pop();
      }
    }
  }

  /***** The pool *****/

  /** Where a worker is in its loop; draining follows once it has seen that the pool is stopped. */
  datatype Worker = Trying | Running(task: Task) | CheckingStop | Draining | DrainRunning(task: Task) | Exited

  /** `adding` holds the tasks of AddTask calls that have passed their assertion and not yet pushed. */
  datatype State = State(queues: seq<seq<Task>>, workers: seq<Worker>, adding: seq<Task>, stopped: bool,
                         ran: seq<seq<Task>>)

  datatype Event =
    | CallAdd(task: Task)               // AddTask asserts that the pool is not stopped
    | Push(i: nat, queue: ThreadId)     // one of its attempts succeeds
    | Stop                              // the destructor
    | PopTask(worker: ThreadId)         // PopNonBlocking succeeds
    | PopNothing(worker: ThreadId)      // it fails: the queue is empty or its mutex is taken
    | Finish(worker: ThreadId)          // the task returns
    | CheckStop(worker: ThreadId)
    | Drain(worker: ThreadId)           // the blocking Pop

  function Start(threads: nat): State {
    State(seq(threads, _ => []), seq(threads, _ => Trying), [], false, seq(threads, _ => []))
  }

  predicate Shape(s: State) {
    |s.queues| == |s.workers| == |s.ran|
  }

  predicate Enabled(s: State, e: Event) {
    && Shape(s)
    && match e
       case CallAdd(_) => !s.stopped
       case Push(i, q) => i < |s.adding| && q < |s.queues|
       case Stop => !s.stopped
       case PopTask(w) => w < |s.workers| && s.workers[w].Trying? && s.queues[w] != []
       case PopNothing(w) => w < |s.workers| && s.workers[w].Trying?
       case Finish(w) => w < |s.workers| && (s.workers[w].Running? || s.workers[w].DrainRunning?)
       case CheckStop(w) => w < |s.workers| && s.workers[w].CheckingStop?
       case Drain(w) => w < |s.workers| && s.workers[w].Draining?
  }

  function SetWorker(s: State, w: ThreadId, x: Worker): State
    requires w < |s.workers|
  {
    s.(workers := s.workers[w := x])
  }

  function Step(s: State, e: Event): State
    requires Enabled(s, e)
  {
    match e
    case CallAdd(task) => s.(adding := s.adding + [task])
    case Push(i, q) =>
      s.(queues := s.queues[q := s.queues[q] + [s.adding[i]]], adding := s.adding[..i] + s.adding[i + 1..])
    case Stop => s.(stopped := true)
    case PopTask(w) => SetWorker(s, w, Running(s.queues[w][0])).(queues := s.queues[w := s.queues[w][1..]])
    case PopNothing(w) => SetWorker(s, w, CheckingStop)
    case Finish(w) =>
      SetWorker(s, w, if s.workers[w].Running? then CheckingStop else Draining).(
        ran := s.ran[w := s.ran[w] + [s.workers[w].task]])
    case CheckStop(w) => SetWorker(s, w, if s.stopped then Draining else Trying)
    case Drain(w) =>
      if s.queues[w] == [] then SetWorker(s, w, Exited)
      else SetWorker(s, w, DrainRunning(s.queues[w][0])).(queues := s.queues[w := s.queues[w][1..]])
  }

  predicate Legal(s: State, es: seq<Event>)
    decreases |es|
  {
    es == [] || (Enabled(s, es[0]) && Legal(Step(s, es[0]), es[1..]))
  }

  function Run(s: State, es: seq<Event>): State
    requires Legal(s, es)
    decreases |es|
  {
    if es == [] then s else Run(Step(s, es[0]), es[1..])
  }

  /***** Conservation *****/

  /** The tasks pushed on queue q in a run, in order. */
  function Pushed(s: State, es: seq<Event>, q: ThreadId): seq<Task>
    requires Legal(s, es)
    decreases |es|
  {
    if es == [] then []
    else
      (if es[0].Push? && es[0].queue == q then [s.adding[es[0].i]] else []) + Pushed(Step(s, es[0]), es[1..], q)
  }

  function Current(x: Worker): seq<Task> {
    if x.Running? || x.DrainRunning? then [x.task] else []
  }

  /** What worker q has run, is running, and has queued. */
  function Tasks(s: State, q: ThreadId): seq<Task>
    requires Shape(s) && q < |s.queues|
  {
    s.ran[q] + Current(s.workers[q]) + s.queues[q]
  }

  lemma StepTasks(s: State, e: Event, q: ThreadId)
    requires Enabled(s, e) && q < |s.queues|
    ensures Shape(Step(s, e)) && |Step(s, e).queues| == |s.queues|
    ensures Tasks(Step(s, e), q) == Tasks(s, q) + if e.Push? && e.queue == q then [s.adding[e.i]] else []
  {
    if (e.PopTask? || e.Drain?) && e.worker == q && s.queues[q] != [] {
      assert s.queues[q] == [s.queues[q][0]] + s.queues[q][1..];
    }
  }

  /**
   * No task is lost, repeated or overtaken: at any moment the tasks pushed on a queue are, in
   * the order pushed, those its worker has run, the one it is running, and those still queued.
   */
  lemma {:induction false} TasksConserved(s: State, es: seq<Event>, q: ThreadId)
    requires Shape(s) && Legal(s, es) && q < |s.queues|
    ensures Shape(Run(s, es)) && |Run(s, es).queues| == |s.queues|
    ensures Tasks(Run(s, es), q) == Tasks(s, q) + Pushed(s, es, q)
    decreases |es|
  {
    if es != [] {
      StepTasks(s, es[0], q);
      TasksConserved(Step(s, es[0]), es[1..], q);
    }
  }

  /***** Adding and pushing *****/

  function AddCalls(es: seq<Event>): multiset<Task> {
    if es == [] then multiset{}
    else (if es[0].CallAdd? then multiset{es[0].task} else multiset{}) + AddCalls(es[1..])
  }

  function PushedAnywhere(s: State, es: seq<Event>): multiset<Task>
    requires Legal(s, es)
    decreases |es|
  {
    if es == [] then multiset{}
    else (if es[0].Push? then multiset{s.adding[es[0].i]} else multiset{}) + PushedAnywhere(Step(s, es[0]), es[1..])
  }

  lemma RemoveOne(a: seq<Task>, i: nat)
    requires i < |a|
    ensures multiset(a[..i] + a[i + 1..]) + multiset{a[i]} == multiset(a)
  {
    assert a == a[..i] + [a[i]] + a[i + 1..];
  }

  /** Every task given to AddTask is pushed once, or its call is still trying. */
  lemma {:induction false} AddsArePushed(s: State, es: seq<Event>)
    requires Legal(s, es)
    ensures multiset(s.adding) + AddCalls(es) == PushedAnywhere(s, es) + multiset(Run(s, es).adding)
    decreases |es|
  {
    if es != [] {
      var e, s1 := es[0], Step(s, es[0]);
      AddsArePushed(s1, es[1..]);
      var added := if e.CallAdd? then multiset{e.task} else multiset{};
      var pushed := if e.Push? then multiset{s.adding[e.i]} else multiset{};
      StepAdding(s, e);
      assert multiset(s.adding) + (added + AddCalls(es[1..])) == pushed + (multiset(s1.adding) + AddCalls(es[1..]));
    }
  }

  lemma StepAdding(s: State, e: Event)
    requires Enabled(s, e)
    ensures multiset(s.adding) + (if e.CallAdd? then multiset{e.task} else multiset{}) ==
            (if e.Push? then multiset{s.adding[e.i]} else multiset{}) + multiset(Step(s, e).adding)
  {
    if e.Push? {
      RemoveOne(s.adding, e.i);
    } else if e.CallAdd? {
      assert multiset(s.adding + [e.task]) == multiset(s.adding) + multiset{e.task};
    }
  }

  /***** The drain *****/

  predicate StopsWithNothingAdding(s: State, es: seq<Event>)
    requires Legal(s, es)
    decreases |es|
  {
    es == [] || ((es[0].Stop? ==> s.adding == []) && StopsWithNothingAdding(Step(s, es[0]), es[1..]))
  }

  /** Once stopped nothing is being added, and an exited worker's queue is empty. */
  ghost predicate DrainOk(s: State) {
    && Shape(s)
    && (s.stopped ==> s.adding == [])
    && (forall w :: 0 <= w < |s.workers| && (s.workers[w].Draining? || s.workers[w].DrainRunning?) ==> s.stopped)
    && (forall w :: 0 <= w < |s.workers| && s.workers[w].Exited? ==> s.stopped && s.queues[w] == [])
  }

  lemma StepKeepsDrain(s: State, e: Event)
    requires Enabled(s, e) && DrainOk(s) && (e.Stop? ==> s.adding == [])
    ensures DrainOk(Step(s, e))
  {
  }

  lemma {:induction false} RunKeepsDrain(s: State, es: seq<Event>)
    requires Legal(s, es) && DrainOk(s) && StopsWithNothingAdding(s, es)
    ensures DrainOk(Run(s, es))
    decreases |es|
  {
    if es != [] {
      StepKeepsDrain(s, es[0]);
      RunKeepsDrain(Step(s, es[0]), es[1..]);
    }
  }

  predicate AllExited(s: State) {
    forall w :: 0 <= w < |s.workers| ==> s.workers[w].Exited?
  }

  /**
   * If no AddTask is under way at the stop, then once all workers have exited, though each
   * drains only its own queue, every task pushed has been run exactly once, and each queue's
   * in the order pushed.
   */
  lemma DrainRunsAll(threads: nat, es: seq<Event>, q: ThreadId)
    requires Legal(Start(threads), es) && StopsWithNothingAdding(Start(threads), es) && q < threads
    requires AllExited(Run(Start(threads), es))
    ensures var s := Run(Start(threads), es);
            && q < |s.ran| && s.ran[q] == Pushed(Start(threads), es, q)
            && (s.adding == [])
            && PushedAnywhere(Start(threads), es) == AddCalls(es)
  {
    hide Enabled, Step;
    var s := Run(Start(threads), es);
    RunKeepsDrain(Start(threads), es);
    TasksConserved(Start(threads), es, q);
    AddsArePushed(Start(threads), es);
    assert s.workers[q].Exited?;
    assert Tasks(Start(threads), q) == [];
    assert Tasks(s, q) == s.ran[q];
    assert s.adding == [] && Start(threads).adding == [];
    assert multiset(s.adding) == multiset{};
    assert PushedAnywhere(Start(threads), es) + multiset{} == PushedAnywhere(Start(threads), es);
    assert multiset{} + AddCalls(es) == AddCalls(es);
  }

  /** The tasks pushed on queue q when its worker has already gone. */
  function Late(s: State, es: seq<Event>, q: ThreadId): seq<Task>
    requires Legal(s, es)
    decreases |es|
  {
    if es == [] then []
    else
      var late := es[0].Push? && es[0].queue == q && s.workers[q].Exited?;
      (if late then [s.adding[es[0].i]] else []) + Late(Step(s, es[0]), es[1..], q)
  }

  lemma StepAfterExit(s: State, e: Event, q: ThreadId)
    requires Enabled(s, e) && q < |s.queues|
    ensures Shape(Step(s, e)) && |Step(s, e).queues| == |s.queues|
    ensures s.workers[q].Exited? ==>
              && Step(s, e).workers[q].Exited?
              && Step(s, e).queues[q] == s.queues[q] + if e.Push? && e.queue == q then [s.adding[e.i]] else []
    ensures !s.workers[q].Exited? && Step(s, e).workers[q].Exited? ==> Step(s, e).queues[q] == []
  {
  }

  lemma {:induction false} LateStay(s: State, es: seq<Event>, q: ThreadId)
    requires Shape(s) && Legal(s, es) && q < |s.queues|
    ensures Shape(Run(s, es)) && |Run(s, es).queues| == |s.queues|
    ensures Run(s, es).workers[q].Exited? ==>
              Run(s, es).queues[q] == (if s.workers[q].Exited? then s.queues[q] else []) + Late(s, es, q)
    decreases |es|
  {
    if es != [] {
      StepAfterExit(s, es[0], q);
      LateStay(Step(s, es[0]), es[1..], q);
    }
  }

  /**
   * In general a task is lost exactly when it is pushed after the queue's worker has exited:
   * once all have exited, the tasks run and those pushed late make up all that were pushed.
   */
  lemma LostAreLate(threads: nat, es: seq<Event>, q: ThreadId)
    requires Legal(Start(threads), es) && q < threads && AllExited(Run(Start(threads), es))
    ensures var s := Run(Start(threads), es);
            && q < |s.ran| == |s.queues| && s.queues[q] == Late(Start(threads), es, q)
            && Pushed(Start(threads), es, q) == s.ran[q] + Late(Start(threads), es, q)
            && (s.ran[q] == Pushed(Start(threads), es, q) <==> Late(Start(threads), es, q) == [])
  {
    TasksConserved(Start(threads), es, q);
    LateStay(Start(threads), es, q);
    var s, late := Run(Start(threads), es), Late(Start(threads), es, q);
    assert s.workers[q].Exited?;
    assert Tasks(Start(threads), q) == [] && Tasks(s, q) == s.ran[q] + s.queues[q];
    assert [] + late == late && [] + Pushed(Start(threads), es, q) == Pushed(Start(threads), es, q);
    assert late == [] ==> s.ran[q] + late == s.ran[q];
  }

  /***** The workers exit *****/

  /** What a worker has still to do once the pool is stopped, apart from its queue. */
  function Rank(x: Worker): nat {
    match x
    case Trying => 3
    case Running(_) => 3
    case CheckingStop => 2
    case DrainRunning(_) => 2
    case Draining => 1
    case Exited => 0
  }

  /** The work of the first n workers and their queues. */
  function QueueWork(s: State, n: nat): nat
    requires Shape(s) && n <= |s.queues|
  {
    if n == 0 then 0 else QueueWork(s, n - 1) + 2 * |s.queues[n - 1]| + Rank(s.workers[n - 1])
  }

  function Work(s: State): nat
    requires Shape(s)
  {
    3 * |s.adding| + QueueWork(s, |s.queues|)
  }

  /** A change of one worker and its queue changes the work by their own. */
  lemma {:induction false} QueueWorkUpdate(s: State, s': State, q: ThreadId, n: nat)
    requires Shape(s) && Shape(s') && q < |s.queues| == |s'.queues| && n <= |s.queues|
    requires forall w :: 0 <= w < n && w != q ==> s'.queues[w] == s.queues[w] && s'.workers[w] == s.workers[w]
    ensures q < n ==>
              QueueWork(s', n) + 2 * |s.queues[q]| + Rank(s.workers[q]) ==
              QueueWork(s, n) + 2 * |s'.queues[q]| + Rank(s'.workers[q])
    ensures n <= q ==> QueueWork(s', n) == QueueWork(s, n)
  {
    if 0 < n {
      QueueWorkUpdate(s, s', q, n - 1);
    }
  }

  /** Once the pool is stopped every step uses up some of the work, a failed TryLock too. */
  lemma StoppedStepWorks(s: State, e: Event)
    requires Enabled(s, e) && s.stopped
    ensures Step(s, e).stopped && Shape(Step(s, e)) && Work(Step(s, e)) < Work(s)
  {
    var s', q := Step(s, e), if e.Push? then e.queue else e.worker;
    QueueWorkUpdate(s, s', q, |s.queues|);
  }

  lemma WorkerMoves(s: State) returns (e: Event)
    requires Shape(s) && !AllExited(s)
    ensures Enabled(s, e) && !e.CallAdd? && !e.Stop?
    ensures Step(s, e).adding == s.adding && |Step(s, e).queues| == |s.queues|
  {
    var w :| 0 <= w < |s.workers| && !s.workers[w].Exited?;
    match s.workers[w]
    case Trying => e := PopNothing(w);
    case CheckingStop => e := CheckStop(w);
    case Draining => e := Drain(w);
    case Running(_) => e := Finish(w);
    case DrainRunning(_) => e := Finish(w);
  }

  lemma SomeoneMoves(s: State) returns (e: Event)
    requires Shape(s) && !(AllExited(s) && (s.adding == [] || s.queues == []))
    ensures Enabled(s, e) && !e.CallAdd? && !e.Stop?
  {
    if s.adding != [] && s.queues != [] {
      e := Push(0, 0);
    } else {
      e := WorkerMoves(s);
    }
  }

  lemma {:induction false} StoppedRunWorks(s: State, es: seq<Event>)
    requires Shape(s) && s.stopped && Legal(s, es)
    ensures Run(s, es).stopped && Shape(Run(s, es)) && |es| + Work(Run(s, es)) <= Work(s)
    decreases |es|
  {
    if es != [] {
      StoppedStepWorks(s, es[0]);
      StoppedRunWorks(Step(s, es[0]), es[1..]);
    }
  }

  /**
   * The workers do exit, and the destructor returns: after the stop a run has no more steps
   * than three for each task being added, two for each one queued and three for each worker,
   * and it can go on until all workers have exited and all tasks being added been pushed.
   */
  lemma WorkersExit(s: State, es: seq<Event>)
    requires Shape(s) && s.stopped && Legal(s, es)
    ensures Shape(Run(s, es)) && |es| + Work(Run(s, es)) <= Work(s)
    ensures (exists e :: Enabled(Run(s, es), e)) <==>
            !(AllExited(Run(s, es)) && (Run(s, es).adding == [] || Run(s, es).queues == []))
  {
    StoppedRunWorks(s, es);
    var s' := Run(s, es);
    if !(AllExited(s') && (s'.adding == [] || s'.queues == [])) {
      var e := SomeoneMoves(s');
    }
  }

  /***** When it is safe to stop *****/

  lemma {:induction false} RunInTurn(s: State, es: seq<Event>, more: seq<Event>)
    requires Legal(s, es) && Legal(Run(s, es), more)
    ensures Legal(s, es + more) && Run(s, es + more) == Run(Run(s, es), more)
    decreases |es|
  {
    hide Enabled, Step;
    if es == [] {
      assert es + more == more;
    } else {
      RunInTurn(Step(s, es[0]), es[1..], more);
      assert (es + more)[1..] == es[1..] + more;
    }
  }

  /** A pool not stopped at the end of a run has not been stopped in it; a stopped one is not stopped again. */
  lemma {:induction false} StopsOnce(s: State, es: seq<Event>)
    requires Shape(s) && Legal(s, es) && (s.stopped || !Run(s, es).stopped)
    ensures StopsWithNothingAdding(s, es)
    decreases |es|
  {
    if es != [] {
      if es[0].Stop? {
        StoppedRunWorks(Step(s, es[0]), es[1..]);
      }
      StopsOnce(Step(s, es[0]), es[1..]);
    }
  }

  /** The workers of a stopped pool can all exit before any task still being added is pushed. */
  lemma {:induction false} ExitFirst(s: State) returns (es: seq<Event>)
    requires Shape(s) && s.stopped
    ensures Legal(s, es) && AllExited(Run(s, es)) && Shape(Run(s, es))
    ensures Run(s, es).adding == s.adding && |Run(s, es).queues| == |s.queues| && Run(s, es).stopped
    decreases Work(s)
  {
    if AllExited(s) {
      es := [];
    } else {
      var e := WorkerMoves(s);
      StoppedStepWorks(s, e);
      var rest := ExitFirst(Step(s, e));
      es := [e] + rest;
      assert es[1..] == rest;
    }
  }

  /** All tasks being added go to the first queue. */
  lemma {:induction false} PushAll(s: State) returns (es: seq<Event>)
    requires Shape(s) && 0 < |s.queues|
    ensures Legal(s, es) && Run(s, es).adding == [] && Run(s, es).workers == s.workers
    ensures |Run(s, es).queues| == |s.queues| && |s.queues[0]| + |s.adding| == |Run(s, es).queues[0]|
    decreases |s.adding|
  {
    if s.adding == [] {
      es := [];
    } else {
      var rest := PushAll(Step(s, Push(0, 0)));
      es := [Push(0, 0)] + rest;
      assert es[1..] == rest;
    }
  }

  /** Once all workers have exited and nothing is being added, nothing is left in a queue. */
  ghost predicate LeavesNothing(s: State, more: seq<Event>)
    requires Legal(s, more)
  {
    AllExited(Run(s, more)) && Run(s, more).adding == [] ==>
      forall q :: 0 <= q < |Run(s, more).queues| ==> Run(s, more).queues[q] == []
  }

  /**
   * It is safe to stop the pool exactly while no AddTask is under way: then, and only then,
   * no continuation leaves a task behind in a queue whose worker has gone.
   */
  lemma StopSafeIff(threads: nat, es: seq<Event>)
    requires 0 < threads && Legal(Start(threads), es) && !Run(Start(threads), es).stopped
    ensures Enabled(Run(Start(threads), es), Stop)
    ensures var s := Step(Run(Start(threads), es), Stop);
            (forall more :: Legal(s, more) ==> LeavesNothing(s, more)) <==> Run(Start(threads), es).adding == []
  {
    var before := Run(Start(threads), es);
    StopsOnce(Start(threads), es);
    RunKeepsDrain(Start(threads), es);
    LateStay(Start(threads), es, 0);
    var s := Step(before, Stop);
    if before.adding == [] {
      StepKeepsDrain(before, Stop);
      forall more | Legal(s, more)
        ensures LeavesNothing(s, more)
      {
        StopsOnce(s, more);
        RunKeepsDrain(s, more);
      }
    } else {
      var more := LosingRun(s);
    }
  }

  /***** A pool that has not been stopped runs its tasks *****/

  /** A step of the pool that gets on with its tasks: no new call, no stop, no pop that fails. */
  predicate Busy(e: Event) {
    e.Push? || e.PopTask? || e.Finish? || e.CheckStop?
  }

  /** The steps a worker that is not stopped still takes before its next pop. */
  function Unfinished(x: Worker): nat {
    match x
    case Running(_) => 2
    case CheckingStop => 1
    case _ => 0
  }

  /** Three steps for each task in one of the first n queues, and what their workers are at. */
  function QueueTodo(s: State, n: nat): nat
    requires Shape(s) && n <= |s.queues|
  {
    if n == 0 then 0 else QueueTodo(s, n - 1) + 3 * |s.queues[n - 1]| + Unfinished(s.workers[n - 1])
  }

  /** And four for each task still to be pushed. */
  function Todo(s: State): nat
    requires Shape(s)
  {
    4 * |s.adding| + QueueTodo(s, |s.queues|)
  }

  lemma {:induction false} QueueTodoUpdate(s: State, s': State, q: ThreadId, n: nat)
    requires Shape(s) && Shape(s') && q < |s.queues| == |s'.queues| && n <= |s.queues|
    requires forall w :: 0 <= w < n && w != q ==> s'.queues[w] == s.queues[w] && s'.workers[w] == s.workers[w]
    ensures q < n ==>
              QueueTodo(s', n) + 3 * |s.queues[q]| + Unfinished(s.workers[q]) ==
              QueueTodo(s, n) + 3 * |s'.queues[q]| + Unfinished(s'.workers[q])
    ensures n <= q ==> QueueTodo(s', n) == QueueTodo(s, n)
  {
    if 0 < n {
      QueueTodoUpdate(s, s', q, n - 1);
    }
  }

  lemma BusyStep(s: State, e: Event)
    requires DrainOk(s) && !s.stopped && Enabled(s, e) && Busy(e)
    ensures var s' := Step(s, e);
            DrainOk(s') && !s'.stopped && |s'.queues| == |s.queues| && Todo(s') == Todo(s) - 1
  {
    var s', q := Step(s, e), if e.Push? then e.queue else e.worker;
    StepKeepsDrain(s, e);
    QueueTodoUpdate(s, s', q, |s.queues|);
  }

  /** Every run of such steps takes exactly as many as it gets done. */
  lemma {:induction false} BusyRun(s: State, es: seq<Event>)
    requires DrainOk(s) && !s.stopped && Legal(s, es) && forall e :: e in es ==> Busy(e)
    ensures var s' := Run(s, es);
            DrainOk(s') && !s'.stopped && |s'.queues| == |s.queues| && |es| + Todo(s') == Todo(s)
    decreases |es|
  {
    hide Enabled, Step, Todo;
    if es != [] {
      assert es[0] in es;
      BusyStep(s, es[0]);
      BusyRun(Step(s, es[0]), es[1..]);
    }
  }

  lemma {:induction false} NothingQueued(s: State, n: nat)
    requires Shape(s) && n <= |s.queues|
    ensures QueueTodo(s, n) == 0 <==>
            forall w :: 0 <= w < n ==> s.queues[w] == [] && Unfinished(s.workers[w]) == 0
  {
    if 0 < n {
      NothingQueued(s, n - 1);
    }
  }

  /** Nothing is left to do exactly when nothing is being added, queued or run. */
  lemma TodoNone(s: State)
    requires DrainOk(s) && !s.stopped
    ensures Todo(s) == 0 <==>
            s.adding == [] && forall w :: 0 <= w < |s.queues| ==> s.queues[w] == [] && s.workers[w] == Trying
  {
    NothingQueued(s, |s.queues|);
    assert forall w :: 0 <= w < |s.queues| && Unfinished(s.workers[w]) == 0 ==> s.workers[w] == Trying;
  }

  lemma BusyMove(s: State) returns (e: Event)
    requires DrainOk(s) && !s.stopped && 0 < |s.queues| && 0 < Todo(s)
    ensures Enabled(s, e) && Busy(e)
  {
    TodoNone(s);
    if s.adding != [] {
      e := Push(0, 0);
    } else {
      var w :| 0 <= w < |s.queues| && !(s.queues[w] == [] && s.workers[w] == Trying);
      e := if s.workers[w].Running? then Finish(w) else if s.workers[w].CheckingStop? then CheckStop(w) else PopTask(w);
    }
  }

  lemma {:induction false} BusyRunOn(s: State) returns (es: seq<Event>)
    requires DrainOk(s) && !s.stopped && 0 < |s.queues|
    ensures Legal(s, es) && |es| == Todo(s) && forall e :: e in es ==> Busy(e)
    decreases Todo(s)
  {
    hide Enabled, Step, Busy;
    if Todo(s) == 0 {
      es := [];
    } else {
      var e := BusyMove(s);
      BusyStep(s, e);
      var rest := BusyRunOn(Step(s, e));
      es := [e] + rest;
      assert es[1..] == rest;
    }
  }

  /**
   * From every state of a pool that has not been stopped, a run of pushes, pops, tasks and
   * checks, with no new call and no failed pop, has at most Todo steps, and it has that many
   * exactly when every task added has been pushed, and every task pushed been run and its
   * worker is back at its queue.
   */
  lemma BusyRunsEnd(threads: nat, es: seq<Event>, more: seq<Event>)
    requires Legal(Start(threads), es) && !Run(Start(threads), es).stopped
    requires Legal(Run(Start(threads), es), more) && forall e :: e in more ==> Busy(e)
    ensures Shape(Run(Start(threads), es)) && |more| <= Todo(Run(Start(threads), es))
    ensures var s := Run(Run(Start(threads), es), more);
            && Legal(Start(threads), es + more) && |s.ran| == |s.workers| == threads
            && (|more| == Todo(Run(Start(threads), es)) <==>
                  && s.adding == []
                  && (forall q :: 0 <= q < threads ==> s.ran[q] == Pushed(Start(threads), es + more, q))
                  && (forall w :: 0 <= w < threads ==> s.workers[w] == Trying))
  {
    hide Enabled, Step, Busy, Todo;
    var before := Run(Start(threads), es);
    UnstoppedOk(threads, es);
    BusyRun(before, more);
    RunInTurn(Start(threads), es, more);
    var s := Run(before, more);
    TodoNone(s);
    forall q | 0 <= q < threads
      ensures s.ran[q] == Pushed(Start(threads), es + more, q) <==> Current(s.workers[q]) + s.queues[q] == []
      ensures s.workers[q] == Trying ==> Current(s.workers[q]) == []
    {
      TasksConserved(Start(threads), es + more, q);
      RanAll(Pushed(Start(threads), es + more, q), s.ran[q], Current(s.workers[q]), s.queues[q]);
    }
  }

  lemma RanAll(pushed: seq<Task>, ran: seq<Task>, current: seq<Task>, queued: seq<Task>)
    requires [] + pushed == ran + current + queued
    ensures ran == pushed <==> current + queued == []
  {
    assert [] + pushed == pushed && |pushed| == |ran| + |current + queued|;
  }

  lemma UnstoppedOk(threads: nat, es: seq<Event>)
    requires Legal(Start(threads), es) && !Run(Start(threads), es).stopped
    ensures DrainOk(Run(Start(threads), es))
    ensures var s := Run(Start(threads), es);
            |s.queues| == |s.workers| == |s.ran| == threads
  {
    StopsOnce(Start(threads), es);
    RunKeepsDrain(Start(threads), es);
    SameThreads(Start(threads), es);
  }

  lemma {:induction false} SameThreads(s: State, es: seq<Event>)
    requires Shape(s) && Legal(s, es)
    ensures |Run(s, es).queues| == |s.queues|
    decreases |es|
  {
    if es != [] {
      SameThreads(Step(s, es[0]), es[1..]);
    }
  }

  /**
   * And there is such a run: as long as it has a thread and is not stopped, the pool can get
   * every task pushed and run, each queue's in the order pushed.
   */
  lemma PoolRunsAll(threads: nat, es: seq<Event>) returns (more: seq<Event>)
    requires 0 < threads && Legal(Start(threads), es) && !Run(Start(threads), es).stopped
    ensures Legal(Run(Start(threads), es), more) && forall e :: e in more ==> !e.CallAdd? && !e.Stop?
    ensures Legal(Start(threads), es + more)
    ensures Shape(Run(Start(threads), es)) && |more| == Todo(Run(Start(threads), es))
    ensures var s := Run(Start(threads), es + more);
            && s.adding == [] && |s.ran| == threads
            && forall q :: 0 <= q < threads ==> s.ran[q] == Pushed(Start(threads), es + more, q)
  {
    hide Enabled, Step, Todo;
    UnstoppedOk(threads, es);
    more := BusyRunOn(Run(Start(threads), es));
    BusyRunsEnd(threads, es, more);
    RunInTurn(Start(threads), es, more);
  }

  /** With an AddTask under way, the workers may all exit before it pushes its task. */
  lemma LosingRun(s: State) returns (more: seq<Event>)
    requires Shape(s) && s.stopped && 0 < |s.queues| && s.adding != []
    ensures Legal(s, more) && !LeavesNothing(s, more)
  {
    var es := ExitFirst(s);
    var rest := PushAll(Run(s, es));
    RunInTurn(s, es, rest);
    more := es + rest;
  }

  lemma {:induction false} RunOneMore(s: State, es: seq<Event>, e: Event)
    requires Legal(s, es) && Enabled(Run(s, es), e)
    ensures Legal(s, es + [e]) && Run(s, es + [e]) == Step(Run(s, es), e)
    decreases |es|
  {
    if es == [] {
      assert es + [e] == [e];
      assert Legal(Step(s, e), []);
    } else {
      RunOneMore(Step(s, es[0]), es[1..], e);
      assert (es + [e])[1..] == es[1..] + [e];
    }
  }

  /** An AddTask under way at the stop can push its task when its worker has gone. */
  lemma TaskLost() returns (es: seq<Event>)
    ensures Legal(Start(1), es)
    ensures var s := Run(Start(1), es);
            AllExited(s) && s.adding == [] && s.queues == [[7]] && s.ran == [[]]
  {
    assert Start(1) == State([[]], [Trying], [], false, [[]]);
    RunOneMore(Start(1), [], CallAdd(7));
    RunOneMore(Start(1), [] + [CallAdd(7)], Stop);
    var es2 := [] + [CallAdd(7)] + [Stop];
    RunOneMore(Start(1), es2, PopNothing(0));
    var es3 := es2 + [PopNothing(0)];
    RunOneMore(Start(1), es3, CheckStop(0));
    var es4 := es3 + [CheckStop(0)];
    RunOneMore(Start(1), es4, Drain(0));
    var es5 := es4 + [Drain(0)];
    RunOneMore(Start(1), es5, Push(0, 0));
    es := es5 + [Push(0, 0)];
  }
}

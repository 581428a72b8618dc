/** Neither launcher can be stuck, and every call's work is bounded. */
module LauncherProgress {
  import opened Base
  import opened Launchers
  import opened LauncherPermits
  import opened LauncherArgs

  /** A thread can take a step of its own accord. */
  ghost predicate CanMove(s: State) {
    MainCanStep(s) || exists w :: WorkerCanStep(s, w)
  }

  /** The launcher is in no call, and all workers have exited. */
  predicate Quiet(s: State) {
    s.main.Outside? && forall w :: 0 <= w < |s.workers| ==> s.workers[w].pc.Exited?
  }

  /** The owner of a mutex can always go on. */
  lemma HolderMoves(s: State)
    requires MutexOk(s) && ListMutexOk(s) && (s.mutex.Some? || s.listMutex.Some?)
    ensures CanMove(s)
  {
    var holder := if s.mutex.Some? then s.mutex.value else s.listMutex.value;
    if holder.Of? {
      assert IsHolder(if s.mutex.Some? then s.mutex else s.listMutex, holder.worker);
      assert WorkerCanStep(s, holder.worker);
    }
  }

  lemma UnexitedMoves(s: State, w: WorkerId)
    requires MutexOk(s) && ListMutexOk(s) && w < |s.workers| && !s.workers[w].pc.Exited?
    ensures CanMove(s)
  {
    if !WorkerCanStep(s, w) {
      HolderMoves(s);
    }
  }

  lemma ExitedTally(s: State, below: nat)
    requires 0 < below && forall w :: 0 <= w < |s.workers| ==> s.workers[w].pc.Exited?
    ensures Tally(s.kind, s.workers, below) == |s.workers|
  {
    TallyAll(s.kind, s.workers, below);
  }

  /** With all workers gone, the launcher itself can go on. */
  lemma MainMoves(s: State)
    requires Inv(s) && (s.kind.ThreadPerRequest? ==> SomeArgs(s)) && !s.main.Outside?
    requires forall w :: 0 <= w < |s.workers| ==> s.workers[w].pc.Exited?
    ensures CanMove(s)
  {
    ExitedTally(s, Rank(s.kind, Increment));
    ExitedTally(s, Rank(s.kind, Count));
    if s.main.Acquiring? || s.main.AcquiringList? {
      if !MainCanStep(s) {
        HolderMoves(s);
      }
    } else if s.kind.ThreadPerRequest? {
      var listed, detached :| ArgsOk(s, listed, detached);
      assert MainCanStep(s);
    }
  }

  lemma ReachedOk(kind: Kind, limit: nat, es: seq<Event>, s: State)
    requires Reaches(kind, limit, es, s)
    ensures Inv(s) && (s.kind.ThreadPerRequest? ==> SomeArgs(s))
  {
    ReachedInv(kind, limit, es, s);
    StartArgs(kind, limit);
    if kind.ThreadPerRequest? {
      RunKeepsArgs(Start(kind, limit), es);
    }
  }

  /** No deadlock: in every reachable state that is not quiet some thread can step. */
  lemma NeverStuck(kind: Kind, limit: nat, es: seq<Event>, s: State)
    requires Reaches(kind, limit, es, s) && !Quiet(s)
    ensures CanMove(s)
  {
    ReachedOk(kind, limit, es, s);
    SomeoneMoves(s);
  }

  lemma SomeoneMoves(s: State)
    requires Inv(s) && (s.kind.ThreadPerRequest? ==> SomeArgs(s)) && !Quiet(s)
    ensures CanMove(s)
  {
    if w :| 0 <= w < |s.workers| && !s.workers[w].pc.Exited? {
      UnexitedMoves(s, w);
    } else {
      MainMoves(s);
    }
  }

  /***** The measure *****/

  /** The worker's steps, and four more until its argument is freed. */
  function Work(kind: Kind, x: Worker): nat {
    Rank(kind, x.pc) + if x.freed then 0 else 4
  }

  function TotalWork(kind: Kind, workers: seq<Worker>): nat {
    if workers == [] then 0
    else TotalWork(kind, workers[..|workers| - 1]) + Work(kind, workers[|workers| - 1])
  }

  /** What the launcher has still to do in its call, apart from reaping. */
  function MainWork(main: MainPc, permits: nat): nat {
    match main
    case Outside => 0
    case WaitingAll => 1
    case Joining(_, _) => 1
    case Reaping(_) => 2
    case ReleasingList(_) => 3
    case Taking => 4
    case AcquiringList => 5
    case Releasing => 6
    case Checking => if 0 < permits then 7 else 10
    case Acquiring => if 0 < permits then 8 else 11
    case Sleeping => 9
    case Spawning => 26
  }

  function Measure(s: State): nat {
    TotalWork(s.kind, s.workers) + MainWork(s.main, s.permits)
  }

  lemma {:induction false} WorkUpdate(kind: Kind, workers: seq<Worker>, w: WorkerId, x: Worker)
    requires w < |workers|
    ensures TotalWork(kind, workers[w := x]) + Work(kind, workers[w]) == TotalWork(kind, workers) + Work(kind, x)
  {
    var last := |workers| - 1;
    if w < last {
      WorkUpdate(kind, workers[..last], w, x);
      assert workers[w := x][..last] == workers[..last][w := x];
    } else {
      assert workers[w := x][..last] == workers[..last];
    }
  }

  lemma WorkerDecreases(s: State, w: WorkerId)
    requires WorkerCanStep(s, w) && PcOk(s.kind, s.workers[w].pc) && SleepOk(s)
    ensures Measure(AfterWorker(s, w)) < Measure(s)
  {
    var x := StepWorker(s.kind, s.workers[w], s.head);
    assert AfterWorker(s, w).workers == s.workers[w := x];
    WorkUpdate(s.kind, s.workers, w, x);
    if s.workers[w].pc.Signal? {
      assert Signals(s.workers, w);
    }
  }

  lemma MainDecreases(s: State)
    requires MainCanStep(s) && (s.main.Joining? ==> s.main.temp < |s.workers| && !s.workers[s.main.temp].freed)
    ensures Measure(AfterMain(s)) < Measure(s)
  {
    match s.main
    case Spawning =>
      var x := Worker(Run, None, false);
      assert (s.workers + [x])[..|s.workers|] == s.workers;
    case Joining(temp, _) =>
      WorkUpdate(s.kind, s.workers, temp, s.workers[temp].(freed := true));
    case _ =>
  }

  /** Each step of a thread uses up some of the work. */
  lemma StepDecreases(s: State, e: Event)
    requires Inv(s) && (s.kind.ThreadPerRequest? ==> SomeArgs(s)) && Enabled(s, e)
    requires e.MainStep? || e.WorkerStep?
    ensures Measure(Step(s, e)) < Measure(s)
  {
    match e
    case MainStep =>
      if s.main.Joining? {
        var listed, detached :| ArgsOk(s, listed, detached);
        assert detached[0] in listed + detached;
      }
      MainDecreases(s);
    case WorkerStep(w) => WorkerDecreases(s, w);
  }

  /** The steps of the threads in a run. */
  function Steps(es: seq<Event>): nat {
    if es == [] then 0 else (if es[0].MainStep? || es[0].WorkerStep? then 1 else 0) + Steps(es[1..])
  }

  /** The work that the calls, and wake-ups for no reason, bring in. */
  function Brought(es: seq<Event>): nat {
    if es == [] then 0
    else (match es[0]
          case CallExecute => 26
          case CallWait => 1
          case SpuriousWake => 2
          case _ => 0) + Brought(es[1..])
  }

  lemma OtherStepMeasure(s: State, e: Event)
    requires Enabled(s, e) && !e.MainStep? && !e.WorkerStep?
    ensures Measure(Step(s, e)) <= Measure(s) + Brought([e])
  {
    assert [e][1..] == [];
  }

  /**
   * Every call returns: however the threads are interleaved, a run takes at most 26 steps for
   * each ExecuteRequest, one for each WaitOutstanding, and two for each spurious wake-up.
   */
  lemma {:induction false} WorkIsBounded(s: State, es: seq<Event>)
    requires Inv(s) && (s.kind.ThreadPerRequest? ==> SomeArgs(s)) && Legal(s, es)
    ensures Steps(es) + Measure(RunAll(s, es)) <= Measure(s) + Brought(es)
    decreases |es|
  {
    if es != [] {
      var e := es[0];
      StepKeepsInv(s, e);
      if s.kind.ThreadPerRequest? {
        StepKeepsSomeArgs(s, e);
      }
      WorkIsBounded(Step(s, e), es[1..]);
      if e.MainStep? || e.WorkerStep? {
        StepDecreases(s, e);
      } else {
        OtherStepMeasure(s, e);
        assert [e][1..] == [];
      }
    }
  }

  lemma RunsAreBounded(kind: Kind, limit: nat, es: seq<Event>, s: State)
    requires Reaches(kind, limit, es, s)
    ensures Steps(es) <= Brought(es)
  {
    StartArgs(kind, limit);
    WorkIsBounded(Start(kind, limit), es);
  }

  lemma {:induction false} GoOn(s: State) returns (es: seq<Event>)
    requires Inv(s) && (s.kind.ThreadPerRequest? ==> SomeArgs(s))
    ensures Legal(s, es) && |es| <= Measure(s) && Quiet(RunAll(s, es))
    ensures forall e :: e in es ==> e.MainStep? || e.WorkerStep?
    decreases Measure(s)
  {
    hide Inv, SomeArgs, Measure, Quiet;
    if Quiet(s) {
      es := [];
    } else {
      SomeoneMoves(s);
      var e := MainStep;
      if w :| WorkerCanStep(s, w) {
        e := WorkerStep(w);
      }
      StepKeepsInv(s, e);
      StepDecreases(s, e);
      if s.kind.ThreadPerRequest? {
        StepKeepsArgsToo(s, e);
      }
      KeepsKind(s, e);
      var rest := GoOn(Step(s, e));
      es := [e] + rest;
      assert es[1..] == rest;
    }
  }

  lemma StepKeepsArgsToo(s: State, e: Event)
    requires Inv(s) && s.kind.ThreadPerRequest? && SomeArgs(s) && Enabled(s, e)
    ensures SomeArgs(Step(s, e))
  {
    StepKeepsSomeArgs(s, e);
  }

  lemma KeepsKind(s: State, e: Event)
    requires Enabled(s, e)
    ensures Step(s, e).kind == s.kind
  {
  }

  /**
   * From every reachable state the threads can go on by themselves, within the work left, until
   * the call under way has returned and all workers have exited.
   */
  lemma CallsReturn(kind: Kind, limit: nat, es: seq<Event>, s: State) returns (more: seq<Event>)
    requires Reaches(kind, limit, es, s)
    ensures Legal(s, more) && |more| <= Measure(s) && Quiet(RunAll(s, more))
    ensures forall e :: e in more ==> e.MainStep? || e.WorkerStep?
  {
    ReachedOk(kind, limit, es, s);
    more := GoOn(s);
  }

  /**
   * A launcher that wakes up for no reason, nobody having the mutex, goes back to sleep and has
   * changed nothing, if there is still no permit; and else takes one.
   */
  lemma SpuriousWakeUp(s: State)
    requires s.main.Sleeping? && s.mutex.None?
    ensures var es := [SpuriousWake, MainStep, MainStep];
            && Legal(s, es)
            && RunAll(s, es) == if s.permits == 0 then s
                                else s.(permits := s.permits - 1, mutex := Some(Main), main := Releasing)
  {
    var es := [SpuriousWake, MainStep, MainStep];
    assert es[1..] == [MainStep, MainStep] && es[1..][1..] == [MainStep] && es[1..][1..][1..] == [];
    var s1 := Step(s, SpuriousWake);
    var s2 := Step(s1, MainStep);
    assert Legal(s2, [MainStep]) && RunAll(s2, [MainStep]) == Step(s2, MainStep);
    assert Legal(s1, [MainStep, MainStep]);
  }
}

/** Which arguments a thread launcher has joined and freed when a call of ExecuteRequest returns. */
module LauncherReaping {
  import opened Base
  import opened Launchers
  import opened LauncherPermits
  import opened LauncherArgs

  /** The call has still to take the list. */
  predicate StillToTake(main: MainPc) {
    || main.Spawning? || main.Acquiring? || main.Checking? || main.Sleeping? || main.Releasing?
    || main.AcquiringList? || main.Taking?
  }

  /** w has put its argument on the list. */
  predicate HasLinked(workers: seq<Worker>, w: WorkerId) {
    w < |workers| && Linked(workers[w].pc)
  }

  predicate Freed(workers: seq<Worker>, w: WorkerId) {
    w < |workers| && workers[w].freed
  }

  /***** What was on the list is freed *****/

  /** w's argument is freed, or will be on the launcher's way out of its call. */
  ghost predicate Reaped(s: State, listed: seq<WorkerId>, detached: seq<WorkerId>, w: WorkerId) {
    Freed(s.workers, w) || w in detached || (StillToTake(s.main) && w in listed)
  }

  lemma StepReaps(s: State, e: Event, listed: seq<WorkerId>, detached: seq<WorkerId>,
                  listed': seq<WorkerId>, detached': seq<WorkerId>, w: WorkerId)
    requires s.kind.ThreadPerRequest? && Enabled(s, e) && Reaped(s, listed, detached, w)
    requires ListsStep(s, e, listed, detached, listed', detached')
    ensures Reaped(Step(s, e), listed', detached', w)
  {
  }

  lemma {:induction false} RunReaps(s: State, es: seq<Event>, listed: seq<WorkerId>, detached: seq<WorkerId>, due: set<WorkerId>)
    returns (listed': seq<WorkerId>, detached': seq<WorkerId>)
    requires s.kind.ThreadPerRequest? && Inv(s) && Legal(s, es) && ArgsOk(s, listed, detached)
    requires forall w :: w in due ==> Reaped(s, listed, detached, w)
    ensures ArgsOk(RunAll(s, es), listed', detached')
    ensures forall w :: w in due ==> Reaped(RunAll(s, es), listed', detached', w)
    decreases |es|
  {
    hide Enabled, Step, ArgsOk, Reaped, ListsStep;
    listed', detached' := listed, detached;
    if es != [] {
      StepKeepsInv(s, es[0]);
      listed', detached' := StepKeepsArgs(s, es[0], listed, detached);
      forall w | w in due
        ensures Reaped(Step(s, es[0]), listed', detached', w)
      {
        StepReaps(s, es[0], listed, detached, listed', detached', w);
      }
      listed', detached' := RunReaps(Step(s, es[0]), es[1..], listed', detached', due);
    }
  }

  /***** Nothing else is *****/

  /** w's argument had been linked if it is freed, or will be on the launcher's way out of its call. */
  ghost predicate OnlyDue(s: State, listed: seq<WorkerId>, detached: seq<WorkerId>, due: set<WorkerId>) {
    && (StillToTake(s.main) ==> s.main.Taking?)
    && forall w :: Freed(s.workers, w) || w in detached || (s.main.Taking? && w in listed) ==> w in due
  }

  lemma StepReapsOnly(s: State, e: Event, listed: seq<WorkerId>, detached: seq<WorkerId>,
                      listed': seq<WorkerId>, detached': seq<WorkerId>, due: set<WorkerId>)
    requires ListMutexOk(s) && Enabled(s, e) && !e.CallExecute? && OnlyDue(s, listed, detached, due)
    requires ListsStep(s, e, listed, detached, listed', detached')
    ensures OnlyDue(Step(s, e), listed', detached', due)
  {
    if e.WorkerStep? && s.workers[e.worker].pc.SetHead? {
      assert IsHolder(s.listMutex, e.worker);
    }
  }

  lemma {:induction false} RunReapsOnly(s: State, es: seq<Event>, listed: seq<WorkerId>, detached: seq<WorkerId>, due: set<WorkerId>)
    returns (listed': seq<WorkerId>, detached': seq<WorkerId>)
    requires s.kind.ThreadPerRequest? && Inv(s) && Legal(s, es) && ArgsOk(s, listed, detached)
    requires OnlyDue(s, listed, detached, due) && forall e :: e in es ==> !e.CallExecute?
    ensures OnlyDue(RunAll(s, es), listed', detached', due)
    decreases |es|
  {
    hide Enabled, Step, ArgsOk, OnlyDue, ListsStep;
    listed', detached' := listed, detached;
    if es != [] {
      assert es[0] in es;
      StepKeepsInv(s, es[0]);
      listed', detached' := StepKeepsArgs(s, es[0], listed, detached);
      StepReapsOnly(s, es[0], listed, detached, listed', detached', due);
      listed', detached' := RunReapsOnly(Step(s, es[0]), es[1..], listed', detached', due);
    }
  }

  /***** What it means *****/

  lemma ReachedArgs(limit: nat, es: seq<Event>, s: State) returns (listed: seq<WorkerId>, detached: seq<WorkerId>)
    requires Reaches(ThreadPerRequest, limit, es, s)
    ensures Inv(s) && s.kind.ThreadPerRequest? && ArgsOk(s, listed, detached)
  {
    StartArgs(ThreadPerRequest, limit);
    RunKeepsInv(Start(ThreadPerRequest, limit), es);
    RunKeepsArgs(Start(ThreadPerRequest, limit), es);
    listed, detached :| ArgsOk(s, listed, detached);
  }

  /**
   * A call reaps: whatever has been linked while the launcher has still to take the list, as
   * it has from the start of each ExecuteRequest on, is joined and freed when a call returns.
   */
  lemma CallReaps(limit: nat, es: seq<Event>, s: State, more: seq<Event>)
    requires Reaches(ThreadPerRequest, limit, es, s) && StillToTake(s.main)
    requires Legal(s, more) && RunAll(s, more).main.Outside?
    ensures forall w: WorkerId :: HasLinked(s.workers, w) ==> Freed(RunAll(s, more).workers, w)
  {
    var listed, detached := ReachedArgs(limit, es, s);
    var due := set w: WorkerId | 0 <= w < |s.workers| && HasLinked(s.workers, w);
    forall w | w in due
      ensures Reaped(s, listed, detached, w)
    {
      LinkedReaped(s, listed, detached, w);
    }
    var listed', detached' := RunReaps(s, more, listed, detached, due);
    assert detached' == [];
    forall w: WorkerId | HasLinked(s.workers, w)
      ensures Freed(RunAll(s, more).workers, w)
    {
      assert w in due;
    }
  }

  lemma LinkedReaped(s: State, listed: seq<WorkerId>, detached: seq<WorkerId>, w: WorkerId)
    requires ArgsOk(s, listed, detached) && StillToTake(s.main) && HasLinked(s.workers, w)
    ensures Reaped(s, listed, detached, w)
  {
    assert w in listed + detached || s.workers[w].freed;
  }

  /**
   * And exactly that: when the call returns, of the arguments linked by then those are freed
   * that had been linked when the list was taken.
   */
  lemma CallReapsExactly(limit: nat, es: seq<Event>, s: State, more: seq<Event>)
    requires Reaches(ThreadPerRequest, limit, es, s) && s.main.Taking?
    requires Legal(s, more) && RunAll(s, more).main.Outside? && forall e :: e in more ==> !e.CallExecute?
    ensures forall w: WorkerId :: Freed(RunAll(s, more).workers, w) <==> HasLinked(s.workers, w)
  {
    var listed, detached := ReachedArgs(limit, es, s);
    var due := set w: WorkerId | 0 <= w < |s.workers| && HasLinked(s.workers, w);
    LinkedDue(s, listed, detached, due);
    CallReaps(limit, es, s, more);
    var listed', detached' := RunReapsOnly(s, more, listed, detached, due);
  }

  lemma LinkedDue(s: State, listed: seq<WorkerId>, detached: seq<WorkerId>, due: set<WorkerId>)
    requires ArgsOk(s, listed, detached) && s.main.Taking?
    requires forall w: WorkerId :: w in due <==> HasLinked(s.workers, w)
    ensures OnlyDue(s, listed, detached, due)
  {
    forall w: WorkerId | Freed(s.workers, w) || w in detached || w in listed
      ensures w in due
    {
      assert w in listed ==> w in listed + detached;
      assert w in detached ==> w in listed + detached;
    }
  }

  lemma {:induction false} ChainUnique(workers: seq<Worker>, from: Option<WorkerId>, a: seq<WorkerId>, b: seq<WorkerId>)
    requires Chain(workers, from, a) && Chain(workers, from, b)
    ensures a == b
    decreases |a|
  {
    if a != [] {
      ChainUnique(workers, workers[a[0]].link, a[1..], b[1..]);
      assert a == [a[0]] + a[1..] && b == [b[0]] + b[1..];
    }
  }

  /** So every argument that following the links from the list's head visits is freed. */
  lemma ListedAreReaped(limit: nat, es: seq<Event>, s: State, listed: seq<WorkerId>, more: seq<Event>)
    requires Reaches(ThreadPerRequest, limit, es, s) && s.main.Taking? && Chain(s.workers, s.head, listed)
    requires Legal(s, more) && RunAll(s, more).main.Outside?
    ensures forall w :: w in listed ==> Freed(RunAll(s, more).workers, w)
  {
    var ids, detached := ReachedArgs(limit, es, s);
    ChainUnique(s.workers, s.head, listed, ids);
    CallReaps(limit, es, s, more);
    forall w | w in listed
      ensures HasLinked(s.workers, w)
    {
      assert w in ids + detached;
    }
  }
}

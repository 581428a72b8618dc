/** The thread launcher's list of finished thread arguments, and their reaping. */
module LauncherArgs {
  import opened Base
  import opened Launchers
  import opened LauncherPermits

  /** Following the links from there visits ids in order, and ends. */
  ghost predicate Chain(workers: seq<Worker>, from: Option<WorkerId>, ids: seq<WorkerId>)
    decreases |ids|
  {
    if ids == [] then from.None?
    else from == Some(ids[0]) && ids[0] < |workers| && Chain(workers, workers[ids[0]].link, ids[1..])
  }

  /** The worker has put its argument on the list. */
  predicate Linked(pc: WorkerPc) {
    pc.ListUnlock? || pc.PermitLock? || pc.Increment? || pc.Signal? || pc.PermitUnlock? || pc.Count? || pc.Exited?
  }

  /** The list the launcher has detached and not yet reaped. */
  function Cursor(main: MainPc): Option<WorkerId> {
    match main
    case ReleasingList(cursor) => cursor
    case Reaping(cursor) => cursor
    case Joining(temp, _) => Some(temp)
    case _ => None
  }

  /** The arguments in the two lists are those linked and not freed. */
  ghost predicate Members(workers: seq<Worker>, ids: seq<WorkerId>) {
    && NoDup(ids)
    && (forall w :: w in ids ==> w < |workers| && Linked(workers[w].pc) && !workers[w].freed)
    && (forall w: WorkerId :: w < |workers| && Linked(workers[w].pc) && !workers[w].freed ==> w in ids)
  }

  ghost predicate FreedOk(workers: seq<Worker>) {
    forall w :: 0 <= w < |workers| && workers[w].freed ==> workers[w].pc.Exited?
  }

  ghost predicate HeadsOk(workers: seq<Worker>, head: Option<WorkerId>) {
    forall w :: 0 <= w < |workers| && workers[w].pc.SetHead? ==> workers[w].link == head
  }

  ghost predicate JoinOk(workers: seq<Worker>, main: MainPc) {
    main.Joining? ==> main.temp < |workers| && workers[main.temp].link == main.next
  }

  /**
   * The shared list is listed and the detached one detached; an argument is in one of them
   * exactly from being linked to being freed; and only exited workers' arguments are freed.
   */
  ghost predicate ArgsOk(s: State, listed: seq<WorkerId>, detached: seq<WorkerId>) {
    && Chain(s.workers, s.head, listed) && Chain(s.workers, Cursor(s.main), detached)
    && Members(s.workers, listed + detached)
    && FreedOk(s.workers) && HeadsOk(s.workers, s.head) && JoinOk(s.workers, s.main)
  }

  /***** Every step keeps it *****/

  lemma {:induction false} ChainFrame(workers: seq<Worker>, workers': seq<Worker>, from: Option<WorkerId>, ids: seq<WorkerId>)
    requires Chain(workers, from, ids) && |workers| <= |workers'|
    requires forall w :: w in ids && w < |workers| ==> workers'[w].link == workers[w].link
    ensures Chain(workers', from, ids)
    decreases |ids|
  {
    if ids != [] {
      ChainFrame(workers, workers', workers[ids[0]].link, ids[1..]);
    }
  }

  lemma WorkerHeads(s: State, w: WorkerId)
    requires WorkerCanStep(s, w) && ListMutexOk(s) && HeadsOk(s.workers, s.head)
    ensures HeadsOk(AfterWorker(s, w).workers, AfterWorker(s, w).head)
  {
    var s' := AfterWorker(s, w);
    forall v | 0 <= v < |s'.workers| && s'.workers[v].pc.SetHead?
      ensures s'.workers[v].link == s'.head
    {
      if v != w {
        assert IsHolder(s.listMutex, v);
        assert IsHolder(s.listMutex, w) <==> HasListMutex(s.workers[w].pc);
      }
    }
  }

  /** A worker that links its argument puts it at the head. */
  lemma LinkKeepsArgs(s: State, w: WorkerId, listed: seq<WorkerId>, detached: seq<WorkerId>)
    requires s.kind.ThreadPerRequest? && ListMutexOk(s) && ArgsOk(s, listed, detached)
    requires WorkerCanStep(s, w) && s.workers[w].pc.SetHead?
    ensures ArgsOk(AfterWorker(s, w), [w] + listed, detached)
  {
    var s' := AfterWorker(s, w);
    var before, after := listed + detached, [w] + listed + detached;
    assert w !in before;
    assert after == [w] + before;
    assert [w] + listed + detached == [w] + (listed + detached);
    assert ([w] + listed)[1..] == listed;
    ChainFrame(s.workers, s'.workers, s.head, listed);
    ChainFrame(s.workers, s'.workers, Cursor(s.main), detached);
    WorkerHeads(s, w);
  }

  lemma WorkerMembers(s: State, w: WorkerId, ids: seq<WorkerId>)
    requires s.kind.ThreadPerRequest? && WorkerCanStep(s, w) && !s.workers[w].pc.SetHead?
    requires Members(s.workers, ids) && FreedOk(s.workers)
    ensures Members(AfterWorker(s, w).workers, ids) && FreedOk(AfterWorker(s, w).workers)
    ensures s.workers[w].pc.SetLink? ==> w !in ids
  {
    assert AfterWorker(s, w).workers == s.workers[w := StepWorker(s.kind, s.workers[w], s.head)];
  }

  lemma WorkerKeepsArgs(s: State, w: WorkerId, listed: seq<WorkerId>, detached: seq<WorkerId>)
    requires s.kind.ThreadPerRequest? && ListMutexOk(s) && ArgsOk(s, listed, detached)
    requires WorkerCanStep(s, w) && !s.workers[w].pc.SetHead?
    ensures ArgsOk(AfterWorker(s, w), listed, detached)
  {
    var s' := AfterWorker(s, w);
    WorkerMembers(s, w, listed + detached);
    forall v | v in listed || v in detached
      ensures v < |s.workers| && s'.workers[v].link == s.workers[v].link
    {
      assert v in listed + detached;
    }
    ChainFrame(s.workers, s'.workers, s.head, listed);
    ChainFrame(s.workers, s'.workers, Cursor(s.main), detached);
    WorkerHeads(s, w);
  }

  lemma MainHeads(s: State)
    requires MainCanStep(s) && ListMutexOk(s) && HeadsOk(s.workers, s.head)
    ensures HeadsOk(AfterMain(s).workers, AfterMain(s).head)
  {
    var s' := AfterMain(s);
    forall v | 0 <= v < |s'.workers| && s'.workers[v].pc.SetHead?
      ensures s'.workers[v].link == s'.head
    {
      assert IsHolder(s.listMutex, v);
    }
  }

  /** Taking one element out of a sequence without repetitions. */
  lemma DropElement(a: seq<WorkerId>, b: seq<WorkerId>)
    requires b != [] && NoDup(a + b)
    ensures NoDup(a + b[1..])
    ensures forall w :: w in a + b[1..] <==> w in a + b && w != b[0]
  {
    var before, after := a + b, a + b[1..];
    assert before[|a|] == b[0];
    assert forall i :: 0 <= i < |after| ==> after[i] == before[if i < |a| then i else i + 1];
    forall w | w in before && w != b[0]
      ensures w in after
    {
      var i :| 0 <= i < |before| && before[i] == w;
      assert after[if i < |a| then i else i - 1] == w;
    }
  }

  /** The launcher frees the argument it has joined, the first of the detached ones. */
  lemma JoinKeepsArgs(s: State, listed: seq<WorkerId>, detached: seq<WorkerId>)
    requires s.kind.ThreadPerRequest? && ListMutexOk(s) && ArgsOk(s, listed, detached)
    requires MainCanStep(s) && s.main.Joining?
    ensures detached != [] && detached[0] == s.main.temp && ArgsOk(AfterMain(s), listed, detached[1..])
  {
    var s' := AfterMain(s);
    DropElement(listed, detached);
    ChainFrame(s.workers, s'.workers, s.head, listed);
    ChainFrame(s.workers, s'.workers, s.main.next, detached[1..]);
    MainHeads(s);
  }

  /** What becomes of the two lists in a step: they are linked to, taken, or reaped from. */
  ghost predicate ListsStep(s: State, e: Event, listed: seq<WorkerId>, detached: seq<WorkerId>,
                            listed': seq<WorkerId>, detached': seq<WorkerId>)
  {
    if e.MainStep? && s.main.Taking? then listed' == [] && detached' == listed && detached == []
    else if e.MainStep? && s.main.Joining? then listed' == listed && detached == [s.main.temp] + detached'
    else if e.WorkerStep? && e.worker < |s.workers| && s.workers[e.worker].pc.SetHead?
    then listed' == [e.worker] + listed && detached' == detached
    else listed' == listed && detached' == detached
  }

  lemma MainKeepsArgs(s: State, listed: seq<WorkerId>, detached: seq<WorkerId>)
    returns (listed': seq<WorkerId>, detached': seq<WorkerId>)
    requires s.kind.ThreadPerRequest? && ListMutexOk(s) && ArgsOk(s, listed, detached)
    requires MainCanStep(s)
    ensures ArgsOk(AfterMain(s), listed', detached')
    ensures ListsStep(s, MainStep, listed, detached, listed', detached')
  {
    var s' := AfterMain(s);
    if s.main.Taking? {
      listed', detached' := [], listed;
      assert detached == [];
      assert listed + detached == listed && [] + listed == listed;
      MainHeads(s);
    } else if s.main.Joining? {
      JoinKeepsArgs(s, listed, detached);
      listed', detached' := listed, detached[1..];
    } else {
      OtherKeepsArgs(s, listed, detached);
      listed', detached' := listed, detached;
    }
  }

  lemma OtherKeepsArgs(s: State, listed: seq<WorkerId>, detached: seq<WorkerId>)
    requires s.kind.ThreadPerRequest? && ListMutexOk(s) && ArgsOk(s, listed, detached)
    requires MainCanStep(s) && !s.main.Taking? && !s.main.Joining?
    ensures ArgsOk(AfterMain(s), listed, detached)
  {
    var s' := AfterMain(s);
    ChainFrame(s.workers, s'.workers, s.head, listed);
    ChainFrame(s.workers, s'.workers, Cursor(s.main), detached);
    MainHeads(s);
  }

  lemma StepKeepsArgs(s: State, e: Event, listed: seq<WorkerId>, detached: seq<WorkerId>)
    returns (listed': seq<WorkerId>, detached': seq<WorkerId>)
    requires s.kind.ThreadPerRequest? && ListMutexOk(s) && ArgsOk(s, listed, detached) && Enabled(s, e)
    ensures ArgsOk(Step(s, e), listed', detached')
    ensures ListsStep(s, e, listed, detached, listed', detached') && Step(s, e).kind == s.kind
  {
    listed', detached' := listed, detached;
    match e
    case MainStep => listed', detached' := MainKeepsArgs(s, listed, detached);
    case WorkerStep(w) =>
      if s.workers[w].pc.SetHead? {
        LinkKeepsArgs(s, w, listed, detached);
        listed' := [w] + listed;
      } else {
        WorkerKeepsArgs(s, w, listed, detached);
      }
    case _ =>
  }

  ghost predicate SomeArgs(s: State) {
    exists listed, detached :: ArgsOk(s, listed, detached)
  }

  lemma {:induction false} RunKeepsArgs(s: State, es: seq<Event>)
    requires s.kind.ThreadPerRequest? && Inv(s) && SomeArgs(s) && Legal(s, es)
    ensures SomeArgs(RunAll(s, es))
    decreases |es|
  {
    if es != [] {
      StepKeepsInv(s, es[0]);
      StepKeepsSomeArgs(s, es[0]);
      RunKeepsArgs(Step(s, es[0]), es[1..]);
    }
  }

  lemma StepKeepsSomeArgs(s: State, e: Event)
    requires s.kind.ThreadPerRequest? && ListMutexOk(s) && SomeArgs(s) && Enabled(s, e)
    ensures SomeArgs(Step(s, e))
  {
    var listed, detached :| ArgsOk(s, listed, detached);
    var listed', detached' := StepKeepsArgs(s, e, listed, detached);
  }

  lemma StartArgs(kind: Kind, limit: nat)
    ensures SomeArgs(Start(kind, limit))
  {
    assert ArgsOk(Start(kind, limit), [], []);
  }

  /***** What it means *****/

  /**
   * In every interleaving the shared list and the launcher's detached list are acyclic and
   * disjoint, and an issued argument is not yet linked, or in one of them, or freed.
   */
  lemma ArgsPartition(limit: nat, es: seq<Event>, s: State) returns (listed: seq<WorkerId>, detached: seq<WorkerId>)
    requires Reaches(ThreadPerRequest, limit, es, s)
    ensures Chain(s.workers, s.head, listed) && Chain(s.workers, Cursor(s.main), detached)
    ensures NoDup(listed + detached)
    ensures forall w: WorkerId :: w in listed + detached <==>
              w < |s.workers| && Linked(s.workers[w].pc) && !s.workers[w].freed
    ensures forall w :: 0 <= w < |s.workers| && s.workers[w].freed ==> Linked(s.workers[w].pc)
  {
    StartArgs(ThreadPerRequest, limit);
    RunKeepsInv(Start(ThreadPerRequest, limit), []);
    RunKeepsArgs(Start(ThreadPerRequest, limit), es);
    listed, detached :| ArgsOk(s, listed, detached);
  }

  /**
   * No argument is used after it is freed, or freed twice: a worker that has not exited has
   * its own, and so has the launcher the one it follows, and the one it joins and frees.
   */
  lemma NoUseAfterFree(limit: nat, es: seq<Event>, s: State)
    requires Reaches(ThreadPerRequest, limit, es, s)
    ensures forall w :: 0 <= w < |s.workers| && !s.workers[w].pc.Exited? ==> !s.workers[w].freed
    ensures s.main.Reaping? && s.main.cursor.Some? ==>
              s.main.cursor.value < |s.workers| && !s.workers[s.main.cursor.value].freed
    ensures s.main.Joining? ==> s.main.temp < |s.workers| && !s.workers[s.main.temp].freed
  {
    StartArgs(ThreadPerRequest, limit);
    RunKeepsArgs(Start(ThreadPerRequest, limit), es);
    var listed, detached :| ArgsOk(s, listed, detached);
    ArgsInUse(s, listed, detached);
  }

  lemma ArgsInUse(s: State, listed: seq<WorkerId>, detached: seq<WorkerId>)
    requires ArgsOk(s, listed, detached)
    ensures forall w :: 0 <= w < |s.workers| && !s.workers[w].pc.Exited? ==> !s.workers[w].freed
    ensures s.main.Reaping? && s.main.cursor.Some? ==>
              s.main.cursor.value < |s.workers| && !s.workers[s.main.cursor.value].freed
    ensures s.main.Joining? ==> s.main.temp < |s.workers| && !s.workers[s.main.temp].freed
  {
    if detached != [] {
      assert detached[0] in listed + detached;
    }
  }
}

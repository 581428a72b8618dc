/** Permits, mutexes, wake-ups and counters of both launchers. */
module LauncherPermits {
  import opened Base
  import opened Launchers

  /** How many workers have fewer than that many steps left. */
  function Tally(kind: Kind, workers: seq<Worker>, below: nat): (n: nat)
    ensures n <= |workers|
  {
    if workers == [] then 0
    else
      var last := |workers| - 1;
      Tally(kind, workers[..last], below) + if Rank(kind, workers[last].pc) < below then 1 else 0
  }

  /** The workers that have given their permit back. */
  function Returned(s: State): nat {
    Tally(s.kind, s.workers, Rank(s.kind, Increment))
  }

  /** The workers whose request counts as executed. */
  function Counted(s: State): nat {
    Tally(s.kind, s.workers, Rank(s.kind, Count))
  }

  /** The worker has been started, its permit not yet been taken. */
  function Pending(main: MainPc): nat {
    if main.Acquiring? || main.Checking? || main.Sleeping? then 1 else 0
  }

  /** Every permit is there, or taken by a worker that has not returned it. */
  ghost predicate PermitsOk(s: State) {
    s.permits + |s.workers| == s.limit + Returned(s) + Pending(s.main)
  }

  ghost predicate CountsOk(s: State) {
    && s.executed == Counted(s)
    && s.issued == |s.workers| + if s.main.Spawning? then 1 else 0
  }

  predicate MainHasMutex(main: MainPc) {
    main.Checking? || main.Releasing?
  }

  predicate MainHasListMutex(main: MainPc) {
    main.Taking? || main.ReleasingList?
  }

  predicate IsHolder(mutex: Option<Holder>, w: WorkerId) {
    mutex == Some(Of(w))
  }

  ghost predicate MutexOk(s: State) {
    && (s.mutex == Some(Main) <==> MainHasMutex(s.main))
    && (forall w: WorkerId :: IsHolder(s.mutex, w) <==> w < |s.workers| && HasMutex(s.workers[w].pc))
  }

  ghost predicate ListMutexOk(s: State) {
    && (s.listMutex == Some(Main) <==> MainHasListMutex(s.main))
    && (forall w: WorkerId :: IsHolder(s.listMutex, w) <==> w < |s.workers| && HasListMutex(s.workers[w].pc))
  }

  predicate Signals(workers: seq<Worker>, w: WorkerId) {
    w < |workers| && workers[w].pc.Signal?
  }

  /** The launcher sleeps beside a permit only while the signal is still to come. */
  ghost predicate SleepOk(s: State) {
    && (s.main.Sleeping? && 0 < s.permits ==> exists w :: Signals(s.workers, w))
    && (forall w :: Signals(s.workers, w) ==> 0 < s.permits)
  }

  /** A launcher of processes has no list to reap. */
  predicate MainOk(kind: Kind, main: MainPc) {
    kind.ProcessPerRequest? ==>
      !main.AcquiringList? && !main.Taking? && !main.ReleasingList? && !main.Reaping? && !main.Joining?
  }

  ghost predicate KindOk(s: State) {
    MainOk(s.kind, s.main) && forall w :: 0 <= w < |s.workers| ==> PcOk(s.kind, s.workers[w].pc)
  }

  ghost predicate Inv(s: State) {
    PermitsOk(s) && CountsOk(s) && MutexOk(s) && ListMutexOk(s) && SleepOk(s) && KindOk(s)
  }

  /***** Every step keeps it *****/

  lemma {:induction false} TallyUpdate(kind: Kind, workers: seq<Worker>, w: WorkerId, x: Worker, below: nat)
    requires w < |workers|
    ensures Tally(kind, workers[w := x], below) + (if Rank(kind, workers[w].pc) < below then 1 else 0) ==
            Tally(kind, workers, below) + if Rank(kind, x.pc) < below then 1 else 0
  {
    var last := |workers| - 1;
    if w < last {
      TallyUpdate(kind, workers[..last], w, x, below);
      assert workers[w := x][..last] == workers[..last][w := x];
    } else {
      assert workers[w := x][..last] == workers[..last];
    }
  }

  lemma TallyAppend(kind: Kind, workers: seq<Worker>, x: Worker, below: nat)
    ensures Tally(kind, workers + [x], below) == Tally(kind, workers, below) + if Rank(kind, x.pc) < below then 1 else 0
  {
    assert (workers + [x])[..|workers|] == workers;
  }

  lemma WorkerCounts(s: State, w: WorkerId)
    requires WorkerCanStep(s, w) && PcOk(s.kind, s.workers[w].pc) && PermitsOk(s) && CountsOk(s)
    ensures PermitsOk(AfterWorker(s, w)) && CountsOk(AfterWorker(s, w))
  {
    hide Tally;
    var x := StepWorker(s.kind, s.workers[w], s.head);
    assert AfterWorker(s, w).workers == s.workers[w := x];
    TallyUpdate(s.kind, s.workers, w, x, Rank(s.kind, Increment));
    TallyUpdate(s.kind, s.workers, w, x, Rank(s.kind, Count));
  }

  lemma WorkerMutexes(s: State, w: WorkerId)
    requires WorkerCanStep(s, w) && PcOk(s.kind, s.workers[w].pc) && MutexOk(s) && ListMutexOk(s)
    ensures MutexOk(AfterWorker(s, w)) && ListMutexOk(AfterWorker(s, w))
  {
    var s' := AfterWorker(s, w);
    assert forall v: WorkerId :: v < |s.workers| && v != w ==> s'.workers[v] == s.workers[v];
    assert IsHolder(s.mutex, w) <==> HasMutex(s.workers[w].pc);
    assert IsHolder(s.listMutex, w) <==> HasListMutex(s.workers[w].pc);
    forall v: WorkerId
      ensures IsHolder(s'.mutex, v) <==> v < |s'.workers| && HasMutex(s'.workers[v].pc)
      ensures IsHolder(s'.listMutex, v) <==> v < |s'.workers| && HasListMutex(s'.workers[v].pc)
    {
      assert IsHolder(s.mutex, v) <==> v < |s.workers| && HasMutex(s.workers[v].pc);
      assert IsHolder(s.listMutex, v) <==> v < |s.workers| && HasListMutex(s.workers[v].pc);
    }
  }

  lemma WorkerSleep(s: State, w: WorkerId)
    requires WorkerCanStep(s, w) && PcOk(s.kind, s.workers[w].pc) && MutexOk(s) && SleepOk(s)
    ensures SleepOk(AfterWorker(s, w))
  {
    var s' := AfterWorker(s, w);
    if s'.main.Sleeping? && 0 < s'.permits {
      if s.workers[w].pc.Increment? {
        assert Signals(s'.workers, w);
      } else {
        var v :| Signals(s.workers, v);
        assert Signals(s'.workers, v);
      }
    }
    forall v | Signals(s'.workers, v)
      ensures 0 < s'.permits
    {
      if v != w {
        assert Signals(s.workers, v);
      }
    }
  }

  lemma MainCounts(s: State)
    requires MainCanStep(s) && PermitsOk(s) && CountsOk(s)
    ensures PermitsOk(AfterMain(s)) && CountsOk(AfterMain(s))
  {
    hide Tally;
    match s.main
    case Spawning =>
      TallyAppend(s.kind, s.workers, Worker(Run, None, false), Rank(s.kind, Increment));
      TallyAppend(s.kind, s.workers, Worker(Run, None, false), Rank(s.kind, Count));
    case Joining(temp, _) =>
      TallyUpdate(s.kind, s.workers, temp, s.workers[temp].(freed := true), Rank(s.kind, Increment));
      TallyUpdate(s.kind, s.workers, temp, s.workers[temp].(freed := true), Rank(s.kind, Count));
    case _ =>
  }

  lemma MainMutexes(s: State)
    requires MainCanStep(s) && MutexOk(s) && ListMutexOk(s)
    ensures MutexOk(AfterMain(s)) && ListMutexOk(AfterMain(s))
  {
    var s' := AfterMain(s);
    forall v: WorkerId
      ensures IsHolder(s'.mutex, v) <==> v < |s'.workers| && HasMutex(s'.workers[v].pc)
      ensures IsHolder(s'.listMutex, v) <==> v < |s'.workers| && HasListMutex(s'.workers[v].pc)
    {
      assert IsHolder(s.mutex, v) <==> v < |s.workers| && HasMutex(s.workers[v].pc);
      assert IsHolder(s.listMutex, v) <==> v < |s.workers| && HasListMutex(s.workers[v].pc);
    }
  }

  lemma MainSleep(s: State)
    requires MainCanStep(s) && MutexOk(s) && SleepOk(s)
    ensures SleepOk(AfterMain(s))
  {
    var s' := AfterMain(s);
    forall v | Signals(s'.workers, v)
      ensures 0 < s'.permits
    {
      assert Signals(s.workers, v);
      assert IsHolder(s.mutex, v);
    }
  }

  lemma StepKeepsInv(s: State, e: Event)
    requires Inv(s) && Enabled(s, e)
    ensures Inv(Step(s, e))
  {
    hide Tally;
    match e
    case MainStep =>
      MainCounts(s);
      MainMutexes(s);
      MainSleep(s);
    case WorkerStep(w) =>
      WorkerCounts(s, w);
      WorkerMutexes(s, w);
      WorkerSleep(s, w);
    case _ =>
  }

  lemma {:induction false} RunKeepsInv(s: State, es: seq<Event>)
    requires Inv(s) && Legal(s, es)
    ensures Inv(RunAll(s, es)) && RunAll(s, es).kind == s.kind && RunAll(s, es).limit == s.limit
    decreases |es|
  {
    if es != [] {
      StepKeepsInv(s, es[0]);
      RunKeepsInv(Step(s, es[0]), es[1..]);
    }
  }

  lemma ReachedInv(kind: Kind, limit: nat, es: seq<Event>, s: State)
    requires Reaches(kind, limit, es, s)
    ensures Inv(s) && s.kind == kind && s.limit == limit
  {
    RunKeepsInv(Start(kind, limit), es);
  }

  /***** What it means *****/

  /** The requests being executed, or executed by a worker that still has its permit. */
  function InFlight(s: State): nat {
    |s.workers| - Returned(s)
  }

  /**
   * Permits are conserved. At any moment at most limit + 1 requests are in flight, since a
   * worker starts before its permit is taken, and at most limit once ExecuteRequest has its
   * permit. That the launcher has the next permit, or finds one, is exactly when the limit
   * is kept. The counter never exceeds limit + 1.
   */
  lemma PermitAccounting(kind: Kind, limit: nat, es: seq<Event>, s: State)
    requires Reaches(kind, limit, es, s)
    ensures s.permits + InFlight(s) == limit + Pending(s.main)
    ensures InFlight(s) <= limit + 1 && s.permits <= limit + 1
    ensures InFlight(s) <= limit <==> Pending(s.main) == 0 || 0 < s.permits
  {
    ReachedInv(kind, limit, es, s);
  }

  /** So the counter, an int, does not overflow if the constructor's check holds. */
  lemma CounterFits(kind: Kind, limit: nat, es: seq<Event>, s: State)
    requires Reaches(kind, limit, es, s) && limit < 0x7fff_ffff
    ensures s.permits <= 0x7fff_ffff
  {
    PermitAccounting(kind, limit, es, s);
  }

  /** No lost wake-up: a launcher asleep beside a permit is about to be signalled. */
  lemma NoLostWakeup(kind: Kind, limit: nat, es: seq<Event>, s: State)
    requires Reaches(kind, limit, es, s) && s.main.Sleeping? && 0 < s.permits
    ensures exists w :: Signals(s.workers, w) && WorkerCanStep(s, w) && Step(s, WorkerStep(w)).main.Acquiring?
  {
    ReachedInv(kind, limit, es, s);
    var w :| Signals(s.workers, w);
    assert WorkerCanStep(s, w);
  }

  lemma {:induction false} TallyAll(kind: Kind, workers: seq<Worker>, below: nat)
    ensures Tally(kind, workers, below) == |workers| <==>
            forall w :: 0 <= w < |workers| ==> Rank(kind, workers[w].pc) < below
  {
    if workers != [] {
      TallyAll(kind, workers[..|workers| - 1], below);
    }
  }

  /**
   * WaitOutstanding returns only after every Execute is done, and every count made. Where
   * the count is the worker's last step, between threads, all permits are then back.
   */
  lemma WaitMeansDone(kind: Kind, limit: nat, es: seq<Event>, s: State)
    requires Reaches(kind, limit, es, s) && s.main.WaitingAll? && MainCanStep(s)
    ensures forall w :: 0 <= w < |s.workers| ==>
              !s.workers[w].pc.Run? && Rank(kind, s.workers[w].pc) < Rank(kind, Count)
    ensures kind.ThreadPerRequest? ==> s.permits == limit && forall w :: 0 <= w < |s.workers| ==> s.workers[w].pc.Exited?
  {
    ReachedInv(kind, limit, es, s);
    TallyAll(kind, s.workers, Rank(kind, Count));
    TallyAll(kind, s.workers, Rank(kind, Increment));
  }

  lemma {:induction false} RunOneMore(s: State, es: seq<Event>, e: Event)
    requires Legal(s, es) && Enabled(RunAll(s, es), e)
    ensures Legal(s, es + [e]) && RunAll(s, es + [e]) == Step(RunAll(s, es), e)
    decreases |es|
  {
    if es == [] {
      assert es + [e] == [e];
      assert Legal(Step(s, e), []);
    } else {
      RunOneMore(Step(s, es[0]), es[1..], e);
      assert (es + [e])[1..] == es[1..] + [e];
    }
  }

  lemma ReachesNext(kind: Kind, limit: nat, es: seq<Event>, s: State, e: Event) returns (es': seq<Event>, s': State)
    requires Reaches(kind, limit, es, s) && Enabled(s, e)
    ensures Reaches(kind, limit, es', s') && s' == Step(s, e)
  {
    RunOneMore(Start(kind, limit), es, e);
    es', s' := es + [e], Step(s, e);
  }

  /***** Where permits are out *****/

  /** n more calls, none of whose workers has moved, after n permits have been taken. */
  ghost predicate Launched(s: State, n: nat) {
    && s.main.Outside? && s.mutex.None? && s.listMutex.None? && s.head.None?
    && |s.workers| == s.issued == n && s.executed == 0 && s.permits + n == s.limit
    && forall w :: 0 <= w < n ==> s.workers[w] == Worker(Run, None, false)
  }

  /** One call while there is a permit and no worker moves. */
  lemma LaunchOne(kind: Kind, limit: nat, es: seq<Event>, s: State, n: nat) returns (es': seq<Event>, s': State)
    requires Reaches(kind, limit, es, s) && Launched(s, n) && 0 < s.permits && s.kind == kind && s.limit == limit
    ensures Reaches(kind, limit, es', s') && Launched(s', n + 1) && s'.kind == kind && s'.limit == limit
  {
    es', s' := ReachesNext(kind, limit, es, s, CallExecute);
    es', s' := ReachesNext(kind, limit, es', s', MainStep);
    es', s' := ReachesNext(kind, limit, es', s', MainStep);
    es', s' := ReachesNext(kind, limit, es', s', MainStep);
    es', s' := ReachesNext(kind, limit, es', s', MainStep);
    if kind.ThreadPerRequest? {
      es', s' := ReachesNext(kind, limit, es', s', MainStep);
      es', s' := ReachesNext(kind, limit, es', s', MainStep);
      es', s' := ReachesNext(kind, limit, es', s', MainStep);
      es', s' := ReachesNext(kind, limit, es', s', MainStep);
    }
  }

  lemma {:induction false} LaunchMany(kind: Kind, limit: nat, n: nat) returns (es: seq<Event>, s: State)
    requires n <= limit
    ensures Reaches(kind, limit, es, s) && Launched(s, n) && s.kind == kind && s.limit == limit
  {
    if n == 0 {
      es, s := [], Start(kind, limit);
    } else {
      es, s := LaunchMany(kind, limit, n - 1);
      es, s := LaunchOne(kind, limit, es, s, n - 1);
    }
  }

  /** Whatever the launcher and its limit, one request more than the limit can be in flight. */
  lemma OneOverTheLimit(kind: Kind, limit: nat) returns (es: seq<Event>, s: State)
    ensures Reaches(kind, limit, es, s) && InFlight(s) == limit + 1
  {
    es, s := LaunchMany(kind, limit, limit);
    es, s := ReachesNext(kind, limit, es, s, CallExecute);
    es, s := ReachesNext(kind, limit, es, s, MainStep);
    PermitAccounting(kind, limit, es, s);
  }

  /** Between processes WaitOutstanding may return while a permit is still out. */
  lemma ProcessPermitOut(limit: nat) returns (es: seq<Event>, s: State)
    requires 0 < limit
    ensures Reaches(ProcessPerRequest, limit, es, s)
    ensures s.main.WaitingAll? && MainCanStep(s) && s.permits == limit - 1
  {
    es, s := LaunchMany(ProcessPerRequest, limit, 1);
    es, s := ReachesNext(ProcessPerRequest, limit, es, s, WorkerStep(0));
    es, s := ReachesNext(ProcessPerRequest, limit, es, s, WorkerStep(0));
    es, s := ReachesNext(ProcessPerRequest, limit, es, s, CallWait);
  }

  /** When it returns, all permits are back exactly if every worker has given its own back. */
  lemma PermitsBackWhen(kind: Kind, limit: nat, es: seq<Event>, s: State)
    requires Reaches(kind, limit, es, s) && s.main.WaitingAll? && MainCanStep(s)
    ensures s.permits == limit <==>
            forall w :: 0 <= w < |s.workers| ==> Rank(kind, s.workers[w].pc) < Rank(kind, Increment)
  {
    PermitAccounting(kind, limit, es, s);
    ReachedInv(kind, limit, es, s);
    TallyAll(kind, s.workers, Rank(kind, Increment));
  }

  /**
   * That all permits are back whenever WaitOutstanding returns holds of exactly the launchers
   * of threads; of those of processes it would only hold for a limit that the constructor
   * refuses.
   */
  lemma PermitsBackIff(kind: Kind, limit: nat)
    ensures (forall es, s :: Reaches(kind, limit, es, s) && s.main.WaitingAll? && MainCanStep(s) ==>
               s.permits == limit)
            <==> kind.ThreadPerRequest? || limit == 0
  {
    if kind.ThreadPerRequest? || limit == 0 {
      forall es, s | Reaches(kind, limit, es, s) && s.main.WaitingAll? && MainCanStep(s)
        ensures s.permits == limit
      {
        if kind.ThreadPerRequest? {
          WaitMeansDone(kind, limit, es, s);
        } else {
          PermitAccounting(kind, limit, es, s);
        }
      }
    } else {
      var es, s := ProcessPermitOut(limit);
    }
  }
}

/** The locking scheduler is never stuck, and every run's work is bounded. */
module LockingProgress {
  import opened Transactions
  import LT = LockTable
  import opened LockingScheduler
  import opened LockingInvariant
  import opened LockingTheorems
  import opened LockingStarvation

  /***** The measure *****/

  /** The steps a transaction has still to take, its pending writes aside. */
  function Rank(st: Stage, r: Request): nat {
    match st
    case Queued => 5 + |Keys(r)| + |r.writeset|
    case Blocked => 4 + |Keys(r)| + |r.writeset|
    case Ready => 4 + |Keys(r)| + |r.writeset|
    case Reading(todo) => 3 + |todo| + |r.writeset|
    case Completed => 2 + |r.writeset|
    case Committing => 1
    case Finished => 0
  }

  function Ranks(s: State): (rs: seq<nat>)
    requires |s.log| == |s.txns|
    ensures |rs| == |s.txns|
    ensures forall t :: 0 <= t < |rs| ==> rs[t] == Rank(s.txns[t].stage, s.log[t])
  {
    seq(|s.txns|, t requires 0 <= t < |s.txns| == |s.log| => Rank(s.txns[t].stage, s.log[t]))
  }

  function Sum(ns: seq<nat>): nat {
    if ns == [] then 0 else Sum(ns[..|ns| - 1]) + ns[|ns| - 1]
  }

  function Measure(s: State): nat
    requires |s.log| == |s.txns|
  {
    Sum(Ranks(s)) + PendingSize(s.phase)
  }

  function PendingSize(p: Phase): nat {
    if p.Apply? then |p.pending| else 0
  }

  /** A sum whose terms do not grow, and one of which drops by d, drops by d. */
  lemma {:induction false} SumDrops(a: seq<nat>, b: seq<nat>, t: nat, d: nat)
    requires |a| == |b| && t < |a|
    requires forall i :: 0 <= i < |a| ==> b[i] <= a[i]
    requires b[t] + d <= a[t]
    ensures Sum(b) + d <= Sum(a)
  {
    var n := |a| - 1;
    if t < n {
      SumDrops(a[..n], b[..n], t, d);
    } else if 0 < n {
      SumDrops(a[..n], b[..n], 0, 0);
    }
  }

  /** A step that moves t on by at least d ranks. */
  lemma RanksDrop(s: State, s': State, t: TxnId, d: nat)
    requires |s.log| == |s.txns| == |s'.txns| && s'.log == s.log && t < |s.txns|
    requires forall u :: 0 <= u < |s.txns| ==> Rank(s'.txns[u].stage, s.log[u]) <= Rank(s.txns[u].stage, s.log[u])
    requires Rank(s'.txns[t].stage, s.log[t]) + d <= Rank(s.txns[t].stage, s.log[t])
    ensures Sum(Ranks(s')) + d <= Sum(Ranks(s))
  {
    SumDrops(Ranks(s), Ranks(s'), t, d);
  }

  /** No more writes are applied than are declared. */
  lemma PendingBound(s: State, t: TxnId)
    requires |s.log| == |s.txns| && t < |s.txns| && TxnOk(s, t) && s.txns[t].stage == Completed
    ensures |s.txns[t].writeBuf| <= |s.log[t].writeset|
  {
    var r, w := s.log[t], s.txns[t].writeBuf;
    WritesDeclaredFrom(r, [], Fetch(Serial(s, t), Keys(r)), map[]);
    SetBound(w.Keys, r.writeset);
  }

  lemma {:induction false} SetBound(c: set<Key>, ks: seq<Key>)
    requires forall k :: k in c ==> k in ks
    ensures |c| <= |ks|
  {
    if ks != [] {
      var last := ks[|ks| - 1];
      SetBound(c - {last}, ks[..|ks| - 1]);
      assert |c| <= |c - {last}| + 1;
    } else {
      assert c == {};
    }
  }

  predicate Idle(e: Event) {
    e.NothingToAdmit? || e.NothingCompleted? || e.NothingReady?
  }

  /** A step that moves t on, outside a commit. */
  lemma OneDrops(s: State, s': State, t: TxnId)
    requires |s.log| == |s.txns| == |s'.txns| && s'.log == s.log && t < |s.txns|
    requires s'.txns == s.txns[t := s'.txns[t]]
    requires Rank(s'.txns[t].stage, s.log[t]) + PendingSize(s'.phase) < Rank(s.txns[t].stage, s.log[t]) + PendingSize(s.phase)
    requires PendingSize(s.phase) <= PendingSize(s'.phase)
    ensures Measure(s') < Measure(s)
  {
    RanksDrop(s, s', t, PendingSize(s'.phase) - PendingSize(s.phase) + 1);
  }

  lemma TakeDecreases(s: State)
    requires |s.log| == |s.txns| && Enabled(s, TakeCompleted) && !AfterTake(s).died
    requires TxnOk(s, s.completed[0]) && s.txns[s.completed[0]].stage == Completed
    ensures Measure(AfterTake(s)) < Measure(s)
  {
    PendingBound(s, s.completed[0]);
    OneDrops(s, AfterTake(s), s.completed[0]);
  }

  lemma AdmitDecreases(s: State)
    requires |s.log| == |s.txns| && Enabled(s, AdmitNext) && s.txns[s.admitted].stage == Queued
    ensures Measure(AfterAdmit(s)) < Measure(s)
  {
    OneDrops(s, AfterAdmit(s), s.admitted);
  }

  lemma ReadDecreases(s: State, t: TxnId)
    requires |s.log| == |s.txns| && Enabled(s, ReadNext(t))
    ensures Measure(AfterRead(s, t)) < Measure(s)
  {
    OneDrops(s, AfterRead(s, t), t);
  }

  lemma RunDecreases(s: State, t: TxnId)
    requires |s.log| == |s.txns| && Enabled(s, RunProgram(t)) && !AfterRun(s, t).died
    ensures Measure(AfterRun(s, t)) < Measure(s)
  {
    OneDrops(s, AfterRun(s, t), t);
  }

  lemma ApplyDecreases(s: State, k: Key)
    requires |s.log| == |s.txns| && Enabled(s, ApplyOne(k))
    ensures Measure(LockingSteps.AfterApply(s, k)) < Measure(s)
  {
    var s' := LockingSteps.AfterApply(s, k);
    assert Ranks(s') == Ranks(s);
    assert s'.phase.pending.Keys == s.phase.pending.Keys - {k};
  }

  lemma DispatchDecreases(s: State)
    requires |s.log| == |s.txns| && Enabled(s, DispatchNext) && s.txns[s.locks.ready[0]].stage == Ready
    ensures Measure(AfterDispatch(s)) < Measure(s)
  {
    OneDrops(s, AfterDispatch(s), s.locks.ready[0]);
  }

  lemma FinishDecreases(s: State)
    requires |s.log| == |s.txns| && Enabled(s, Finish) && s.txns[s.phase.txn].stage == Committing
    requires forall u :: u in NewlyReady(s.locks, AfterFinish(s).locks) ==> u < |s.txns| && s.txns[u].stage == Blocked
    ensures Measure(AfterFinish(s)) < Measure(s)
  {
    hide FinishLocks;
    var s' := AfterFinish(s);
    forall u | 0 <= u < |s.txns|
      ensures s'.txns[u].stage == s.txns[u].stage || u == s.phase.txn ||
              (s.txns[u].stage == Blocked && s'.txns[u].stage == Ready)
    {
    }
    RanksDrop(s, s', s.phase.txn, 1);
  }

  ghost predicate LessWork(s: State, s': State)
    requires |s.log| == |s.txns|
  {
    s'.died || (|s'.log| == |s'.txns| && Measure(s') < Measure(s))
  }

  /** Every step but a new request and the scheduler's idle moves uses up some of the work. */
  lemma StepDecreases(s: State, e: Event)
    requires Inv(s) && Enabled(s, e) && !e.NewRequest? && !Idle(e)
    ensures LessWork(s, Step(s, e))
  {
    hide Measure;
    match e
    case AdmitNext => AdmitDecreases(s);
    case TakeCompleted =>
      assert s.completed[0] in s.completed;
      assert TxnOk(s, s.completed[0]);
      if !AfterTake(s).died {
        TakeDecreases(s);
      }
    case ApplyOne(k) => ApplyDecreases(s, k);
    case Finish =>
      LockingAdmit.FinishLocksInv(s);
      FinishDecreases(s);
    case DispatchNext =>
      assert s.locks.ready[0] in s.locks.ready;
      DispatchDecreases(s);
    case ReadNext(t) => ReadDecreases(s, t);
    case RunProgram(t) =>
      if !AfterRun(s, t).died {
        RunDecreases(s, t);
      }
  }

  /** Idle moves change only the phase. */
  lemma IdleKeepsMeasure(s: State, e: Event)
    requires Enabled(s, e) && Idle(e)
    ensures Measure(Step(s, e)) == Measure(s) && Step(s, e) == s.(phase := Step(s, e).phase)
  {
    assert Ranks(Step(s, e)) == Ranks(s);
  }

  /***** Progress *****/

  /** What the scheduler thread does next when nobody interferes. */
  ghost function SchedulerNext(s: State): Event {
    match s.phase
    case Admit => if s.admitted < |s.txns| then AdmitNext else NothingToAdmit
    case Drain => if s.completed != [] then TakeCompleted else NothingCompleted
    case Apply(_, pending) => if pending == map[] then Finish else var k :| k in pending; ApplyOne(k)
    case Dispatch => if s.locks.ready != [] then DispatchNext else NothingReady
  }

  lemma SchedulerNextEnabled(s: State)
    requires Inv(s) && !s.died
    ensures Enabled(s, SchedulerNext(s))
  {
    if s.completed != [] {
      assert s.completed[0] in s.completed;
    }
    if s.locks.ready != [] {
      assert s.locks.ready[0] in s.locks.ready;
    }
    if s.phase.Apply? && s.phase.pending != map[] {
      assert s.phase.pending.Keys != {};
      var k :| k in s.phase.pending.Keys;
    }
  }

  /** The scheduler thread alone, for n steps. */
  ghost predicate SchedulerMoves(s: State, n: nat)
    requires Inv(s) && !s.died
    decreases n
  {
    SchedulerNextEnabled(s);
    StepKeepsInv(s, SchedulerNext(s));
    var s' := Step(s, SchedulerNext(s));
    0 < n && (!Idle(SchedulerNext(s)) || (!s'.died && SchedulerMoves(s', n - 1)))
  }

  /** It is finished, or never will be. */
  ghost predicate Settled(s: State, t: TxnId)
    requires t < |s.txns| == |s.log|
  {
    s.txns[t].stage == Finished || Starves(s.exclusiveOnly, s.log, t)
  }

  ghost predicate AllSettled(s: State)
    requires |s.log| == |s.txns|
  {
    forall t :: 0 <= t < |s.txns| ==> Settled(s, t)
  }

  /**
   * The oldest transaction that is neither finished nor starved holds all its locks, or is
   * still to be admitted.
   */
  lemma OldestRuns(s: State, t: TxnId)
    requires InvSize(s) && InvLocks(s) && t < |s.txns| && !Settled(s, t)
    requires forall u :: 0 <= u < t ==> Settled(s, u)
    ensures s.txns[t].stage != Blocked
    ensures s.txns[t].stage == Queued <==> s.admitted <= t
    ensures forall k :: s.txns[t].stage != Queued && k in Keys(s.log[t]) ==>
              LT.Holds(LT.QueueOf(s.locks.table, k), t)
  {
    hide InvLocks, Starves;
    if t < s.admitted {
      forall u | 0 <= u < t && s.txns[u].stage != Finished
        ensures Starves(s.exclusiveOnly, s.log, u)
      {
        assert Settled(s, u);
      }
      NotBehindStarved(s, t);
      forall k | k in Keys(s.log[t])
        ensures LT.Holds(LT.QueueOf(s.locks.table, k), t)
      {
        HoldsAll(s, t, k);
      }
    }
  }

  ghost function Oldest(s: State, from: nat): (t: nat)
    requires |s.log| == |s.txns| && from <= |s.txns| && forall u :: 0 <= u < from ==> Settled(s, u)
    ensures t <= |s.txns|
    ensures forall u :: 0 <= u < t ==> Settled(s, u)
    ensures t < |s.txns| ==> !Settled(s, t)
    decreases |s.txns| - from
  {
    if from < |s.txns| && Settled(s, from) then Oldest(s, from + 1) else from
  }

  /** The scheduler has something to do in one of its loops. */
  predicate Busy(s: State) {
    s.phase.Apply? || s.admitted < |s.txns| || s.completed != [] || s.locks.ready != []
  }

  /** In how many steps of its own the scheduler comes to it. */
  function Distance(s: State): nat {
    var a, c, r := s.admitted < |s.txns|, s.completed != [], s.locks.ready != [];
    match s.phase
    case Apply(_, _) => 1
    case Admit => if a then 1 else if c then 2 else 3
    case Drain => if c then 1 else if r then 2 else 3
    case Dispatch => if r then 1 else if a then 2 else 3
  }

  lemma {:induction false} BusyMoves(s: State, n: nat)
    requires Inv(s) && !s.died && Busy(s) && Distance(s) <= n
    ensures SchedulerMoves(s, n)
    decreases n
  {
    SchedulerNextEnabled(s);
    var e := SchedulerNext(s);
    if Idle(e) {
      StepKeepsInv(s, e);
      BusyMoves(Step(s, e), n - 1);
    }
  }

  /** Some worker thread can take a step. */
  ghost predicate WorkerEnabled(s: State) {
    exists t: TxnId :: t < |s.txns| && s.txns[t].stage.Reading?
  }

  /** A transaction that is neither blocked nor finished runs, or is in a queue the scheduler serves. */
  lemma InSomeQueue(s: State, t: TxnId)
    requires InvSize(s) && InvQueues(s) && t < |s.txns|
    requires s.txns[t].stage != Finished && s.txns[t].stage != Blocked
    ensures WorkerEnabled(s) || Busy(s)
  {
  }

  lemma WorkerEnabledSteps(s: State)
    requires |s.log| == |s.txns| && !s.died && WorkerEnabled(s)
    ensures exists t: TxnId :: Enabled(s, ReadNext(t)) || Enabled(s, RunProgram(t))
  {
    var t: TxnId :| t < |s.txns| && s.txns[t].stage.Reading?;
    assert Enabled(s, ReadNext(t)) || Enabled(s, RunProgram(t));
  }

  lemma OldestServed(s: State)
    requires InvSize(s) && InvQueues(s) && InvLocks(s) && !AllSettled(s)
    ensures WorkerEnabled(s) || Busy(s)
  {
    OldestRuns(s, Oldest(s, 0));
    InSomeQueue(s, Oldest(s, 0));
  }

  /** A worker can step, or the scheduler left alone does something within three steps. */
  ghost predicate CanMove(s: State) {
    || (exists t: TxnId :: Enabled(s, ReadNext(t)) || Enabled(s, RunProgram(t)))
    || (Inv(s) && !s.died && SchedulerMoves(s, 3))
  }

  lemma UnfinishedCanMove(s: State)
    requires Inv(s) && !s.died && !AllSettled(s)
    ensures CanMove(s)
  {
    OldestServed(s);
    if WorkerEnabled(s) {
      WorkerCanMove(s);
    } else {
      BusyCanMove(s);
    }
  }

  lemma WorkerCanMove(s: State)
    requires |s.log| == |s.txns| && !s.died && WorkerEnabled(s)
    ensures CanMove(s)
  {
    WorkerEnabledSteps(s);
  }

  lemma BusyCanMove(s: State)
    requires Inv(s) && !s.died && Busy(s)
    ensures CanMove(s)
  {
    BusyMoves(s, 3);
  }

  /** No reachable state is stuck with requests unfinished that do not starve. */
  lemma NeverStuck(exclusiveOnly: bool, init: Store, es: seq<Event>, s: State)
    requires Reaches(exclusiveOnly, init, es, s) && !s.died && |s.log| == |s.txns| && !AllSettled(s)
    ensures CanMove(s)
  {
    ReachedInv(exclusiveOnly, init, es, s);
    UnfinishedCanMove(s);
  }

  /***** Whole runs *****/

  /** The steps of a run that are neither new requests nor idle moves. */
  function Productive(es: seq<Event>): nat {
    if es == [] then 0
    else (if es[0].NewRequest? || Idle(es[0]) then 0 else 1) + Productive(es[1..])
  }

  /** The work the requests of a run bring in. */
  function Brought(es: seq<Event>): nat {
    if es == [] then 0
    else (if es[0].NewRequest? then Rank(Queued, es[0].req) else 0) + Brought(es[1..])
  }

  lemma NewRequestMeasure(s: State, req: Request)
    requires |s.log| == |s.txns|
    ensures Measure(LockingSteps.AfterNew(s, req)) == Measure(s) + Rank(Queued, req)
  {
    var rs := Ranks(LockingSteps.AfterNew(s, req));
    assert rs[..|rs| - 1] == Ranks(s);
  }

  /**
   * However the threads are interleaved, a run takes at most as many steps, idle moves aside,
   * as its requests brought in: five for each, one more for each declared key, and one more
   * for each declared write (the last step of a process that dies is not counted).
   */
  lemma {:induction false} WorkIsBounded(s: State, es: seq<Event>)
    requires Inv(s) && Legal(s, es)
    ensures |Run(s, es).log| == |Run(s, es).txns|
    ensures Productive(es) + Measure(Run(s, es)) <= Measure(s) + Brought(es) + if Run(s, es).died then 1 else 0
    decreases |es|
  {
    if es != [] {
      var s1 := Step(s, es[0]);
      StepKeepsInv(s, es[0]);
      WorkIsBounded(s1, es[1..]);
      if es[0].NewRequest? {
        NewRequestMeasure(s, es[0].req);
      } else if Idle(es[0]) {
        IdleKeepsMeasure(s, es[0]);
      } else {
        StepDecreases(s, es[0]);
        DeathIsLast(s, es[0], es[1..]);
      }
    }
  }

  lemma DeathIsLast(s: State, e: Event, es: seq<Event>)
    requires Enabled(s, e) && Legal(Step(s, e), es) && |s.log| == |s.txns|
    ensures Step(s, e).died && |Step(s, e).log| == |Step(s, e).txns| ==> es == [] && Measure(Step(s, e)) == Measure(s)
  {
    if Step(s, e).died && |Step(s, e).log| == |Step(s, e).txns| {
      assert Ranks(Step(s, e)) == Ranks(s);
    }
  }

  /** So a run from the start does no more than its requests bring in. */
  lemma RunsAreBounded(exclusiveOnly: bool, init: Store, es: seq<Event>, s: State)
    requires Reaches(exclusiveOnly, init, es, s)
    ensures Productive(es) <= Brought(es) + if s.died then 1 else 0
  {
    StartInv(exclusiveOnly, init);
    WorkIsBounded(Start(exclusiveOnly, init), es);
  }

  /***** Every run can be completed *****/

  lemma {:induction false} RunInTurn(s: State, es: seq<Event>, more: seq<Event>)
    requires Legal(s, es) && Legal(Run(s, es), more)
    ensures Legal(s, es + more) && Run(s, es + more) == Run(Run(s, es), more)
    decreases |es|
  {
    hide Step, Enabled;
    if es == [] {
      assert es + more == more;
    } else {
      RunInTurn(Step(s, es[0]), es[1..], more);
      assert (es + more)[1..] == es[1..] + more;
    }
  }

  lemma {:induction false} RequestsInTurn(es: seq<Event>, more: seq<Event>)
    ensures Requests(es + more) == Requests(es) + Requests(more)
  {
    if es == [] {
      assert es + more == more;
    } else {
      var all := es + more;
      assert all[1..] == es[1..] + more && all[0] == es[0];
      RequestsInTurn(es[1..], more);
      var made := if es[0].NewRequest? then [es[0].req] else [];
      assert Requests(all) == made + (Requests(es[1..]) + Requests(more));
    }
  }

  lemma OneStep(s: State, e: Event)
    requires Inv(s) && Enabled(s, e) && !e.NewRequest? && !Idle(e)
    ensures Legal(s, [e]) && Run(s, [e]) == Step(s, e) && Inv(Step(s, e)) && LessWork(s, Step(s, e))
  {
    StepKeepsInv(s, e);
    StepDecreases(s, e);
    hide Step, Enabled;
    assert [e][1..] == [];
    assert Legal(Step(s, e), []);
  }

  /** The scheduler thread's own steps up to the first that is not idle. */
  lemma {:induction false} SchedulerWorks(s: State, n: nat) returns (es: seq<Event>)
    requires Inv(s) && !s.died && SchedulerMoves(s, n)
    ensures |es| <= n && Requests(es) == []
    ensures Legal(s, es) && Inv(Run(s, es)) && LessWork(s, Run(s, es))
    decreases n
  {
    SchedulerNextEnabled(s);
    var e := SchedulerNext(s);
    if Idle(e) {
      StepKeepsInv(s, e);
      IdleKeepsMeasure(s, e);
      var rest := SchedulerWorks(Step(s, e), n - 1);
      es := [e] + rest;
      assert es[1..] == rest;
    } else {
      OneStep(s, e);
      es := [e];
    }
  }

  /** While something is to be done, some of the work can be done within three steps. */
  lemma SomeWork(s: State) returns (es: seq<Event>)
    requires Inv(s) && !s.died && !AllSettled(s)
    ensures |es| <= 3 && Requests(es) == []
    ensures Legal(s, es) && Inv(Run(s, es)) && LessWork(s, Run(s, es))
  {
    UnfinishedCanMove(s);
    if t: TxnId :| Enabled(s, ReadNext(t)) {
      OneStep(s, ReadNext(t));
      es := [ReadNext(t)];
    } else if t: TxnId :| Enabled(s, RunProgram(t)) {
      OneStep(s, RunProgram(t));
      es := [RunProgram(t)];
    } else {
      es := SchedulerWorks(s, 3);
    }
  }

  lemma {:induction false} SumAtLeast(ns: seq<nat>, i: nat)
    requires i < |ns|
    ensures ns[i] <= Sum(ns)
  {
    if i < |ns| - 1 {
      SumAtLeast(ns[..|ns| - 1], i);
    }
  }

  lemma UnfinishedWork(s: State)
    requires |s.log| == |s.txns| && !AllSettled(s)
    ensures 0 < Measure(s)
  {
    hide Starves;
    var t :| 0 <= t < |s.txns| && !Settled(s, t);
    SumAtLeast(Ranks(s), t);
  }

  lemma {:induction false} Completion(s: State) returns (es: seq<Event>)
    requires Inv(s)
    ensures Legal(s, es) && Requests(es) == [] && |es| <= 3 * Measure(s)
    ensures |Run(s, es).log| == |Run(s, es).txns| && Inv(Run(s, es))
    ensures Run(s, es).died || AllSettled(Run(s, es))
    decreases Measure(s)
  {
    if s.died || AllSettled(s) {
      es := [];
    } else {
      var some := SomeWork(s);
      UnfinishedWork(s);
      if Run(s, some).died {
        es := some;
      } else {
        var rest := Completion(Run(s, some));
        RunInTurn(s, some, rest);
        RequestsInTurn(some, rest);
        es := some + rest;
      }
    }
  }

  /** Where all are settled, those that do not starve, and no others, are finished. */
  lemma SettledIff(s: State)
    requires Inv(s) && AllSettled(s)
    ensures forall t :: 0 <= t < |s.txns| ==> (s.txns[t].stage == Finished <==> !Starves(s.exclusiveOnly, s.log, t))
  {
    hide InvLocks, InvStore, Starves;
    forall t | 0 <= t < |s.txns|
      ensures s.txns[t].stage == Finished <==> !Starves(s.exclusiveOnly, s.log, t)
    {
      assert Settled(s, t);
      if Starves(s.exclusiveOnly, s.log, t) {
        StarvedStays(s, t);
      }
    }
  }

  /**
   * From every reachable state, without any new request, the threads can go on until exactly
   * the transactions that do not starve are finished, or the process has died, in at most
   * three steps for each unit of the work that is left.
   */
  lemma CanComplete(exclusiveOnly: bool, init: Store, es: seq<Event>, s: State)
    returns (more: seq<Event>, end: State)
    requires Reaches(exclusiveOnly, init, es, s)
    ensures Reaches(exclusiveOnly, init, es + more, end) && Requests(es + more) == Requests(es)
    ensures |s.log| == |s.txns| && |more| <= 3 * Measure(s)
    ensures |end.txns| == |Requests(es)|
    ensures end.died || forall t :: 0 <= t < |end.txns| ==>
              (end.txns[t].stage == Finished <==> !Starves(exclusiveOnly, Requests(es), t))
  {
    hide InvLocks, InvQueues, InvStrict, InvData, Starves, Enabled, Step;
    ReachedInv(exclusiveOnly, init, es, s);
    more := Completion(s);
    end := Run(s, more);
    RunInTurn(Start(exclusiveOnly, init), es, more);
    RequestsInTurn(es, more);
    assert Requests(es) + [] == Requests(es);
    ReachedInv(exclusiveOnly, init, es + more, end);
    if !end.died {
      SettledIff(end);
      assert end.log == Requests(es) && end.exclusiveOnly == exclusiveOnly;
    }
  }
}

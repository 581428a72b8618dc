/** How transactions come to the ready queue. */
module LockingReady {
  import opened Transactions
  import LT = LockTable
  import opened LockingScheduler
  import opened LockingInvariant
  import opened LockingTheorems
  import LockingAdmit

  /** A transaction not yet requested counts as queued. */
  function StageAt(s: State, t: TxnId): Stage {
    if t < |s.txns| then s.txns[t].stage else Queued
  }

  function Level(st: Stage): nat {
    match st
    case Queued => 0
    case Blocked => 1
    case Ready => 2
    case Reading(_) => 3
    case Completed => 4
    case Committing => 5
    case Finished => 6
  }

  predicate Past(st: Stage) {
    Level(Ready) <= Level(st)
  }

  /** Stages only go up, and not beyond Ready without being Ready. */
  predicate Ascends(before: Stage, after: Stage) {
    Level(before) <= Level(after) && (!Past(before) && Past(after) ==> after == Ready)
  }

  lemma FinishAscends(s: State, t: TxnId)
    requires InvSize(s) && InvQueues(s) && InvLocks(s) && Enabled(s, Finish)
    ensures Ascends(StageAt(s, t), StageAt(AfterFinish(s), t))
  {
    LockingAdmit.FinishLocksInv(s);
    WakeAscends(s, NewlyReady(s.locks, AfterFinish(s).locks), t);
  }

  lemma WakeAscends(s: State, woken: seq<TxnId>, t: TxnId)
    requires s.phase.Apply? && s.phase.txn < |s.txns|
    requires s.txns[s.phase.txn].stage == Committing
    requires forall u :: u in woken ==> u < |s.txns| && s.txns[u].stage == Blocked
    ensures var x := s.txns[s.phase.txn];
            var txns := WakeStages(s.txns[s.phase.txn := x.(stage := Finished, status := Final(x.status))], woken);
            Ascends(StageAt(s, t), if t < |txns| then txns[t].stage else Queued)
  {
  }

  lemma TakeAscends(s: State, t: TxnId)
    requires InvQueues(s) && Enabled(s, TakeCompleted)
    ensures Ascends(StageAt(s, t), StageAt(AfterTake(s), t))
  {
    assert s.completed[0] in s.completed;
  }

  lemma DispatchAscends(s: State, t: TxnId)
    requires InvQueues(s) && Enabled(s, DispatchNext)
    ensures Ascends(StageAt(s, t), StageAt(AfterDispatch(s), t))
  {
    assert s.locks.ready[0] in s.locks.ready;
  }

  lemma AdmitAscends(s: State, t: TxnId)
    requires InvSize(s) && Enabled(s, AdmitNext)
    ensures Ascends(StageAt(s, t), StageAt(AfterAdmit(s), t))
  {
    assert s.txns[s.admitted].stage == Queued;
  }

  lemma StepAscends(s: State, e: Event, t: TxnId)
    requires InvSize(s) && InvQueues(s) && InvLocks(s) && Enabled(s, e)
    ensures Ascends(StageAt(s, t), StageAt(Step(s, e), t))
  {
    hide InvSize, InvQueues, InvLocks;
    match e
    case AdmitNext => AdmitAscends(s, t);
    case TakeCompleted => TakeAscends(s, t);
    case Finish => FinishAscends(s, t);
    case DispatchNext => DispatchAscends(s, t);
    case _ =>
  }

  /** A step that puts t on the ready queue. */
  predicate Enters(s: State, s': State, t: TxnId) {
    t !in s.locks.ready && t in s'.locks.ready
  }

  lemma InReadyIff(s: State, t: TxnId)
    requires InvQueues(s)
    ensures t in s.locks.ready <==> StageAt(s, t) == Ready
  {
  }

  lemma EntersIff(s: State, e: Event, t: TxnId)
    requires Inv(s) && Enabled(s, e)
    ensures Enters(s, Step(s, e), t) <==> !Past(StageAt(s, t)) && Past(StageAt(Step(s, e), t))
    ensures Past(StageAt(s, t)) ==> Past(StageAt(Step(s, e), t))
  {
    StepKeepsInv(s, e);
    StepAscends(s, e, t);
    InReadyIff(s, t);
    InReadyIff(Step(s, e), t);
  }

  /** How often t is put on the ready queue in a run. */
  function Entries(s: State, es: seq<Event>, t: TxnId): nat
    requires Legal(s, es)
    decreases |es|
  {
    if es == [] then 0
    else (if Enters(s, Step(s, es[0]), t) then 1 else 0) + Entries(Step(s, es[0]), es[1..], t)
  }

  lemma {:induction false} EntriesFrom(s: State, es: seq<Event>, t: TxnId)
    requires Inv(s) && Legal(s, es)
    ensures Entries(s, es, t) + (if Past(StageAt(s, t)) then 1 else 0) == if Past(StageAt(Run(s, es), t)) then 1 else 0
    decreases |es|
  {
    if es != [] {
      StepKeepsInv(s, es[0]);
      EntriesFrom(Step(s, es[0]), es[1..], t);
      EntersIff(s, es[0], t);
    }
  }

  /**
   * Over a whole run a transaction is put on the ready queue at most once, by the scheduler
   * or by a release, and exactly once if it has been dispatched.
   */
  lemma ReadyOnce(exclusiveOnly: bool, init: Store, es: seq<Event>, t: TxnId)
    requires Legal(Start(exclusiveOnly, init), es)
    ensures Entries(Start(exclusiveOnly, init), es, t) ==
            if Past(StageAt(Run(Start(exclusiveOnly, init), es), t)) then 1 else 0
  {
    StartInv(exclusiveOnly, init);
    EntriesFrom(Start(exclusiveOnly, init), es, t);
  }

  /** While it is on the ready queue it holds all its locks. */
  lemma ReadyHoldsAll(exclusiveOnly: bool, init: Store, es: seq<Event>, s: State, t: TxnId, k: Key)
    requires Reaches(exclusiveOnly, init, es, s) && t in s.locks.ready
    ensures t < |s.txns| == |s.log|
    ensures k in Keys(s.log[t]) ==> LT.Holds(LT.QueueOf(s.locks.table, k), t)
  {
    ReachedInv(exclusiveOnly, init, es, s);
    InReadyIff(s, t);
    if k in Keys(s.log[t]) {
      HoldsAll(s, t, k);
    }
  }

  ghost predicate DispatchedFirst(s: State) {
    s.phase == Admit ==> s.locks.ready == []
  }

  lemma StepDispatchesFirst(s: State, e: Event)
    requires DispatchedFirst(s) && Enabled(s, e)
    ensures DispatchedFirst(Step(s, e))
  {
    hide AdmitLocks, IsBlocked, FinishLocks, RunBuffered, WakeStages;
  }

  lemma {:induction false} RunDispatchesFirst(s: State, es: seq<Event>)
    requires DispatchedFirst(s) && Legal(s, es)
    ensures DispatchedFirst(Run(s, es))
    decreases |es|
  {
    hide DispatchedFirst, Enabled, Step;
    if es != [] {
      StepDispatchesFirst(s, es[0]);
      RunDispatchesFirst(Step(s, es[0]), es[1..]);
    }
  }

  /** Each of the scheduler's loops runs until its queue is empty; one request is admitted a round. */
  lemma LoopsRunDry(s: State, e: Event)
    requires Enabled(s, e)
    ensures Step(s, e).phase != s.phase && Step(s, e).phase == Dispatch ==> s.completed == [] && s.phase == Drain
    ensures Step(s, e).phase != s.phase && Step(s, e).phase == Admit ==> s.locks.ready == [] && s.phase == Dispatch
    ensures Step(s, e).admitted != s.admitted ==>
              s.phase == Admit && Step(s, e).phase == Drain && Step(s, e).admitted == s.admitted + 1
  {
    hide AdmitLocks, IsBlocked, FinishLocks, RunBuffered, WakeStages;
  }

  /** First in, first out: the oldest request, ready and completed transaction is the next one. */
  lemma QueuesInOrder(s: State, e: Event)
    requires Enabled(s, e) && !Step(s, e).died
    ensures e.AdmitNext? ==> forall t :: 0 <= t < |s.txns| && t != s.admitted ==> Step(s, e).txns[t] == s.txns[t]
    ensures e.DispatchNext? ==>
              var t := s.locks.ready[0];
              s.locks.ready == [t] + Step(s, e).locks.ready && Step(s, e).txns[t].stage == Reading(Keys(s.log[t]))
    ensures e.RunProgram? ==> Step(s, e).completed == s.completed + [e.txn]
    ensures e.TakeCompleted? ==> s.completed == [Step(s, e).phase.txn] + Step(s, e).completed && Step(s, e).phase.Apply?
    ensures e.Finish? ==> Step(s, e).results == s.results + [s.phase.txn]
  {
    hide AdmitLocks, IsBlocked, FinishLocks, RunBuffered, WakeStages;
  }

  /** Before the scheduler admits a request it has dispatched all that are ready. */
  lemma ReadyBeforeAdmit(exclusiveOnly: bool, init: Store, es: seq<Event>, s: State)
    requires Reaches(exclusiveOnly, init, es, s) && Enabled(s, AdmitNext)
    ensures s.locks.ready == []
    ensures forall t :: 0 <= t < |s.txns| ==> s.txns[t].stage != Ready
  {
    ReachedInv(exclusiveOnly, init, es, s);
    RunDispatchesFirst(Start(exclusiveOnly, init), es);
  }
}

/** Whole runs of the locking scheduler: serial equivalence and strict two-phase safety. */
module LockingTheorems {
  import opened Base
  import opened Transactions
  import LT = LockTable
  import opened LockingScheduler
  import opened LockingInvariant
  import opened LockingSteps
  import opened LockingAdmit

  lemma StartInv(exclusiveOnly: bool, init: Store)
    ensures Inv(Start(exclusiveOnly, init))
  {
    var s := Start(exclusiveOnly, init);
    assert forall t :: LT.WaitSet(s.locks.table, t) == {};
    assert LT.Inv(s.locks);
  }

  lemma StepKeepsInv(s: State, e: Event)
    requires Inv(s) && Enabled(s, e)
    ensures Inv(Step(s, e))
  {
    match e
    case NewRequest(req) => NewRequestKeepsInv(s, req);
    case AdmitNext => AdmitNextKeepsInv(s);
    case NothingToAdmit => IdleKeepsInv(s, Drain);
    case TakeCompleted => TakeCompletedKeepsInv(s);
    case ApplyOne(k) => ApplyOneKeepsInv(s, k);
    case Finish => FinishKeepsInv(s);
    case NothingCompleted => IdleKeepsInv(s, Dispatch);
    case DispatchNext => DispatchNextKeepsInv(s);
    case NothingReady => IdleKeepsInv(s, Admit);
    case ReadNext(t) => ReadNextKeepsInv(s, t);
    case RunProgram(t) => RunProgramKeepsInv(s, t);
  }

  /** The requests clients make in a run, in order. */
  function Requests(es: seq<Event>): seq<Request> {
    if es == [] then []
    else (if es[0].NewRequest? then [es[0].req] else []) + Requests(es[1..])
  }

  lemma StepLog(s: State, e: Event)
    requires Enabled(s, e)
    ensures var s' := Step(s, e);
            && s'.init == s.init && s'.exclusiveOnly == s.exclusiveOnly
            && s'.log == s.log + if e.NewRequest? then [e.req] else []
  {
  }

  lemma {:induction false} RunLog(s: State, es: seq<Event>)
    requires Legal(s, es)
    ensures var s' := Run(s, es);
            && s'.init == s.init && s'.exclusiveOnly == s.exclusiveOnly
            && s'.log == s.log + Requests(es)
    decreases |es|
  {
    hide Step, Enabled;
    if es != [] {
      StepLog(s, es[0]);
      RunLog(Step(s, es[0]), es[1..]);
      var made := if es[0].NewRequest? then [es[0].req] else [];
      assert s.log + made + Requests(es[1..]) == s.log + (made + Requests(es[1..]));
    }
  }

  lemma {:induction false} RunKeepsInv(s: State, es: seq<Event>)
    requires Inv(s) && Legal(s, es)
    ensures Inv(Run(s, es))
    decreases |es|
  {
    if es != [] {
      StepKeepsInv(s, es[0]);
      RunKeepsInv(Step(s, es[0]), es[1..]);
    }
  }

  /** The state some run reaches from the start. */
  ghost predicate Reaches(exclusiveOnly: bool, init: Store, es: seq<Event>, s: State) {
    Legal(Start(exclusiveOnly, init), es) && s == Run(Start(exclusiveOnly, init), es)
  }

  lemma ReachedInv(exclusiveOnly: bool, init: Store, es: seq<Event>, s: State)
    requires Reaches(exclusiveOnly, init, es, s)
    ensures Inv(s) && s.init == init && s.log == Requests(es) && s.exclusiveOnly == exclusiveOnly
  {
    StartInv(exclusiveOnly, init);
    RunKeepsInv(Start(exclusiveOnly, init), es);
    RunLog(Start(exclusiveOnly, init), es);
  }

  lemma FinishedValid(exclusiveOnly: bool, init: Store, es: seq<Event>, s: State, t: TxnId)
    requires Reaches(exclusiveOnly, init, es, s) && t < |s.txns| && s.txns[t].stage == Finished
    ensures t < |Requests(es)| && Valid(Requests(es)[t])
  {
    ReachedInv(exclusiveOnly, init, es, s);
  }

  predicate AllFinished(s: State) {
    forall t :: 0 <= t < |s.txns| ==> s.txns[t].stage == Finished
  }

  /** The transaction's final fields are the ones the serial scheduler leaves. */
  predicate SameAsSerial(x: Txn, o: Outcome) {
    && x.readBuf == o.readBuf && x.writeBuf == o.writeBuf
    && x.status == Final(o.status) && !Fatal(o)
  }

  /**
   * Serial equivalence. In every run, of either lock manager, with any interleaving of
   * clients, workers and scheduler: a finished transaction has read, written and voted what
   * the serial scheduler makes of it on the same request order, and once all are finished
   * the store is the serial one.
   */
  lemma SerialEquivalence(exclusiveOnly: bool, init: Store, es: seq<Event>, s: State)
    requires Reaches(exclusiveOnly, init, es, s)
    ensures |s.txns| == |Requests(es)|
    ensures forall t :: 0 <= t < |s.txns| && s.txns[t].stage == Finished ==>
              SameAsSerial(s.txns[t], SerialOutcome(init, Requests(es), t))
    ensures AllFinished(s) ==> s.store == SerialStore(init, Requests(es), |Requests(es)|)
  {
    ReachedInv(exclusiveOnly, init, es, s);
    var n := |s.txns|;
    forall t | 0 <= t < n && s.txns[t].stage == Finished
      ensures SameAsSerial(s.txns[t], SerialOutcome(init, Requests(es), t))
    {
      assert TxnOk(s, t);
    }
    if AllFinished(s) {
      FinalStore(s);
    }
  }

  /**
   * So the status a client gets back is the vote of the program run straight on the store of
   * its turn: a commit for a commit vote and an abort for an abort vote, nothing else.
   */
  lemma StatusIsVote(exclusiveOnly: bool, init: Store, es: seq<Event>, s: State, t: TxnId)
    requires Reaches(exclusiveOnly, init, es, s) && t < |s.txns| && s.txns[t].stage == Finished
    ensures t < |Requests(es)|
    ensures var x, r, before := s.txns[t], Requests(es)[t], DirectStore(init, Requests(es), t);
            var d := RunDirect(r, [], before);
            && !d.died
            && (x.status == Committed <==> d.status == CompletedC)
            && (x.status == Aborted <==> d.status == CompletedA)
            && d.store == before + x.writeBuf && x.readBuf == Fetch(d.store, Keys(r))
    ensures AllFinished(s) ==> s.store == DirectStore(init, Requests(es), |Requests(es)|)
  {
    hide RunDirect, RunBuffered, SerialStore, DirectStore;
    SerialEquivalence(exclusiveOnly, init, es, s);
    SerialIsDirect(init, Requests(es), t);
    SerialIsDirect(init, Requests(es), |Requests(es)|);
    var r, before := Requests(es)[t], SerialStore(init, Requests(es), t);
    BufferedRefinesDirect(r, before);
    OutcomeStatus(r, [], Fetch(before, Keys(r)), map[]);
  }

  lemma FinalStore(s: State)
    requires |s.log| == |s.txns| && InvStore(s) && AllFinished(s)
    requires s.phase.Apply? ==> s.txns[s.phase.txn].stage == Committing
    ensures s.store == Serial(s, |s.txns|)
  {
    forall k
      ensures Lookup(s.store, k) == Lookup(Serial(s, |s.txns|), k)
    {
      assert Boundary(s, k, |s.txns|);
    }
    assert forall k :: k in s.store <==> Lookup(s.store, k).Some?;
  }

  /** The process dies in a run only if the serial scheduler dies on one of the requests. */
  lemma DiesOnlySerially(exclusiveOnly: bool, init: Store, es: seq<Event>, s: State)
    requires Reaches(exclusiveOnly, init, es, s) && s.died
    ensures exists t :: 0 <= t < |Requests(es)| && Fatal(SerialOutcome(init, Requests(es), t))
  {
    ReachedInv(exclusiveOnly, init, es, s);
    var t :| 0 <= t < |s.log| && Fatal(Expected(s, t));
    assert Fatal(SerialOutcome(init, Requests(es), t));
  }

  /** A program that has all its keys runs as it does serially. */
  lemma RunsAsExpected(s: State, t: TxnId)
    requires t < |s.txns| == |s.log| && TxnOk(s, t) && s.txns[t].stage == Reading([])
    ensures RunBuffered(s.log[t], [], s.txns[t].readBuf, s.txns[t].writeBuf) == Expected(s, t)
  {
    assert Keys(s.log[t])[..|Keys(s.log[t])|] == Keys(s.log[t]);
  }

  lemma ExpectedDirectly(s: State, t: TxnId)
    requires t < |s.log|
    ensures var d := RunDirect(s.log[t], [], DirectStore(s.init, s.log, t));
            Expected(s, t).died == d.died && Expected(s, t).status == d.status
  {
    hide RunDirect, RunBuffered, SerialStore, DirectStore;
    SerialIsDirect(s.init, s.log, t);
    BufferedRefinesDirect(s.log[t], SerialStore(s.init, s.log, t));
  }

  /** The run of t, straight on the store of its turn. */
  function Serially(init: Store, log: seq<Request>, t: TxnId): Direct
    requires t < |log|
  {
    RunDirect(log[t], [], DirectStore(init, log, t))
  }

  /**
   * A worker dies exactly on a program that, run straight on the store of its turn, accesses a
   * key it has not declared, and the scheduler on taking one that has left without a vote.
   */
  lemma DiesWhere(exclusiveOnly: bool, init: Store, es: seq<Event>, s: State, e: Event)
    requires Reaches(exclusiveOnly, init, es, s) && Enabled(s, e)
    ensures |s.txns| == |Requests(es)|
    ensures e.RunProgram? ==> (Step(s, e).died <==> Serially(init, Requests(es), e.txn).died)
    ensures e.TakeCompleted? ==> (Step(s, e).died <==> Serially(init, Requests(es), s.completed[0]).status == Incomplete)
    ensures !e.RunProgram? && !e.TakeCompleted? ==> !Step(s, e).died
  {
    hide InvLocks, InvStrict;
    hide RunDirect, RunBuffered, DirectStore, AdmitLocks, FinishLocks, IsBlocked, WakeStages;
    ReachedInv(exclusiveOnly, init, es, s);
    if e.RunProgram? {
      RunsAsExpected(s, e.txn);
      ExpectedDirectly(s, e.txn);
    } else if e.TakeCompleted? {
      CompletedAsExpected(s, s.completed[0]);
      ExpectedDirectly(s, s.completed[0]);
    }
  }

  lemma CompletedAsExpected(s: State, t: TxnId)
    requires InvQueues(s) && |s.log| == |s.txns| && t in s.completed && t < |s.txns| && TxnOk(s, t)
    ensures s.txns[t].status == Expected(s, t).status
  {
  }

  /** A run that has come to its end has ended in death exactly if some request is fatal serially. */
  lemma DiesIff(exclusiveOnly: bool, init: Store, es: seq<Event>, s: State)
    requires Reaches(exclusiveOnly, init, es, s) && (s.died || AllFinished(s))
    ensures s.died <==> exists t :: 0 <= t < |Requests(es)| && Fatal(SerialOutcome(init, Requests(es), t))
  {
    SerialEquivalence(exclusiveOnly, init, es, s);
    if s.died {
      DiesOnlySerially(exclusiveOnly, init, es, s);
    }
  }

  /**
   * Strict two-phase safety: two transactions that conflict are never both between dispatch
   * and release, and each transaction there holds all its locks, so also while it commits.
   */
  lemma StrictTwoPhase(exclusiveOnly: bool, init: Store, es: seq<Event>, s: State, t: TxnId, k: Key)
    requires Reaches(exclusiveOnly, init, es, s)
    requires t < |s.txns| == |s.log| && Dispatched(s.txns[t].stage) && k in Keys(s.log[t])
    ensures LT.Holds(LT.QueueOf(s.locks.table, k), t)
    ensures forall u :: 0 <= u < |s.txns| && u != t && Dispatched(s.txns[u].stage) ==>
              !ConflictOn(exclusiveOnly, s.log[t], s.log[u], k)
  {
    ReachedInv(exclusiveOnly, init, es, s);
    DispatchedApart(s, t, k);
  }

  lemma DispatchedApart(s: State, t: TxnId, k: Key)
    requires InvSize(s) && InvLocks(s)
    requires t < |s.txns| && Dispatched(s.txns[t].stage) && k in Keys(s.log[t])
    ensures LT.Holds(LT.QueueOf(s.locks.table, k), t)
    ensures forall u :: 0 <= u < |s.txns| && u != t && Dispatched(s.txns[u].stage) ==>
              !ConflictOn(s.exclusiveOnly, s.log[t], s.log[u], k)
  {
    HoldsAll(s, t, k);
    forall u | 0 <= u < |s.txns| && u != t && Dispatched(s.txns[u].stage)
      ensures !ConflictOn(s.exclusiveOnly, s.log[t], s.log[u], k)
    {
      if u < t {
        Unblocked(s, u, t, k);
      } else {
        Unblocked(s, t, u, k);
      }
    }
  }

  /** Each finished transaction, and no other, has been returned, exactly once. */
  lemma ReturnedOnce(exclusiveOnly: bool, init: Store, es: seq<Event>, s: State)
    requires Reaches(exclusiveOnly, init, es, s)
    ensures NoDup(s.results)
    ensures forall t: TxnId :: t in s.results <==> t < |s.txns| && s.txns[t].stage == Finished
    ensures forall t: TxnId :: t in s.results ==> s.txns[t].status == Committed || s.txns[t].status == Aborted
    ensures AllFinished(s) ==> forall t: TxnId :: t in s.results <==> t < |Requests(es)|
  {
    ReachedInv(exclusiveOnly, init, es, s);
    forall t | t in s.results
      ensures t < |s.txns| && (s.txns[t].status == Committed || s.txns[t].status == Aborted)
    {
      assert TxnOk(s, t);
    }
  }
}

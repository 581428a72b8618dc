/**
 * The locking scheduler and its worker threads as a step system: `RunLockingScheduler`
 * moves through its three loops in turn, while clients add requests and any number of
 * workers, in any order, read the store key by key and run their programs.
 */
module LockingScheduler {
  import opened Transactions
  import LT = LockTable
  import opened LockSequences

  type TxnId = LT.TxnId

  /** Where a transaction is. Reading lists the keys `ExecuteTxn` has still to fetch. */
  datatype Stage = Queued | Blocked | Ready | Reading(todo: seq<Key>) | Completed | Committing | Finished

  /** The fields of a `Txn` that change. */
  datatype Txn = Txn(stage: Stage, readBuf: Store, writeBuf: Store, status: TxnStatus)

  /** Where the scheduler thread is. Apply lists the writes `ApplyWrites` has still to make. */
  datatype Phase = Admit | Drain | Apply(txn: TxnId, pending: Store) | Dispatch

  /**
   * Transaction t is the t-th request ever made. `log` and `init`, what was asked for and
   * the first store, are kept for the specification. Requests from `admitted` on are still
   * in `txn_requests_`.
   */
  datatype State = State(
    exclusiveOnly: bool, init: Store, log: seq<Request>,
    txns: seq<Txn>, admitted: nat, locks: LT.LockState, store: Store,
    completed: seq<TxnId>, results: seq<TxnId>, phase: Phase, died: bool)

  datatype Event =
    | NewRequest(req: Request)          // a client calls NewTxnRequest
    | AdmitNext | NothingToAdmit        // the scheduler's first block
    | TakeCompleted | ApplyOne(key: Key) | Finish | NothingCompleted
    | DispatchNext | NothingReady
    | ReadNext(txn: TxnId)              // a worker fetches one key
    | RunProgram(txn: TxnId)            // a worker runs the program and reports back

  function Start(exclusiveOnly: bool, init: Store): State {
    State(exclusiveOnly, init, [], [], 0, LT.LockState(map[], map[], []), init, [], [], Admit, false)
  }

  /***** Locks of one transaction *****/

  function ReadMode(exclusiveOnly: bool): LT.RequestMode {
    if exclusiveOnly then LT.Exclusive else LT.Shared
  }

  /** The lock table after requesting all of r's locks, read locks first. */
  function AdmitLocks(l: LT.LockState, t: TxnId, r: Request, exclusiveOnly: bool): LT.LockState {
    RequestKeys(RequestKeys(l, t, r.readset, ReadMode(exclusiveOnly)), t, r.writeset, LT.Exclusive)
  }

  /** The scheduler's flag: some lock was not acquired immediately. */
  predicate IsBlocked(l: LT.LockState, t: TxnId, r: Request, exclusiveOnly: bool) {
    || Refused(l, t, r.readset, ReadMode(exclusiveOnly))
    || Refused(RequestKeys(l, t, r.readset, ReadMode(exclusiveOnly)), t, r.writeset, LT.Exclusive)
  }

  function FinishLocks(l: LT.LockState, t: TxnId, r: Request): LT.LockState {
    ReleaseKeys(ReleaseKeys(l, t, r.readset), t, r.writeset)
  }

  /** Transactions that a release made ready leave the blocked stage. */
  function WakeStages(txns: seq<Txn>, woken: seq<TxnId>): (txns': seq<Txn>)
    ensures |txns'| == |txns|
    ensures forall i :: 0 <= i < |txns| ==> txns'[i] == if i in woken then txns[i].(stage := Ready) else txns[i]
  {
    seq(|txns|, i requires 0 <= i < |txns| => if i in woken then txns[i].(stage := Ready) else txns[i])
  }

  /***** Steps *****/

  /** A request's read set and write set are sets; they need not be disjoint. */
  predicate Enabled(s: State, e: Event) {
    && !s.died
    && |s.log| == |s.txns|
    && match e
       case NewRequest(req) => AreSets(req)
       case AdmitNext => s.phase == Admit && s.admitted < |s.txns|
       case NothingToAdmit => s.phase == Admit && s.admitted >= |s.txns|
       case TakeCompleted => s.phase == Drain && s.completed != [] && s.completed[0] < |s.txns|
       case ApplyOne(k) => s.phase.Apply? && k in s.phase.pending
       case Finish => s.phase.Apply? && s.phase.pending == map[] && s.phase.txn < |s.txns|
       case NothingCompleted => s.phase == Drain && s.completed == []
       case DispatchNext => s.phase == Dispatch && s.locks.ready != [] && s.locks.ready[0] < |s.txns|
       case NothingReady => s.phase == Dispatch && s.locks.ready == []
       case ReadNext(t) => t < |s.txns| && s.txns[t].stage.Reading? && s.txns[t].stage.todo != []
       case RunProgram(t) => t < |s.txns| && s.txns[t].stage == Reading([])
  }

  /** The requests made, the first store and the lock manager's kind are those of the run. */
  ghost predicate SameRun(s: State, s': State) {
    s'.log == s.log && s'.init == s.init && s'.exclusiveOnly == s.exclusiveOnly
  }

  /** Pops the oldest request, asks for all its locks, and makes it ready if it got them. */
  function AfterAdmit(s: State): (s': State)
    requires s.admitted < |s.txns| == |s.log|
    ensures SameRun(s, s')
  {
    var t := s.admitted;
    var r := s.log[t];
    var locks := AdmitLocks(s.locks, t, r, s.exclusiveOnly);
    var blocked := IsBlocked(s.locks, t, r, s.exclusiveOnly);
    s.(admitted := t + 1, phase := Drain,
       txns := s.txns[t := s.txns[t].(stage := if blocked then Blocked else Ready)],
       locks := if blocked then locks else locks.(ready := locks.ready + [t]))
  }

  /** Pops a completed transaction and starts to apply its writes, if it voted to commit. */
  function AfterTake(s: State): (s': State)
    requires s.completed != [] && s.completed[0] < |s.txns|
    ensures SameRun(s, s')
  {
    var t := s.completed[0];
    if s.txns[t].status == Incomplete then s.(died := true)
    else
      s.(completed := s.completed[1..],
         phase := Apply(t, if s.txns[t].status == CompletedC then s.txns[t].writeBuf else map[]),
         txns := s.txns[t := s.txns[t].(stage := Committing)])
  }

  /** Sets the final status, releases all locks and returns the result to the client. */
  function AfterFinish(s: State): (s': State)
    requires s.phase.Apply? && s.phase.txn < |s.txns| == |s.log|
    ensures SameRun(s, s')
  {
    var t := s.phase.txn;
    var locks := FinishLocks(s.locks, t, s.log[t]);
    var txns := s.txns[t := s.txns[t].(stage := Finished, status := Final(s.txns[t].status))];
    s.(locks := locks, txns := WakeStages(txns, NewlyReady(s.locks, locks)),
       results := s.results + [t], phase := Drain)
  }

  function NewlyReady(before: LT.LockState, after: LT.LockState): seq<TxnId> {
    if |before.ready| <= |after.ready| then after.ready[|before.ready|..] else []
  }

  /** Hands the first ready transaction to the thread pool. */
  function AfterDispatch(s: State): (s': State)
    requires s.locks.ready != [] && s.locks.ready[0] < |s.txns| == |s.log|
    ensures SameRun(s, s')
  {
    var t := s.locks.ready[0];
    s.(locks := s.locks.(ready := s.locks.ready[1..]),
       txns := s.txns[t := s.txns[t].(stage := Reading(Keys(s.log[t])))])
  }

  /** x after fetching the next of its keys, if the store has it. */
  function FetchedNext(x: Txn, store: Store): Txn
    requires x.stage.Reading? && x.stage.todo != []
  {
    var k := x.stage.todo[0];
    x.(stage := Reading(x.stage.todo[1..]),
       readBuf := if k in store then x.readBuf[k := store[k]] else x.readBuf)
  }

  function AfterRead(s: State, t: TxnId): (s': State)
    requires t < |s.txns| && s.txns[t].stage.Reading? && s.txns[t].stage.todo != []
    ensures SameRun(s, s')
  {
    s.(txns := s.txns[t := FetchedNext(s.txns[t], s.store)])
  }

  /** A worker runs the program and pushes the transaction on the completed queue. */
  function AfterRun(s: State, t: TxnId): (s': State)
    requires t < |s.txns| == |s.log|
    ensures SameRun(s, s')
  {
    var o := RunBuffered(s.log[t], [], s.txns[t].readBuf, s.txns[t].writeBuf);
    if o.died then s.(died := true)
    else
      s.(txns := s.txns[t := Txn(Completed, o.readBuf, o.writeBuf, o.status)],
         completed := s.completed + [t])
  }

  function Step(s: State, e: Event): State
    requires Enabled(s, e)
  {
    match e
    case NewRequest(req) =>
      s.(log := s.log + [req], txns := s.txns + [Txn(Queued, map[], map[], Incomplete)])
    case AdmitNext => AfterAdmit(s)
    case NothingToAdmit => s.(phase := Drain)
    case TakeCompleted => AfterTake(s)
    case ApplyOne(k) =>
      s.(store := s.store[k := s.phase.pending[k]],
         phase := s.phase.(pending := s.phase.pending - {k}))
    case Finish => AfterFinish(s)
    case NothingCompleted => s.(phase := Dispatch)
    case DispatchNext => AfterDispatch(s)
    case NothingReady => s.(phase := Admit)
    case ReadNext(t) => AfterRead(s, t)
    case RunProgram(t) => AfterRun(s, t)
  }

  /***** Runs *****/

  predicate Legal(s: State, es: seq<Event>)
    decreases |es|
  {
    es == [] || (Enabled(s, es[0]) && Legal(Step(s, es[0]), es[1..]))
  }

  function Run(s: State, es: seq<Event>): State
    requires Legal(s, es)
    decreases |es|
  {
    if es == [] then s else Run(Step(s, es[0]), es[1..])
  }
}

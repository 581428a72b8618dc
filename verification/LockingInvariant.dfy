/** What every step of the locking scheduler keeps. */
module LockingInvariant {
  import opened Base
  import opened Transactions
  import LT = LockTable
  import opened LockingScheduler

  /***** Conflicts and liveness *****/

  /** Admitted, and its locks not yet released. */
  predicate Live(st: Stage) {
    st != Queued && st != Finished
  }

  /** Between dispatch and release. */
  predicate Dispatched(st: Stage) {
    st.Reading? || st == Completed || st == Committing
  }

  function Mode(exclusiveOnly: bool, r: Request, k: Key): LT.RequestMode {
    if exclusiveOnly || k in r.writeset then LT.Exclusive else LT.Shared
  }

  /** Both use k and may not share it. */
  predicate ConflictOn(exclusiveOnly: bool, a: Request, b: Request, k: Key) {
    k in Keys(a) && k in Keys(b) &&
    !(Mode(exclusiveOnly, a, k) == LT.Shared && Mode(exclusiveOnly, b, k) == LT.Shared)
  }

  /***** The invariant *****/

  ghost predicate InvSize(s: State) {
    && |s.log| == |s.txns|
    && s.admitted <= |s.txns|
    && (forall t :: 0 <= t < |s.txns| ==> AreSets(s.log[t]) && (t < s.admitted <==> s.txns[t].stage != Queued))
  }

  /** q holds, once each, the transactions at that stage. */
  ghost predicate Lists(q: seq<TxnId>, txns: seq<Txn>, st: Stage) {
    && NoDup(q)
    && (forall t :: t in q ==> t < |txns| && txns[t].stage == st)
    && (forall t :: 0 <= t < |txns| && txns[t].stage == st ==> t in q)
  }

  ghost predicate InvQueues(s: State) {
    && Lists(s.locks.ready, s.txns, Ready)
    && Lists(s.completed, s.txns, Completed)
    && Lists(s.results, s.txns, Finished)
    && (s.phase.Apply? ==> s.phase.txn < |s.txns|)
    && (forall t :: 0 <= t < |s.txns| ==> (s.txns[t].stage == Committing <==> s.phase.Apply? && s.phase.txn == t))
  }

  ghost predicate Ascending(q: LT.Queue) {
    forall i, j :: 0 <= i < j < |q| ==> q[i].txn <= q[j].txn
  }

  /** r's read lock on k is asked for in that mode, or its write lock is. */
  predicate AsksFor(exclusiveOnly: bool, r: Request, k: Key, mode: LT.RequestMode) {
    (k in r.readset && mode == ReadMode(exclusiveOnly)) || (k in r.writeset && mode == LT.Exclusive)
  }

  /** Every request in q is a live transaction's that declares k. */
  ghost predicate Members(q: LT.Queue, k: Key, exclusiveOnly: bool, log: seq<Request>, live: set<TxnId>) {
    forall i :: 0 <= i < |q| ==>
      q[i].txn in live && q[i].txn < |log| && AsksFor(exclusiveOnly, log[q[i].txn], k, q[i].mode)
  }

  /** t, if it declares k, is in q in its mode, and twice exactly if k is in both its sets. */
  ghost predicate Covered(q: LT.Queue, k: Key, exclusiveOnly: bool, log: seq<Request>, t: TxnId) {
    t < |log| ==>
      && (k in Keys(log[t]) ==> LT.LockRequest(t, Mode(exclusiveOnly, log[t], k)) in q)
      && (LT.Doubled(q, t) <==> k in log[t].readset && k in log[t].writeset)
  }

  ghost predicate Covers(q: LT.Queue, k: Key, exclusiveOnly: bool, log: seq<Request>, live: set<TxnId>) {
    forall t :: t in live ==> Covered(q, k, exclusiveOnly, log, t)
  }

  /** q holds the live transactions that declare k, in request order, in their modes. */
  ghost predicate QueueMatches(q: LT.Queue, k: Key, exclusiveOnly: bool, log: seq<Request>, live: set<TxnId>) {
    Ascending(q) && Members(q, k, exclusiveOnly, log, live) && Covers(q, k, exclusiveOnly, log, live)
  }

  /** The lock state of these live and these blocked transactions. */
  ghost predicate LocksMatch(l: LT.LockState, exclusiveOnly: bool, log: seq<Request>,
                             live: set<TxnId>, blocked: set<TxnId>) {
    && LT.Inv(l)
    && l.waits.Keys == blocked
    && (forall k :: QueueMatches(LT.QueueOf(l.table, k), k, exclusiveOnly, log, live))
  }

  ghost function LiveSet(txns: seq<Txn>): (live: set<TxnId>)
    ensures forall t: TxnId :: t in live <==> t < |txns| && Live(txns[t].stage)
  {
    set t: TxnId | 0 <= t < |txns| && Live(txns[t].stage)
  }

  ghost function BlockedSet(txns: seq<Txn>): (blocked: set<TxnId>)
    ensures forall t: TxnId :: t in blocked <==> t < |txns| && txns[t].stage == Blocked
  {
    set t: TxnId | 0 <= t < |txns| && txns[t].stage == Blocked
  }

  /** The blocked transactions are those that wait, and the queues are those of the live ones. */
  ghost predicate InvLocks(s: State) {
    LocksMatch(s.locks, s.exclusiveOnly, s.log, LiveSet(s.txns), BlockedSet(s.txns))
  }

  ghost predicate QueueOk(s: State, k: Key) {
    QueueMatches(LT.QueueOf(s.locks.table, k), k, s.exclusiveOnly, s.log, LiveSet(s.txns))
  }

  /** A finished transaction has disjoint sets, and conflicts with no earlier unfinished one. */
  ghost predicate InvStrict(s: State)
    requires |s.log| == |s.txns|
  {
    && (forall t :: 0 <= t < |s.txns| && s.txns[t].stage == Finished ==> Valid(s.log[t]))
    && forall t, u, k :: 0 <= t < u < |s.txns| && s.txns[u].stage == Finished && s.txns[t].stage != Finished ==>
      !ConflictOn(s.exclusiveOnly, s.log[t], s.log[u], k)
  }

  ghost function Serial(s: State, i: nat): Store
    requires i <= |s.log|
  {
    SerialStore(s.init, s.log, i)
  }

  ghost function Expected(s: State, t: TxnId): Outcome
    requires t < |s.log|
  {
    SerialOutcome(s.init, s.log, t)
  }

  /** What x has read and computed so far is what the serial scheduler reads and computes. */
  ghost predicate Matches(x: Txn, keys: seq<Key>, serial: Store, o: Outcome) {
    match x.stage
    case Reading(todo) =>
      && x.writeBuf == map[] && x.status == Incomplete
      && |todo| <= |keys| && todo == keys[|keys| - |todo|..]
      && x.readBuf == Fetch(serial, keys[..|keys| - |todo|])
    case Completed => !o.died && x.readBuf == o.readBuf && x.writeBuf == o.writeBuf && x.status == o.status
    case Committing =>
      !Fatal(o) && x.readBuf == o.readBuf && x.writeBuf == o.writeBuf && x.status == o.status
    case Finished =>
      !Fatal(o) && x.readBuf == o.readBuf && x.writeBuf == o.writeBuf && x.status == Final(o.status)
    case _ => x.readBuf == map[] && x.writeBuf == map[] && x.status == Incomplete
  }

  ghost predicate TxnOk(s: State, t: TxnId)
    requires t < |s.txns| == |s.log|
  {
    Matches(s.txns[t], Keys(s.log[t]), Serial(s, t), Expected(s, t))
  }

  /** Of k's declared writers, exactly those before i have finished. */
  ghost predicate Boundary(s: State, k: Key, i: nat)
    requires |s.log| == |s.txns|
  {
    forall t :: 0 <= t < |s.txns| && k in s.log[t].writeset ==> (t < i <==> s.txns[t].stage == Finished)
  }

  /** The write of the committing transaction that ApplyWrites has already made to k. */
  ghost function Applied(s: State, k: Key): Option<Value>
    requires |s.log| == |s.txns|
  {
    if s.phase.Apply? && s.phase.txn < |s.txns| && k !in s.phase.pending
    then Lookup(Effects(Expected(s, s.phase.txn)), k) else None
  }

  /** The writes still to be made are the committing transaction's. */
  ghost predicate PendingOk(s: State, t: TxnId, pending: Store)
    requires t < |s.txns| == |s.log|
  {
    forall k :: k in pending ==> Lookup(Effects(Expected(s, t)), k) == Some(pending[k])
  }

  /** The store holds, key by key, the serial value after the finished writers. */
  ghost predicate InvStore(s: State)
    requires |s.log| == |s.txns|
  {
    && (s.phase.Apply? ==> s.phase.txn < |s.txns| && PendingOk(s, s.phase.txn, s.phase.pending))
    && (forall k, i :: 0 <= i <= |s.txns| && Boundary(s, k, i) ==>
          Lookup(s.store, k) == if Applied(s, k).Some? then Applied(s, k) else Lookup(Serial(s, i), k))
  }

  ghost predicate InvData(s: State)
    requires |s.log| == |s.txns|
  {
    && (forall t :: 0 <= t < |s.txns| ==> TxnOk(s, t))
    && InvStore(s)
    && (s.died ==> exists t :: 0 <= t < |s.log| && Fatal(Expected(s, t)))
  }

  ghost predicate Inv(s: State) {
    InvSize(s) && InvQueues(s) && InvLocks(s) && InvStrict(s) && InvData(s)
  }

  /***** What the locks guarantee *****/

  lemma LiveCovered(s: State, t: TxnId, k: Key)
    requires InvLocks(s) && t < |s.txns| && Live(s.txns[t].stage)
    ensures Covered(LT.QueueOf(s.locks.table, k), k, s.exclusiveOnly, s.log, t)
  {
    assert QueueOk(s, k);
  }

  /** A transaction with a key in both sets waits behind itself. */
  lemma NotBlockedValid(s: State, t: TxnId)
    requires InvSize(s) && InvLocks(s)
    requires t < |s.txns| && Live(s.txns[t].stage) && s.txns[t].stage != Blocked
    ensures Valid(s.log[t])
  {
    hide LT.Doubled;
    ValidIff(s.log[t]);
    LT.WaitsIff(s.locks, t);
    forall k | k in s.log[t].readset
      ensures k !in s.log[t].writeset
    {
      LiveCovered(s, t, k);
      assert !LT.Doubled(LT.QueueOf(s.locks.table, k), t);
    }
  }

  /** A live transaction that is not blocked holds every lock it asked for. */
  lemma HoldsAll(s: State, t: TxnId, k: Key)
    requires InvSize(s) && InvLocks(s)
    requires t < |s.txns| && Live(s.txns[t].stage) && s.txns[t].stage != Blocked && k in Keys(s.log[t])
    ensures LT.Holds(LT.QueueOf(s.locks.table, k), t)
  {
    LiveCovered(s, t, k);
    LT.WaitsIff(s.locks, t);
    var q := LT.QueueOf(s.locks.table, k);
    var i :| 0 <= i < |q| && q[i] == LT.LockRequest(t, Mode(s.exclusiveOnly, s.log[t], k));
    assert LT.Find(q, t) < |q| && !LT.Waits(q, t);
  }

  /** Of two requests in the queue that may not be shared, the later one is not granted. */
  lemma BehindConflict(q: LT.Queue, i: nat, j: nat)
    requires i < j < |q| && (q[i].mode == LT.Exclusive || q[j].mode == LT.Exclusive)
    ensures LT.Granted(q) <= j
  {
    LT.GrantedIff(q, j);
  }

  /** The holder of a queued lock shares it with every live transaction queued before it. */
  lemma HolderShares(s: State, t: TxnId, u: TxnId, k: Key)
    requires |s.log| == |s.txns| && QueueOk(s, k)
    requires t < u < |s.txns| && Live(s.txns[t].stage) && k in Keys(s.log[t]) && Live(s.txns[u].stage)
    requires Valid(s.log[u]) && k in Keys(s.log[u]) && LT.Holds(LT.QueueOf(s.locks.table, k), u)
    ensures !ConflictOn(s.exclusiveOnly, s.log[t], s.log[u], k)
  {
    hide LT.Granted, Covers, Members;
    var q := LT.QueueOf(s.locks.table, k);
    LiveMode(s, t, k);
    LiveMode(s, u, k);
    var i :| 0 <= i < |q| && q[i] == LT.LockRequest(t, Mode(s.exclusiveOnly, s.log[t], k));
    var j := LT.Find(q, u);
    OnlyMode(s, u, k, j);
    assert i < j;
    if ConflictOn(s.exclusiveOnly, s.log[t], s.log[u], k) {
      BehindConflict(q, i, j);
    }
  }

  lemma LiveMode(s: State, t: TxnId, k: Key)
    requires |s.log| == |s.txns| && QueueOk(s, k) && t < |s.txns| && Live(s.txns[t].stage) && k in Keys(s.log[t])
    ensures LT.LockRequest(t, Mode(s.exclusiveOnly, s.log[t], k)) in LT.QueueOf(s.locks.table, k)
  {
    assert Covered(LT.QueueOf(s.locks.table, k), k, s.exclusiveOnly, s.log, t);
  }

  /** With disjoint sets, a transaction's request is in its one mode. */
  lemma OnlyMode(s: State, u: TxnId, k: Key, j: nat)
    requires |s.log| == |s.txns| && QueueOk(s, k) && u < |s.txns| && Valid(s.log[u])
    requires j < |LT.QueueOf(s.locks.table, k)| && LT.QueueOf(s.locks.table, k)[j].txn == u
    ensures LT.QueueOf(s.locks.table, k)[j].mode == Mode(s.exclusiveOnly, s.log[u], k)
  {
    ValidIff(s.log[u]);
  }

  /** So a transaction that is not blocked conflicts with no earlier unfinished one. */
  lemma Unblocked(s: State, t: TxnId, u: TxnId, k: Key)
    requires InvSize(s) && InvLocks(s)
    requires t < u < |s.txns| && s.txns[t].stage != Finished
    requires Live(s.txns[u].stage) && s.txns[u].stage != Blocked
    ensures !ConflictOn(s.exclusiveOnly, s.log[t], s.log[u], k)
  {
    if k in Keys(s.log[t]) && k in Keys(s.log[u]) {
      NotBlockedValid(s, u);
      HoldsAll(s, u, k);
      HolderShares(s, t, u, k);
    }
  }

  /**
   * A live transaction with disjoint sets is not blocked if every earlier unfinished one that
   * declares one of its keys may share it.
   */
  lemma SharersDoNotBlock(s: State, t: TxnId)
    requires InvSize(s) && InvLocks(s)
    requires t < |s.txns| && Live(s.txns[t].stage) && Valid(s.log[t])
    requires forall u, k :: 0 <= u < t && s.txns[u].stage != Finished ==>
               !ConflictOn(s.exclusiveOnly, s.log[u], s.log[t], k)
    ensures s.txns[t].stage != Blocked
  {
    LT.WaitsIff(s.locks, t);
    forall k
      ensures !LT.Waits(LT.QueueOf(s.locks.table, k), t) && !LT.Doubled(LT.QueueOf(s.locks.table, k), t)
    {
      NotWaiting(s, t, k);
    }
  }

  /** Requests of transactions that may share the key are shared. */
  lemma BothShared(s: State, k: Key, i: nat, j: nat)
    requires |s.log| == |s.txns| && QueueOk(s, k) && i < j < |LT.QueueOf(s.locks.table, k)|
    requires var q := LT.QueueOf(s.locks.table, k);
             q[i].txn < |s.log| && q[j].txn < |s.log| && !ConflictOn(s.exclusiveOnly, s.log[q[i].txn], s.log[q[j].txn], k)
    ensures LT.QueueOf(s.locks.table, k)[i].mode == LT.Shared && LT.QueueOf(s.locks.table, k)[j].mode == LT.Shared
  {
  }

  lemma NotWaiting(s: State, t: TxnId, k: Key)
    requires InvSize(s) && InvLocks(s)
    requires t < |s.txns| && Live(s.txns[t].stage) && Valid(s.log[t])
    requires forall u :: 0 <= u < t && s.txns[u].stage != Finished ==>
               !ConflictOn(s.exclusiveOnly, s.log[u], s.log[t], k)
    ensures !LT.Waits(LT.QueueOf(s.locks.table, k), t) && !LT.Doubled(LT.QueueOf(s.locks.table, k), t)
  {
    hide LT.Granted, LT.Doubled;
    assert QueueOk(s, k);
    LiveCovered(s, t, k);
    ValidIff(s.log[t]);
    var q := LT.QueueOf(s.locks.table, k);
    var f := LT.Find(q, t);
    if f < |q| {
      OnlyMode(s, t, k, f);
      forall i | 0 <= i < f
        ensures q[i].mode == LT.Shared && q[f].mode == LT.Shared
      {
        assert q[i].txn < t;
        BothShared(s, k, i, f);
      }
      LT.GrantedIff(q, f);
    }
  }

  /** So the oldest unfinished one is not blocked. */
  lemma OldestHoldsAll(s: State, t: TxnId)
    requires InvSize(s) && InvLocks(s)
    requires t < |s.txns| && Live(s.txns[t].stage) && Valid(s.log[t])
    requires forall u :: 0 <= u < t ==> s.txns[u].stage == Finished
    ensures s.txns[t].stage != Blocked
  {
    SharersDoNotBlock(s, t);
  }
}

/** Every step of the locking scheduler keeps its invariant. */
module LockingSteps {
  import opened Base
  import opened Transactions
  import LT = LockTable
  import opened LockingScheduler
  import opened LockingInvariant

  /***** Frames *****/

  /** The two states agree on everything about the requests but their stages and buffers. */
  ghost predicate SameRequests(s: State, s': State) {
    && s'.log == s.log && s'.init == s.init && s'.exclusiveOnly == s.exclusiveOnly
    && |s.log| == |s.txns| == |s'.txns|
  }

  lemma LocksFrame(s: State, s': State)
    requires SameRequests(s, s') && InvLocks(s)
    requires s'.locks.table == s.locks.table && s'.locks.waits == s.locks.waits
    requires forall t :: 0 <= t < |s.txns| ==> (Live(s'.txns[t].stage) <==> Live(s.txns[t].stage))
    requires forall t :: 0 <= t < |s.txns| ==> (s'.txns[t].stage == Blocked <==> s.txns[t].stage == Blocked)
    ensures InvLocks(s')
  {
    assert LiveSet(s'.txns) == LiveSet(s.txns) && BlockedSet(s'.txns) == BlockedSet(s.txns);
  }

  lemma StrictFrame(s: State, s': State)
    requires SameRequests(s, s') && InvStrict(s)
    requires forall t :: 0 <= t < |s.txns| ==> (s'.txns[t].stage == Finished <==> s.txns[t].stage == Finished)
    ensures InvStrict(s')
  {
  }

  /** The store part, while no transaction finishes and ApplyWrites makes no write. */
  lemma StoreFrame(s: State, s': State)
    requires SameRequests(s, s') && InvStore(s)
    requires forall t :: 0 <= t < |s.txns| ==> (s'.txns[t].stage == Finished <==> s.txns[t].stage == Finished)
    requires s'.store == s.store
    requires s'.phase == s.phase || (!s'.phase.Apply? && !s.phase.Apply?)
    ensures InvStore(s')
  {
    forall k, i | 0 <= i <= |s'.txns| && Boundary(s', k, i)
      ensures Lookup(s'.store, k) == if Applied(s', k).Some? then Applied(s', k) else Lookup(Serial(s', i), k)
    {
      assert Boundary(s, k, i);
    }
  }

  /** The data part, when one transaction changes and neither finishes nor writes. */
  lemma DataFrame(s: State, s': State, t: TxnId)
    requires SameRequests(s, s') && InvData(s)
    requires forall u :: 0 <= u < |s.txns| && u != t ==> s'.txns[u] == s.txns[u]
    requires t < |s.txns| && TxnOk(s', t)
    requires s'.txns[t].stage == Finished <==> s.txns[t].stage == Finished
    requires s'.store == s.store
    requires s'.phase == s.phase || (!s'.phase.Apply? && !s.phase.Apply?)
    requires s'.died ==> s.died || Fatal(Expected(s', t))
    ensures InvData(s')
  {
    StoreFrame(s, s');
    forall u | 0 <= u < |s'.txns|
      ensures TxnOk(s', u)
    {
      assert TxnOk(s, u);
    }
    if s'.died && !Fatal(Expected(s', t)) {
      var u :| 0 <= u < |s.log| && Fatal(Expected(s, u));
      assert Fatal(Expected(s', u));
    }
  }

  /** One transaction moves between queues, nothing else changes stage. */
  lemma PushKeepsLists(q: seq<TxnId>, txns: seq<Txn>, t: TxnId, x: Txn)
    requires t < |txns| && Lists(q, txns, x.stage) && txns[t].stage != x.stage
    ensures Lists(q + [t], txns[t := x], x.stage)
  {
    assert t !in q;
  }

  lemma PopKeepsLists(q: seq<TxnId>, txns: seq<Txn>, x: Txn, st: Stage)
    requires q != [] && Lists(q, txns, st) && x.stage != st
    ensures q[0] < |txns| && Lists(q[1..], txns[q[0] := x], st)
  {
    assert q[0] in q;
    assert forall u :: u in q <==> u == q[0] || u in q[1..];
  }

  lemma OtherLists(q: seq<TxnId>, txns: seq<Txn>, t: TxnId, x: Txn, st: Stage)
    requires t < |txns| && Lists(q, txns, st) && (x.stage == st <==> txns[t].stage == st)
    ensures Lists(q, txns[t := x], st)
  {
  }

  /** The four frames together, for a step that changes t's record only. */
  ghost predicate ChangesOne(s: State, s': State, t: TxnId) {
    && SameRequests(s, s') && t < |s.txns| && s'.txns == s.txns[t := s'.txns[t]]
    && s'.admitted == s.admitted && s'.store == s.store
    && s'.locks.table == s.locks.table && s'.locks.waits == s.locks.waits
    && Live(s'.txns[t].stage) && Live(s.txns[t].stage)
    && s'.txns[t].stage != Blocked && s.txns[t].stage != Blocked
  }

  lemma OneFrame(s: State, s': State, t: TxnId)
    requires ChangesOne(s, s', t) && InvSize(s) && InvLocks(s) && InvStrict(s)
    ensures InvSize(s') && InvLocks(s') && InvStrict(s')
  {
    LocksFrame(s, s');
    StrictFrame(s, s');
  }

  /***** Worker steps *****/

  /** Fetching the next key from a store that agrees on it with the serial one. */
  lemma FetchNext(x: Txn, store: Store, keys: seq<Key>, serial: Store, o: Outcome)
    requires x.stage.Reading? && x.stage.todo != [] && Matches(x, keys, serial, o)
    requires Lookup(store, x.stage.todo[0]) == Lookup(serial, x.stage.todo[0])
    ensures Matches(FetchedNext(x, store), keys, serial, o)
  {
    var n := |keys| - |x.stage.todo|;
    assert keys[n] == x.stage.todo[0];
    assert keys[..n + 1] == keys[..n] + [x.stage.todo[0]];
  }

  /** The first request after t that declares to write k. */
  ghost function NextWriter(s: State, t: TxnId, k: Key): (i: nat)
    requires t <= |s.log|
    ensures t <= i <= |s.log|
    ensures forall u :: t <= u < i ==> k !in s.log[u].writeset
    ensures i < |s.log| ==> k in s.log[i].writeset
    decreases |s.log| - t
  {
    if t == |s.log| || k in s.log[t].writeset then t else NextWriter(s, t + 1, k)
  }

  /** Before t, k's writers have finished; t and those after it have not, nor do they commit. */
  lemma WritersAround(s: State, t: TxnId, k: Key, u: TxnId)
    requires InvSize(s) && InvLocks(s) && InvStrict(s)
    requires t < |s.txns| && s.txns[t].stage.Reading? && k in Keys(s.log[t])
    requires u < |s.txns| && k in s.log[u].writeset
    ensures u < t <==> s.txns[u].stage == Finished
    ensures s.txns[u].stage != Committing
  {
    assert k in Keys(s.log[u]);
    if u != t {
      assert ConflictOn(s.exclusiveOnly, s.log[t], s.log[u], k);
      assert ConflictOn(s.exclusiveOnly, s.log[u], s.log[t], k);
      if u < t && s.txns[u].stage != Finished {
        Unblocked(s, u, t, k);
      }
      if t < u && Live(s.txns[u].stage) && s.txns[u].stage != Blocked {
        Unblocked(s, t, u, k);
      }
    }
  }

  lemma BoundaryAtReader(s: State, t: TxnId, k: Key)
    requires InvSize(s) && InvLocks(s) && InvStrict(s)
    requires t < |s.txns| && s.txns[t].stage.Reading? && k in Keys(s.log[t])
    ensures Boundary(s, k, NextWriter(s, t, k))
    ensures forall u :: 0 <= u < |s.txns| && k in s.log[u].writeset ==> s.txns[u].stage != Committing
  {
    forall u | 0 <= u < |s.txns| && k in s.log[u].writeset
      ensures u < NextWriter(s, t, k) <==> s.txns[u].stage == Finished
      ensures s.txns[u].stage != Committing
    {
      WritersAround(s, t, k, u);
    }
  }

  lemma NotApplied(s: State, k: Key)
    requires |s.log| == |s.txns|
    requires s.phase.Apply? ==> s.phase.txn < |s.txns| && k !in s.log[s.phase.txn].writeset
    ensures Applied(s, k).None?
  {
    if s.phase.Apply? {
      var c := s.phase.txn;
      WritesDeclaredFrom(s.log[c], [], Fetch(Serial(s, c), Keys(s.log[c])), map[]);
    }
  }

  /** A dispatched transaction sees, on its own keys, the store of the serial scheduler. */
  lemma ReadsSerialValue(s: State, t: TxnId, k: Key)
    requires Inv(s) && t < |s.txns| && s.txns[t].stage.Reading? && k in Keys(s.log[t])
    ensures Lookup(s.store, k) == Lookup(Serial(s, t), k)
  {
    BoundaryAtReader(s, t, k);
    NotApplied(s, k);
    SerialStoreUnchanged(s.init, s.log, t, NextWriter(s, t, k), k);
  }

  lemma ReadQueues(s: State, t: TxnId)
    requires InvQueues(s) && Enabled(s, ReadNext(t))
    ensures InvQueues(AfterRead(s, t))
  {
    var x := AfterRead(s, t).txns[t];
    OtherLists(s.locks.ready, s.txns, t, x, Ready);
    OtherLists(s.completed, s.txns, t, x, Completed);
    OtherLists(s.results, s.txns, t, x, Finished);
  }

  lemma ReadNextKeepsInv(s: State, t: TxnId)
    requires Inv(s) && Enabled(s, ReadNext(t))
    ensures Inv(AfterRead(s, t))
  {
    hide SerialStore, LocksMatch, InvQueues;
    assert TxnOk(s, t);
    ReadsSerialValue(s, t, s.txns[t].stage.todo[0]);
    FetchNext(s.txns[t], s.store, Keys(s.log[t]), Serial(s, t), Expected(s, t));
    ReadQueues(s, t);
    OneFrame(s, AfterRead(s, t), t);
    DataFrame(s, AfterRead(s, t), t);
  }

  /** The program runs on the serial reads, so it does what it does serially. */
  lemma RunsSerially(s: State, t: TxnId)
    requires |s.log| == |s.txns| && Enabled(s, RunProgram(t)) && TxnOk(s, t)
    ensures RunBuffered(s.log[t], [], s.txns[t].readBuf, s.txns[t].writeBuf) == Expected(s, t)
  {
    var keys := Keys(s.log[t]);
    assert keys[..|keys|] == keys;
  }

  lemma DiesSerially(s: State, t: TxnId)
    requires Inv(s) && t < |s.txns| && Fatal(Expected(s, t))
    ensures Inv(s.(died := true))
  {
    var s' := s.(died := true);
    LocksFrame(s, s');
    StrictFrame(s, s');
    assert TxnOk(s, t);
    DataFrame(s, s', t);
  }

  lemma RunQueues(s: State, t: TxnId)
    requires InvQueues(s) && Enabled(s, RunProgram(t)) && !AfterRun(s, t).died
    ensures InvQueues(AfterRun(s, t))
  {
    var x := AfterRun(s, t).txns[t];
    PushKeepsLists(s.completed, s.txns, t, x);
    OtherLists(s.locks.ready, s.txns, t, x, Ready);
    OtherLists(s.results, s.txns, t, x, Finished);
  }

  lemma RunProgramKeepsInv(s: State, t: TxnId)
    requires Inv(s) && Enabled(s, RunProgram(t))
    ensures Inv(AfterRun(s, t))
  {
    hide SerialStore, LocksMatch, InvQueues;
    RunsSerially(s, t);
    if AfterRun(s, t).died {
      DiesSerially(s, t);
    } else {
      RunQueues(s, t);
      OneFrame(s, AfterRun(s, t), t);
      DataFrame(s, AfterRun(s, t), t);
    }
  }

  /***** The scheduler's simple steps *****/

  lemma IdleKeepsInv(s: State, phase: Phase)
    requires Inv(s) && !s.phase.Apply? && !phase.Apply?
    ensures Inv(s.(phase := phase))
  {
    var s' := s.(phase := phase);
    LocksFrame(s, s');
    StrictFrame(s, s');
    StoreFrame(s, s');
    forall u | 0 <= u < |s'.txns|
      ensures TxnOk(s', u)
    {
      assert TxnOk(s, u);
    }
    if s'.died {
      var u :| 0 <= u < |s.log| && Fatal(Expected(s, u));
      assert Fatal(Expected(s', u));
    }
  }

  lemma DispatchQueues(s: State)
    requires InvQueues(s) && Enabled(s, DispatchNext)
    ensures s.txns[s.locks.ready[0]].stage == Ready && InvQueues(AfterDispatch(s))
  {
    var s', t := AfterDispatch(s), s.locks.ready[0];
    assert t in s.locks.ready;
    PopKeepsLists(s.locks.ready, s.txns, s'.txns[t], Ready);
    OtherLists(s.completed, s.txns, t, s'.txns[t], Completed);
    OtherLists(s.results, s.txns, t, s'.txns[t], Finished);
  }

  lemma DispatchNextKeepsInv(s: State)
    requires Inv(s) && Enabled(s, DispatchNext)
    ensures Inv(AfterDispatch(s))
  {
    hide SerialStore, LocksMatch, InvQueues;
    var t := s.locks.ready[0];
    DispatchQueues(s);
    assert TxnOk(s, t);
    OneFrame(s, AfterDispatch(s), t);
    DataFrame(s, AfterDispatch(s), t);
  }

  /** Taking a completed transaction starts its commit with none of its writes made. */
  lemma TakeStore(s: State)
    requires |s.log| == |s.txns| && InvStore(s) && Enabled(s, TakeCompleted) && TxnOk(s, s.completed[0])
    requires s.txns[s.completed[0]].stage == Completed && s.txns[s.completed[0]].status != Incomplete
    ensures InvStore(AfterTake(s))
  {
    var s', t := AfterTake(s), s.completed[0];
    assert s'.phase.pending == Effects(Expected(s, t));
    forall k, i | 0 <= i <= |s'.txns| && Boundary(s', k, i)
      ensures Applied(s', k).None?
      ensures Lookup(s'.store, k) == Lookup(Serial(s', i), k)
    {
      assert Boundary(s, k, i);
      assert Applied(s, k).None?;
    }
  }

  lemma TakeData(s: State, t: TxnId)
    requires InvSize(s) && InvData(s) && Enabled(s, TakeCompleted) && t == s.completed[0]
    requires s.txns[t].stage == Completed && s.txns[t].status != Incomplete
    ensures InvData(AfterTake(s))
  {
    var s' := AfterTake(s);
    assert TxnOk(s, t);
    TakeStore(s);
    forall u | 0 <= u < |s'.txns|
      ensures TxnOk(s', u)
    {
      assert TxnOk(s, u);
    }
  }

  lemma TakeQueues(s: State)
    requires InvQueues(s) && Enabled(s, TakeCompleted)
    ensures s.txns[s.completed[0]].stage == Completed
    ensures !AfterTake(s).died ==> InvQueues(AfterTake(s))
  {
    var s', t := AfterTake(s), s.completed[0];
    assert t in s.completed;
    if !s'.died {
      PopKeepsLists(s.completed, s.txns, s'.txns[t], Completed);
      OtherLists(s.locks.ready, s.txns, t, s'.txns[t], Ready);
      OtherLists(s.results, s.txns, t, s'.txns[t], Finished);
    }
  }

  lemma TakeCompletedKeepsInv(s: State)
    requires Inv(s) && Enabled(s, TakeCompleted)
    ensures Inv(AfterTake(s))
  {
    hide SerialStore, LocksMatch, InvQueues;
    var t := s.completed[0];
    TakeQueues(s);
    assert TxnOk(s, t);
    if AfterTake(s).died {
      DiesSerially(s, t);
    } else {
      OneFrame(s, AfterTake(s), t);
      TakeData(s, t);
    }
  }

  function AfterApply(s: State, k: Key): State
    requires s.phase.Apply? && k in s.phase.pending
  {
    s.(store := s.store[k := s.phase.pending[k]],
       phase := s.phase.(pending := s.phase.pending - {k}))
  }

  lemma ApplyOneStore(s: State, k: Key)
    requires |s.log| == |s.txns| && InvStore(s) && Enabled(s, ApplyOne(k))
    ensures InvStore(AfterApply(s, k))
  {
    var s' := AfterApply(s, k);
    forall x, i | 0 <= i <= |s'.txns| && Boundary(s', x, i)
      ensures Lookup(s'.store, x) == if Applied(s', x).Some? then Applied(s', x) else Lookup(Serial(s', i), x)
    {
      assert Boundary(s, x, i);
    }
  }

  lemma ApplyOneKeepsInv(s: State, k: Key)
    requires Inv(s) && Enabled(s, ApplyOne(k))
    ensures Inv(AfterApply(s, k))
  {
    var s' := AfterApply(s, k);
    LocksFrame(s, s');
    StrictFrame(s, s');
    ApplyOneStore(s, k);
    forall u | 0 <= u < |s'.txns|
      ensures TxnOk(s', u)
    {
      assert TxnOk(s, u);
    }
  }

  /***** New requests *****/

  function AfterNew(s: State, req: Request): State {
    s.(log := s.log + [req], txns := s.txns + [Txn(Queued, map[], map[], Incomplete)])
  }

  lemma NewRequestSerial(s: State, req: Request, i: nat)
    requires i <= |s.log|
    ensures Serial(AfterNew(s, req), i) == Serial(s, i)
    ensures i < |s.log| ==> Expected(AfterNew(s, req), i) == Expected(s, i)
  {
    SerialStorePrefix(s.init, s.log, [req], i);
  }

  lemma QueueOfLongerLog(q: LT.Queue, k: Key, exclusiveOnly: bool, log: seq<Request>, req: Request, live: set<TxnId>)
    requires QueueMatches(q, k, exclusiveOnly, log, live) && forall t :: t in live ==> t < |log|
    ensures QueueMatches(q, k, exclusiveOnly, log + [req], live)
  {
  }

  lemma NewRequestLocks(s: State, req: Request)
    requires |s.log| == |s.txns| && InvLocks(s)
    ensures InvLocks(AfterNew(s, req))
  {
    var s', live := AfterNew(s, req), LiveSet(s.txns);
    assert LiveSet(s'.txns) == live && BlockedSet(s'.txns) == BlockedSet(s.txns);
    forall k
      ensures QueueMatches(LT.QueueOf(s.locks.table, k), k, s.exclusiveOnly, s'.log, live)
    {
      QueueOfLongerLog(LT.QueueOf(s.locks.table, k), k, s.exclusiveOnly, s.log, req, live);
    }
  }

  lemma NewRequestStore(s: State, req: Request)
    requires |s.log| == |s.txns| && InvStore(s)
    ensures InvStore(AfterNew(s, req))
  {
    var s', n := AfterNew(s, req), |s.txns|;
    if s.phase.Apply? {
      NewRequestSerial(s, req, s.phase.txn);
    }
    forall k, i | 0 <= i <= |s'.txns| && Boundary(s', k, i)
      ensures Lookup(s'.store, k) == if Applied(s', k).Some? then Applied(s', k) else Lookup(Serial(s', i), k)
    {
      assert s'.txns[n].stage == Queued && s'.log[n] == req;
      var j := if i <= n then i else n;
      assert Boundary(s, k, j) by {
        assert forall t :: 0 <= t < n ==> s'.txns[t] == s.txns[t] && s'.log[t] == s.log[t];
      }
      NewRequestSerial(s, req, j);
      SerialStoreUnchanged(s'.init, s'.log, j, i, k);
    }
  }

  lemma NewRequestTxns(s: State, req: Request)
    requires |s.log| == |s.txns| && InvData(s)
    ensures forall u :: 0 <= u <= |s.txns| ==> TxnOk(AfterNew(s, req), u)
  {
    forall u | 0 <= u <= |s.txns|
      ensures TxnOk(AfterNew(s, req), u)
    {
      if u < |s.txns| {
        assert TxnOk(s, u);
        NewRequestSerial(s, req, u);
      }
    }
  }

  lemma NewRequestQueues(s: State, req: Request)
    requires InvSize(s) && InvQueues(s) && AreSets(req)
    ensures InvSize(AfterNew(s, req)) && InvQueues(AfterNew(s, req))
  {
  }

  lemma NewRequestStrict(s: State, req: Request)
    requires |s.log| == |s.txns| && InvStrict(s)
    ensures InvStrict(AfterNew(s, req))
  {
  }

  lemma NewRequestKeepsInv(s: State, req: Request)
    requires Inv(s) && AreSets(req) && !s.died
    ensures Inv(AfterNew(s, req))
  {
    NewRequestQueues(s, req);
    NewRequestLocks(s, req);
    NewRequestStrict(s, req);
    NewRequestStore(s, req);
    NewRequestTxns(s, req);
  }
}

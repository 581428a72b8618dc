/**
 * The objects of the transaction system: `Txn`, `Storage` and `TxnProcessor`. Each method is
 * proved against the functions whose runs LockingScheduler interleaves.
 */
module TxnProcessor {
  import opened Base
  import opened Transactions
  import LT = LockTable
  import opened LockSequences
  import opened LockManager
  import LockingScheduler

  class Storage {
    var data: Store

    constructor (init: Store)
      ensures data == init
    {
      data := init;
    }

    method Read(key: Key) returns (result: Option<Value>)
      ensures result == Lookup(data, key)
    {
      if key in data {
        return Some(data[key]);
      }
      return None;
    }

    method Write(key: Key, value: Value)
      modifies this
      ensures data == old(data)[key := value]
    {
      data := data[key := value];
    }
  }

  class Txn {
    const req: Request
    var readBuf: Store
    var writeBuf: Store
    var status: TxnStatus
    var uniqueId: nat

    constructor (req: Request)
      ensures this.req == req && Fresh()
    {
      this.req, readBuf, writeBuf, status, uniqueId := req, map[], map[], Incomplete, 0;
    }

    predicate Fresh()
      reads this
    {
      readBuf == map[] && writeBuf == map[] && status == Incomplete
    }

    /** What the run left in the fields. */
    function Left(died: bool): Outcome
      reads this
    {
      Outcome(readBuf, writeBuf, status, died)
    }

    /** Dies on an undeclared key; finds nothing once the transaction has voted. */
    method Read(key: Key) returns (died: bool, value: Option<Value>)
      ensures died <==> key !in Keys(req)
      ensures value == if died || status != Incomplete then None else Lookup(readBuf, key)
    {
      if key !in req.readset && key !in req.writeset {
        return true, None;
      }
      if status != Incomplete || key !in readBuf {
        return false, None;
      }
      return false, Some(readBuf[key]);
    }

    /** Dies on a key outside the write set; else buffers the write, to be read back too. */
    method Write(key: Key, value: Value) returns (died: bool)
      modifies this
      ensures status == old(status) && uniqueId == old(uniqueId)
      ensures died <==> key !in req.writeset
      ensures !died && status == Incomplete ==>
                readBuf == old(readBuf)[key := value] && writeBuf == old(writeBuf)[key := value]
      ensures died || status != Incomplete ==> readBuf == old(readBuf) && writeBuf == old(writeBuf)
    {
      if key !in req.writeset {
        return true;
      }
      if status != Incomplete {
        return false;
      }
      writeBuf := writeBuf[key := value];
      readBuf := readBuf[key := value];
      return false;
    }

    /** Dies exactly when the two key sets overlap. */
    method CheckReadWriteSets() returns (died: bool)
      ensures died <==> exists k :: k in req.writeset && k in req.readset
    {
      for i := 0 to |req.writeset|
        invariant forall j :: 0 <= j < i ==> req.writeset[j] !in req.readset
      {
        if req.writeset[i] in req.readset {
          return true;
        }
      }
      return false;
    }

    /** The program logic, through Read and Write. */
    method Run() returns (died: bool)
      requires status == Incomplete
      modifies this
      ensures uniqueId == old(uniqueId)
      ensures Left(died) == RunBuffered(req, [], old(readBuf), old(writeBuf))
    {
      var h: History := [];
      while !Stops(req.program.act(h))
        invariant status == Incomplete && uniqueId == old(uniqueId)
        invariant RunBuffered(req, h, readBuf, writeBuf) == RunBuffered(req, [], old(readBuf), old(writeBuf))
        decreases req.program.bound - |h|
      {
        match req.program.act(h)
        case Read(key) =>
          var value;
          died, value := Read(key);
          if died {
            return;
          }
          h := h + [value];
        case Write(key, value) =>
          died := Write(key, value);
          if died {
            return;
          }
          h := h + [None];
      }
      var vote := req.program.act(h);
      status := if vote.Commit? then CompletedC else if vote.Abort? then CompletedA else Incomplete;
      return false;
    }
  }

  /** `ExecuteTxn`, with nobody else at work: prefetch both key sets, then run. */
  method ExecuteTxn(storage: Storage, txn: Txn) returns (died: bool)
    requires txn.status == Incomplete
    modifies txn
    ensures txn.uniqueId == old(txn.uniqueId)
    ensures txn.Left(died) ==
            RunBuffered(txn.req, [], old(txn.readBuf) + Fetch(storage.data, Keys(txn.req)), old(txn.writeBuf))
  {
    FetchKeys(storage, txn, txn.req.readset);
    FetchKeys(storage, txn, txn.req.writeset);
    assert old(txn.readBuf) + Fetch(storage.data, txn.req.readset) + Fetch(storage.data, txn.req.writeset) ==
           old(txn.readBuf) + Fetch(storage.data, Keys(txn.req));
    died := txn.Run();
  }

  /** One of ExecuteTxn's two loops. */
  method FetchKeys(storage: Storage, txn: Txn, keys: seq<Key>)
    modifies txn`readBuf
    ensures txn.readBuf == old(txn.readBuf) + Fetch(storage.data, keys)
  {
    for i := 0 to |keys|
      invariant txn.readBuf == old(txn.readBuf) + Fetch(storage.data, keys[..i])
    {
      var result := storage.Read(keys[i]);
      if result.Some? {
        txn.readBuf := txn.readBuf[keys[i] := result.value];
      }
    }
    assert keys[..|keys|] == keys;
  }

  /** Writes the buffered writes to storage, key by key. */
  method ApplyWrites(storage: Storage, txn: Txn)
    modifies storage
    ensures storage.data == old(storage.data) + txn.writeBuf
  {
    var todo := txn.writeBuf;
    while todo != map[]
      invariant storage.data + todo == old(storage.data) + txn.writeBuf
      decreases |todo|
    {
      assert todo.Keys != {};
      var k :| k in todo.Keys;
      WriteOne(storage.data, todo, k);
      storage.Write(k, todo[k]);
      todo := todo - {k};
    }
  }

  lemma WriteOne(data: Store, todo: Store, k: Key)
    requires k in todo
    ensures data[k := todo[k]] + (todo - {k}) == data + todo
    ensures |todo - {k}| < |todo|
  {
    assert (todo - {k}).Keys == todo.Keys - {k};
  }

  /** The commit or abort both schedulers make of an executed transaction. */
  method Complete(storage: Storage, txn: Txn) returns (died: bool)
    modifies storage, txn`status
    ensures died <==> old(txn.status) != CompletedC && old(txn.status) != CompletedA
    ensures storage.data == old(storage.data) + if old(txn.status) == CompletedC then txn.writeBuf else map[]
    ensures txn.status == Committed <==> old(txn.status) == CompletedC || (died && old(txn.status) == Committed)
    ensures txn.status == Aborted <==> old(txn.status) == CompletedA || (died && old(txn.status) == Aborted)
    ensures died ==> txn.status == old(txn.status)
  {
    if txn.status == CompletedC {
      ApplyWrites(storage, txn);
      txn.status := Committed;
      return false;
    }
    assert storage.data + map[] == storage.data;
    if txn.status == CompletedA {
      txn.status := Aborted;
      return false;
    }
    return true;
  }

  /** The transaction's fields are those of the committed or aborted outcome o. */
  predicate Settled(txn: Txn, o: Outcome)
    reads txn
  {
    !Fatal(o) && txn.readBuf == o.readBuf && txn.writeBuf == o.writeBuf && txn.status == Final(o.status)
  }

  /** The serial scheduler's treatment of one transaction, whose outcome is o. */
  method RunSerially(storage: Storage, txn: Txn, ghost o: Outcome) returns (died: bool)
    requires txn.Fresh() && o == Execute(txn.req, storage.data)
    modifies storage, txn
    ensures died <==> Fatal(o)
    ensures !died ==> storage.data == old(storage.data) + Effects(o) && Settled(txn, o)
  {
    assert map[] + Fetch(storage.data, Keys(txn.req)) == Fetch(storage.data, Keys(txn.req));
    died := ExecuteTxn(storage, txn);
    if !died {
      OutcomeStatus(txn.req, [], Fetch(storage.data, Keys(txn.req)), map[]);
      died := Complete(storage, txn);
    }
  }

  /** What the serial scheduler is going to do with the i-th request of the log. */
  datatype Plan = Plan(store: Store, outcome: Outcome)

  ghost predicate PlanStep(r: Request, now: Plan, next: Plan) {
    && now.outcome == Execute(r, now.store)
    && next.store == now.store + Effects(now.outcome)
  }

  ghost predicate PlanOk(log: seq<Request>, plan: seq<Plan>, i: nat) {
    i < |log| && |plan| == |log| + 1 && PlanStep(log[i], plan[i], plan[i + 1])
  }

  predicate AllFresh(txns: seq<Txn>)
    reads txns
  {
    forall i :: 0 <= i < |txns| ==> txns[i].Fresh()
  }

  ghost function PlanAt(init: Store, log: seq<Request>, i: nat): (plan: Plan)
    requires i <= |log|
    ensures plan.store == SerialStore(init, log, i)
    ensures i < |log| ==> plan.outcome == SerialOutcome(init, log, i)
  {
    Plan(SerialStore(init, log, i),
         if i < |log| then SerialOutcome(init, log, i) else Outcome(map[], map[], Incomplete, false))
  }

  lemma PlanAtStep(init: Store, log: seq<Request>, i: nat)
    requires i < |log|
    ensures PlanStep(log[i], PlanAt(init, log, i), PlanAt(init, log, i + 1))
  {
  }

  lemma SerialPlan(init: Store, log: seq<Request>) returns (plan: seq<Plan>)
    ensures |plan| == |log| + 1
    ensures forall i :: 0 <= i <= |log| ==> plan[i] == PlanAt(init, log, i)
    ensures forall i :: 0 <= i < |log| ==> PlanOk(log, plan, i)
  {
    hide SerialStore, SerialOutcome, PlanStep, Execute, StoreAfter;
    plan := seq(|log| + 1, i requires 0 <= i <= |log| => PlanAt(init, log, i));
    forall i | 0 <= i < |log|
      ensures PlanOk(log, plan, i)
    {
      PlanAtStep(init, log, i);
      assert plan[i] == PlanAt(init, log, i) && plan[i + 1] == PlanAt(init, log, i + 1);
    }
  }

  /** The first transactions have been settled as planned. */
  ghost predicate AllSettled(objs: seq<Txn>, plan: seq<Plan>)
    requires |objs| <= |plan|
    reads objs
  {
    forall i :: 0 <= i < |objs| ==> Settled(objs[i], plan[i].outcome)
  }

  lemma SettledSerially(objs: seq<Txn>, plan: seq<Plan>, init: Store, log: seq<Request>)
    requires |objs| <= |log| && |plan| == |log| + 1 && AllSettled(objs, plan)
    requires forall i :: 0 <= i <= |log| ==> plan[i] == PlanAt(init, log, i)
    ensures forall i :: 0 <= i < |objs| ==> Settled(objs[i], SerialOutcome(init, log, i))
  {
    forall i | 0 <= i < |objs|
      ensures Settled(objs[i], SerialOutcome(init, log, i))
    {
      assert Settled(objs[i], plan[i].outcome);
      assert plan[i] == PlanAt(init, log, i);
    }
  }

  /** Its status then is the vote of its program, run straight on the store of its turn. */
  lemma SettledByVote(txn: Txn, init: Store, log: seq<Request>, i: nat)
    requires i < |log| && Settled(txn, SerialOutcome(init, log, i))
    ensures var d := RunDirect(log[i], [], DirectStore(init, log, i));
            && !d.died && d.store == DirectStore(init, log, i) + txn.writeBuf
            && (txn.status == Committed <==> d.status == CompletedC)
            && (txn.status == Aborted <==> d.status == CompletedA)
  {
    hide RunDirect, RunBuffered, SerialStore, DirectStore;
    SerialIsDirect(init, log, i);
    BufferedRefinesDirect(log[i], SerialStore(init, log, i));
    OutcomeStatus(log[i], [], Fetch(SerialStore(init, log, i), Keys(log[i])), map[]);
  }

  /** The transaction about to run is apart from those before it and those after it. */
  lemma Apart(objs: seq<Txn>, i: nat)
    requires NoDup(objs) && i < |objs|
    ensures objs[i] !in objs[..i] && objs[i] !in objs[i + 1..]
    ensures AllFresh(objs[i..]) ==> AllFresh(objs[i + 1..]) && objs[i].Fresh()
  {
    assert objs[i..][1..] == objs[i + 1..] && objs[i..][0] == objs[i];
  }

  lemma OneMoreSettled(objs: seq<Txn>, plan: seq<Plan>, i: nat)
    requires i < |objs| <= |plan| && AllSettled(objs[..i], plan) && Settled(objs[i], plan[i].outcome)
    ensures AllSettled(objs[..i + 1], plan)
  {
    assert objs[..i + 1] == objs[..i] + [objs[i]];
  }

  lemma NextInLine(order: seq<LT.TxnId>, i: nat)
    requires i < |order|
    ensures order[i..][0] == order[i] && order[i..][1..] == order[i + 1..]
    ensures order[..i + 1] == order[..i] + [order[i]]
  {
  }

  /** The number of the transaction requested i-th is that of its latest request. */
  predicate NumberOk(txns: seq<Txn>, i: nat)
    requires i < |txns|
    reads txns`uniqueId
  {
    i < txns[i].uniqueId <= |txns| && txns[txns[i].uniqueId - 1] == txns[i]
  }

  /** The processor in one of its locking modes. Transactions are known by their position in txns. */
  class TxnProcessor {
    const storage: Storage
    const lm: LockManager
    const readyTxns: TxnDeque
    var txns: seq<Txn>
    var txnRequests: seq<LT.TxnId>
    var completedTxns: seq<LT.TxnId>
    var txnResults: seq<LT.TxnId>
    var nextUniqueId: nat

    constructor (exclusiveOnly: bool, init: Store)
      ensures Valid() && fresh(storage) && fresh(lm) && fresh(readyTxns)
      ensures storage.data == init && txns == [] && txnRequests == completedTxns == txnResults == []
      ensures lm.exclusiveOnly == exclusiveOnly && lm.State() == LT.LockState(map[], map[], [])
    {
      var ready := new TxnDeque();
      var s := new Storage(init);
      var l: LockManager;
      if exclusiveOnly {
        l := new LockManager.A(ready);
      } else {
        l := new LockManager.B(ready);
      }
      storage, lm, readyTxns := s, l, ready;
      txns, txnRequests, completedTxns, txnResults, nextUniqueId := [], [], [], [], 1;
    }

    ghost predicate Valid()
      reads this, txns
    {
      && lm.readyTxns == readyTxns
      && nextUniqueId == |txns| + 1
      && (forall i :: 0 <= i < |txns| ==> NumberOk(txns, i))
    }

    /** Numbers the request, anew if it was made before, and queues it, in one critical section. */
    method NewTxnRequest(txn: Txn)
      requires Valid()
      modifies this`txns, this`txnRequests, this`nextUniqueId, txn`uniqueId
      ensures Valid()
      ensures txns == old(txns) + [txn] && txnRequests == old(txnRequests) + [old(|txns|)]
      ensures txn.uniqueId == old(nextUniqueId)
    {
      txn.uniqueId := nextUniqueId;
      nextUniqueId := nextUniqueId + 1;
      txnRequests := txnRequests + [|txns|];
      txns := txns + [txn];
      forall i | 0 <= i < |txns|
        ensures NumberOk(txns, i)
      {
        if i < |txns| - 1 {
          assert old(NumberOk(txns, i)) && txns[i] == old(txns)[i];
        }
      }
    }

    /** The first block of the scheduler's loop. */
    method Admit()
      requires Valid() && (txnRequests != [] ==> txnRequests[0] < |txns|)
      modifies this`txnRequests, lm, readyTxns
      ensures Valid()
      ensures old(txnRequests) == [] ==> txnRequests == [] && lm.State() == old(lm.State())
      ensures old(txnRequests) != [] ==>
                var t := old(txnRequests)[0];
                var r := txns[t].req;
                var l := LockingScheduler.AdmitLocks(old(lm.State()), t, r, lm.exclusiveOnly);
                && txnRequests == old(txnRequests)[1..]
                && lm.State() == if LockingScheduler.IsBlocked(old(lm.State()), t, r, lm.exclusiveOnly)
                                 then l else l.(ready := l.ready + [t])
    {
      if txnRequests == [] {
        return;
      }
      var t := txnRequests[0];
      txnRequests := txnRequests[1..];
      var r := txns[t].req;
      var blockedRead := RequestAll(t, r.readset, true);
      var blockedWrite := RequestAll(t, r.writeset, false);
      if !blockedRead && !blockedWrite {
        readyTxns.PushBack(t);
      }
    }

    /** One of the scheduler's two request loops, over the read locks or the write locks. */
    method RequestAll(t: LT.TxnId, keys: seq<Key>, shared: bool) returns (blocked: bool)
      requires lm.readyTxns == readyTxns
      modifies lm
      ensures var mode := if shared then LockingScheduler.ReadMode(lm.exclusiveOnly) else LT.Exclusive;
              && lm.State() == RequestKeys(old(lm.State()), t, keys, mode)
              && (blocked <==> Refused(old(lm.State()), t, keys, mode))
    {
      ghost var mode := if shared then LockingScheduler.ReadMode(lm.exclusiveOnly) else LT.Exclusive;
      blocked := false;
      for i := 0 to |keys|
        invariant lm.State() == RequestKeys(old(lm.State()), t, keys[..i], mode)
        invariant blocked <==> Refused(old(lm.State()), t, keys[..i], mode)
      {
        assert keys[..i + 1][..i] == keys[..i];
        var granted;
        if shared {
          granted := lm.ReadLock(t, keys[i]);
        } else {
          granted := lm.WriteLock(t, keys[i]);
        }
        if !granted {
          blocked := true;
        }
      }
      assert keys[..|keys|] == keys;
    }

    /** One round of the scheduler's second loop: commits or aborts, then releases all locks. */
    method FinishCompleted() returns (died: bool)
      requires Valid() && completedTxns != [] && completedTxns[0] < |txns|
      modifies this`completedTxns, this`txnResults, storage, txns[completedTxns[0]], lm, readyTxns
      ensures Valid() && completedTxns == old(completedTxns)[1..]
      ensures var t := old(completedTxns)[0];
              var txn := txns[t];
              && (died <==> old(txn.status) != CompletedC && old(txn.status) != CompletedA)
              && txn.readBuf == old(txn.readBuf) && txn.writeBuf == old(txn.writeBuf)
              && (!died ==>
                    && storage.data == old(storage.data) + (if old(txn.status) == CompletedC then txn.writeBuf else map[])
                    && (txn.status == Committed <==> old(txn.status) == CompletedC)
                    && (txn.status == Aborted <==> old(txn.status) == CompletedA)
                    && lm.State() == LockingScheduler.FinishLocks(old(lm.State()), t, txn.req)
                    && txnResults == old(txnResults) + [t])
    {
      var t := completedTxns[0];
      completedTxns := completedTxns[1..];
      died := Complete(storage, txns[t]);
      if died {
        return;
      }
      ReleaseAll(t, txns[t].req.readset);
      ReleaseAll(t, txns[t].req.writeset);
      txnResults := txnResults + [t];
    }

    method ReleaseAll(t: LT.TxnId, keys: seq<Key>)
      requires lm.readyTxns == readyTxns
      modifies lm, readyTxns
      ensures lm.State() == ReleaseKeys(old(lm.State()), t, keys)
    {
      for i := 0 to |keys|
        invariant lm.State() == ReleaseKeys(old(lm.State()), t, keys[..i])
      {
        assert keys[..i + 1][..i] == keys[..i];
        lm.Release(t, keys[i]);
      }
      assert keys[..|keys|] == keys;
    }

    /** The scheduler's third loop: hands every ready transaction to the pool, oldest first. */
    method DispatchAll() returns (tasks: seq<LT.TxnId>)
      requires Valid()
      modifies readyTxns
      ensures Valid() && readyTxns.items == [] && tasks == old(readyTxns.items)
    {
      tasks := [];
      while readyTxns.items != []
        invariant tasks + readyTxns.items == old(readyTxns.items)
        decreases |readyTxns.items|
      {
        var t := readyTxns.items[0];
        readyTxns.items := readyTxns.items[1..];
        tasks := tasks + [t];
      }
    }

    /** The transactions waiting in `txn_requests_` are new, and each is there once, by its latest request. */
    ghost predicate NewRequests()
      reads this, txns
    {
      && NoDup(txnRequests)
      && (forall i :: 0 <= i < |txnRequests| ==>
            txnRequests[i] < |txns| && txns[txnRequests[i]].Fresh() && txns[txnRequests[i]].uniqueId == txnRequests[i] + 1)
    }

    ghost function RequestLog(order: seq<LT.TxnId>): (log: seq<Request>)
      requires forall i :: 0 <= i < |order| ==> order[i] < |txns|
      reads this
      ensures |log| == |order| && forall i :: 0 <= i < |order| ==> log[i] == txns[order[i]].req
    {
      seq(|order|, i requires 0 <= i < |order| && order[i] < |txns| reads this => txns[order[i]].req)
    }

    /**
     * `RunSerialScheduler` until no request is left: it dies on the first transaction that is
     * fatal, or leaves the serial store and the serial outcomes, all returned in order.
     */
    method RunSerialScheduler() returns (died: bool, done: nat)
      requires Valid() && NewRequests()
      modifies this`txnRequests, this`txnResults, storage, txns
      ensures done <= |old(txnRequests)| && (died <==> done < |old(txnRequests)|)
      ensures txnResults == old(txnResults) + old(txnRequests)[..done]
      ensures forall i :: 0 <= i < done ==>
                Settled(txns[old(txnRequests)[i]], SerialOutcome(old(storage.data), old(RequestLog(txnRequests)), i))
      ensures forall i :: 0 <= i < done ==>
                var log := old(RequestLog(txnRequests));
                var txn, d := txns[old(txnRequests)[i]], RunDirect(log[i], [], DirectStore(old(storage.data), log, i));
                && !d.died
                && (txn.status == Committed <==> d.status == CompletedC)
                && (txn.status == Aborted <==> d.status == CompletedA)
      ensures died ==> Fatal(SerialOutcome(old(storage.data), old(RequestLog(txnRequests)), done))
      ensures !died ==> storage.data == SerialStore(old(storage.data), old(RequestLog(txnRequests)), done)
      ensures !died ==> storage.data == DirectStore(old(storage.data), old(RequestLog(txnRequests)), done)
    {
      ghost var init, order, log := storage.data, txnRequests, RequestLog(txnRequests);
      ghost var plan := SerialPlan(init, log);
      assert plan[0] == PlanAt(init, log, 0);
      ghost var objs := Waiting();
      died, done := SerialLoop(order, objs, log, plan);
      assert plan[done] == PlanAt(init, log, done);
      SettledSerially(objs[..done], plan, init, log);
      forall i | 0 <= i < done
        ensures Settled(txns[order[i]], SerialOutcome(init, log, i))
        ensures var txn, d := txns[order[i]], RunDirect(log[i], [], DirectStore(init, log, i));
                && !d.died
                && (txn.status == Committed <==> d.status == CompletedC)
                && (txn.status == Aborted <==> d.status == CompletedA)
      {
        assert txns[order[i]] == objs[i] && objs[..done][i] == objs[i];
        SettledByVote(txns[order[i]], init, log, i);
      }
      SerialIsDirect(init, log, done);
    }

    /** The objects of the transactions waiting in `txn_requests_`. */
    lemma Waiting() returns (objs: seq<Txn>)
      requires Valid() && NewRequests()
      ensures |objs| == |txnRequests|
      ensures forall i :: 0 <= i < |objs| ==> txnRequests[i] < |txns| && txns[txnRequests[i]] == objs[i]
      ensures NoDup(objs) && AllFresh(objs)
    {
      objs := seq(|txnRequests|,
                  i requires 0 <= i < |txnRequests| && txnRequests[i] < |txns| reads this => txns[txnRequests[i]]);
      forall i, j | 0 <= i < j < |objs|
        ensures objs[i] != objs[j]
      {
        assert txnRequests[i] != txnRequests[j];
        assert objs[i] == txns[txnRequests[i]] && objs[j] == txns[txnRequests[j]];
      }
    }

    /** The loop itself, over the objects objs of the waiting transactions. */
    method SerialLoop(ghost order: seq<LT.TxnId>, ghost objs: seq<Txn>,
                      ghost log: seq<Request>, ghost plan: seq<Plan>)
      returns (died: bool, done: nat)
      requires order == txnRequests && |objs| == |log| == |order| && |plan| == |order| + 1
      requires NoDup(objs) && forall i :: 0 <= i < |order| ==> order[i] < |txns| && txns[order[i]] == objs[i]
      requires AllFresh(objs)
      requires forall i :: 0 <= i < |log| ==> objs[i].req == log[i] && PlanOk(log, plan, i)
      requires plan[0].store == storage.data
      modifies this`txnRequests, this`txnResults, storage, objs
      ensures txns == old(txns)
      ensures done <= |order| && (died <==> done < |order|)
      ensures txnResults == old(txnResults) + order[..done]
      ensures AllSettled(objs[..done], plan)
      ensures died ==> Fatal(plan[done].outcome)
      ensures !died ==> storage.data == plan[done].store
    {
      hide PlanStep, Settled, Fatal;
      done, died := 0, false;
      while txnRequests != []
        invariant txns == old(txns)
        invariant done <= |order| && txnRequests == order[done..]
        invariant txnResults == old(txnResults) + order[..done]
        invariant storage.data == plan[done].store
        invariant AllFresh(objs[done..])
        invariant AllSettled(objs[..done], plan)
        decreases |txnRequests|
      {
        NextInLine(order, done);
        died := SerialNext(objs, log, plan, done);
        if died {
          return;
        }
        done := done + 1;
      }
    }

    /** One round of it. */
    method SerialNext(ghost objs: seq<Txn>, ghost log: seq<Request>, ghost plan: seq<Plan>, ghost i: nat)
      returns (died: bool)
      requires txnRequests != [] && txnRequests[0] < |txns| && i < |objs| && txns[txnRequests[0]] == objs[i]
      requires PlanOk(log, plan, i) && objs[i].req == log[i] && plan[i].store == storage.data
      requires |objs| == |log| && NoDup(objs) && AllFresh(objs[i..]) && AllSettled(objs[..i], plan)
      modifies this`txnRequests, this`txnResults, storage, objs[i]
      ensures txnRequests == old(txnRequests)[1..]
      ensures died <==> Fatal(plan[i].outcome)
      ensures txnResults == old(txnResults) + if died then [] else [old(txnRequests)[0]]
      ensures !died ==> storage.data == plan[i + 1].store
      ensures AllFresh(objs[i + 1..])
      ensures if died then AllSettled(objs[..i], plan) else AllSettled(objs[..i + 1], plan)
    {
      Apart(objs, i);
      var t := txnRequests[0];
      txnRequests := txnRequests[1..];
      died := RunSerially(storage, txns[t], plan[i].outcome);
      assert AllSettled(objs[..i], plan);
      if died {
        return;
      }
      OneMoreSettled(objs, plan, i);
      txnResults := txnResults + [t];
    }
  }
}

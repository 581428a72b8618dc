/** The lock manager over whole sequences of calls. */
module LockCalls {
  import opened LockTable

  datatype Call = Request(txn: TxnId, key: Key, mode: RequestMode) | Release(txn: TxnId, key: Key)

  function StateAfter(calls: seq<Call>): LockState {
    if calls == [] then LockState(map[], map[], [])
    else
      var s := StateAfter(calls[..|calls| - 1]);
      match calls[|calls| - 1]
      case Request(t, k, mode) => RequestLock(s, t, k, mode)
      case Release(t, k) => ReleaseLock(s, t, k)
  }

  predicate Requested(calls: seq<Call>, t: TxnId, k: Key) {
    exists c :: c in calls && c.Request? && c.txn == t && c.key == k
  }

  /** The header's demand: no transaction asks for the same key a second time. */
  predicate Legal(calls: seq<Call>) {
    forall i :: 0 <= i < |calls| && calls[i].Request? ==> !Requested(calls[..i], calls[i].txn, calls[i].key)
  }

  /** Whoever is queued on a key has asked for it, and nobody is queued twice. */
  ghost predicate FromCalls(s: LockState, calls: seq<Call>) {
    && (forall t, k :: Find(QueueOf(s.table, k), t) < |QueueOf(s.table, k)| ==> Requested(calls, t, k))
    && (forall k :: DistinctTxns(QueueOf(s.table, k)))
  }

  lemma StillRequested(before: seq<Call>, last: Call, t: TxnId, k: Key)
    requires Requested(before, t, k) || (last.Request? && last.txn == t && last.key == k)
    ensures Requested(before + [last], t, k)
  {
    if c :| c in before && c.Request? && c.txn == t && c.key == k {
      assert c in before + [last];
    } else {
      assert last in before + [last];
    }
  }

  lemma OneMoreCall(s0: LockState, before: seq<Call>, last: Call)
    requires Inv(s0) && FromCalls(s0, before) && (last.Request? ==> !Requested(before, last.txn, last.key))
    ensures var s := if last.Request? then RequestLock(s0, last.txn, last.key, last.mode) else ReleaseLock(s0, last.txn, last.key);
            Inv(s) && FromCalls(s, before + [last])
  {
    hide Inv, RequestLock, ReleaseLock, Requested, DistinctTxns, Doubled;
    var s := if last.Request? then RequestLock(s0, last.txn, last.key, last.mode) else ReleaseLock(s0, last.txn, last.key);
    DistinctBefore(s0, last);
    forall t, k | Find(QueueOf(s.table, k), t) < |QueueOf(s.table, k)|
      ensures Requested(before + [last], t, k)
    {
      QueuedBefore(s0, last, t, k);
      StillRequested(before, last, t, k);
    }
    if last.Request? {
      RequestKeepsInv(s0, last.txn, last.key, last.mode);
    } else {
      ReleaseKeepsInv(s0, last.txn, last.key);
    }
  }

  lemma {:induction false} CallsKeepInv(calls: seq<Call>)
    requires Legal(calls)
    ensures Inv(StateAfter(calls)) && FromCalls(StateAfter(calls), calls)
  {
    if calls == [] {
      EmptyInv(StateAfter(calls));
    } else {
      hide Inv, FromCalls, RequestLock, ReleaseLock, Requested;
      var before, last := calls[..|calls| - 1], calls[|calls| - 1];
      assert forall i :: 0 <= i < |before| ==> before[..i] == calls[..i];
      CallsKeepInv(before);
      OneMoreCall(StateAfter(before), before, last);
      assert before + [last] == calls;
    }
  }

  /**
   * After any legal calls, releases of holders and of waiters alike, `txn_waits_[t]` is the
   * number of keys t is queued on outside the granted prefix, and has no entry when there
   * is none; and only those that have asked for a key are queued on it.
   */
  lemma LegalCallsKeepInv(calls: seq<Call>)
    requires Legal(calls)
    ensures var s := StateAfter(calls);
            && Inv(s)
            && (forall t :: t in s.waits <==> WaitSet(s.table, t) != {})
            && (forall t :: t in s.waits ==> s.waits[t] == |WaitSet(s.table, t)|)
    ensures FromCalls(StateAfter(calls), calls)
  {
    CallsKeepInv(calls);
    DistinctCounts(StateAfter(calls));
  }

  lemma EmptyInv(s: LockState)
    requires s == LockState(map[], map[], [])
    ensures Inv(s)
  {
    forall t
      ensures CountOk(s.waits, s.table, t)
    {
      assert WaitSet(s.table, t) == {};
    }
  }

  /** Where nobody has asked twice, the counts are exact. */
  lemma DistinctCounts(s: LockState)
    requires Inv(s) && forall k :: DistinctTxns(QueueOf(s.table, k))
    ensures forall t :: t in s.waits <==> WaitSet(s.table, t) != {}
    ensures forall t :: t in s.waits ==> s.waits[t] == |WaitSet(s.table, t)|
  {
    forall t
      ensures t in s.waits <==> WaitSet(s.table, t) != {}
      ensures t in s.waits ==> s.waits[t] == |WaitSet(s.table, t)|
    {
      assert CountOk(s.waits, s.table, t);
      NotRepeated(s.table, t);
    }
  }

  lemma NotRepeated(table: Table, t: TxnId)
    requires forall k :: DistinctTxns(QueueOf(table, k))
    ensures !Repeats(table, t)
  {
    forall k
      ensures !Doubled(QueueOf(table, k), t)
    {
      assert DistinctTxns(QueueOf(table, k));
    }
  }

  /** A call that asks for nothing asked for before keeps it so. */
  lemma DistinctBefore(s0: LockState, c: Call)
    requires Inv(s0) && forall k :: DistinctTxns(QueueOf(s0.table, k))
    requires c.Request? ==> Find(QueueOf(s0.table, c.key), c.txn) == |QueueOf(s0.table, c.key)|
    ensures var s := if c.Request? then RequestLock(s0, c.txn, c.key, c.mode) else ReleaseLock(s0, c.txn, c.key);
            forall k :: DistinctTxns(QueueOf(s.table, k))
    ensures !Doubled(QueueOf(s0.table, c.key), c.txn)
  {
    var q := QueueOf(s0.table, c.key);
    assert DistinctTxns(q) && LaterExclusive(q);
    var s := if c.Request? then RequestLock(s0, c.txn, c.key, c.mode) else ReleaseLock(s0, c.txn, c.key);
    if c.Request? {
      AppendDoubled(q, LockRequest(c.txn, c.mode), c.txn);
    } else if Find(q, c.txn) < |q| {
      RemoveKeepsOrder(q, Find(q, c.txn));
    }
    forall k
      ensures DistinctTxns(QueueOf(s.table, k))
    {
      assert DistinctTxns(QueueOf(s0.table, k));
    }
  }

  /** A queued request was queued before the last call, or is that call. */
  lemma QueuedBefore(s0: LockState, c: Call, t: TxnId, k: Key)
    requires Inv(s0)
    ensures var s := if c.Request? then RequestLock(s0, c.txn, c.key, c.mode) else ReleaseLock(s0, c.txn, c.key);
            Find(QueueOf(s.table, k), t) < |QueueOf(s.table, k)| ==>
              || Find(QueueOf(s0.table, k), t) < |QueueOf(s0.table, k)|
              || (c.Request? && c.txn == t && c.key == k)
  {
    var q := QueueOf(s0.table, c.key);
    if c.Request? {
      assert (q + [LockRequest(c.txn, c.mode)])[|q|] == LockRequest(c.txn, c.mode);
      assert forall j :: 0 <= j < |q| ==> (q + [LockRequest(c.txn, c.mode)])[j] == q[j];
    } else if Find(q, c.txn) < |q| && t != c.txn {
      FindAfterRemove(q, Find(q, c.txn), t);
    }
  }

  /** Two transactions hold a lock together only when both asked to share it. */
  lemma HoldersCompatible(q: Queue, t: TxnId, u: TxnId)
    requires Holds(q, t) && Holds(q, u) && t != u
    ensures q[Find(q, t)].mode == Shared && q[Find(q, u)].mode == Shared
  {
    var i, j := Find(q, t), Find(q, u);
    GrantedIff(q, if i < j then j else i);
  }
}

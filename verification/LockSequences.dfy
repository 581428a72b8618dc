/** Requesting and releasing a whole key list for one transaction, as the scheduler's loops do. */
module LockSequences {
  import opened Base
  import opened LockTable

  /** Requests t's lock on each key in turn. */
  function RequestKeys(s: LockState, t: TxnId, keys: seq<Key>, mode: RequestMode): LockState {
    if keys == [] then s
    else RequestLock(RequestKeys(s, t, keys[..|keys| - 1], mode), t, keys[|keys| - 1], mode)
  }

  /** Whether one of those requests was not granted at once. */
  predicate Refused(s: LockState, t: TxnId, keys: seq<Key>, mode: RequestMode) {
    keys != [] &&
    var before, k := keys[..|keys| - 1], keys[|keys| - 1];
    Refused(s, t, before, mode) || !LastGranted(Enqueue(RequestKeys(s, t, before, mode).table, t, k, mode)[k])
  }

  function ReleaseKeys(s: LockState, t: TxnId, keys: seq<Key>): LockState {
    if keys == [] then s
    else ReleaseLock(ReleaseKeys(s, t, keys[..|keys| - 1]), t, keys[|keys| - 1])
  }

  predicate Queued(s: LockState, t: TxnId, k: Key) {
    Find(QueueOf(s.table, k), t) < |QueueOf(s.table, k)|
  }

  /** t's request is appended to each of the keys' queues; t waits if one was refused. */
  lemma {:induction false} RequestKeysEffect(s: LockState, t: TxnId, keys: seq<Key>, mode: RequestMode)
    requires Inv(s) && NoDup(keys)
    requires forall k :: k in keys && Queued(s, t, k) ==> mode == Exclusive
    ensures var s' := RequestKeys(s, t, keys, mode);
            && Inv(s') && s'.ready == s.ready
            && (forall k :: QueueOf(s'.table, k) ==
                  if k in keys then QueueOf(s.table, k) + [LockRequest(t, mode)] else QueueOf(s.table, k))
            && (forall u :: u in s'.waits <==> u in s.waits || (u == t && Refused(s, t, keys, mode)))
  {
    if keys != [] {
      var before, k := keys[..|keys| - 1], keys[|keys| - 1];
      RequestKeysEffect(s, t, before, mode);
      assert forall x :: x in keys <==> x in before || x == k;
      assert k !in before;
      RequestKeepsInv(RequestKeys(s, t, before, mode), t, k, mode);
    }
  }

  /** The queue without t's request. */
  function Without(q: Queue, t: TxnId): Queue {
    if Find(q, t) < |q| then Remove(q, Find(q, t)) else q
  }

  /** From s to s' the transactions that stopped waiting, and no others, were made ready, once each. */
  ghost predicate Woken(s: LockState, s': LockState, t: TxnId) {
    && s.ready <= s'.ready && NoDup(s'.ready[|s.ready|..])
    && (forall u :: u in s'.ready[|s.ready|..] <==> u != t && u in s.waits && u !in s'.waits)
    && s'.waits.Keys <= s.waits.Keys
  }

  lemma WokenInTurn(s: LockState, s1: LockState, s': LockState, t: TxnId)
    requires Woken(s, s1, t) && Woken(s1, s', t)
    ensures Woken(s, s', t)
  {
    var a, b := s1.ready[|s.ready|..], s'.ready[|s1.ready|..];
    assert s'.ready[|s.ready|..] == a + b;
    assert forall u :: u in a + b <==> u in a || u in b;
    assert forall u :: u in a ==> u !in b;
    assert NoDup(a + b) by {
      assert forall i :: 0 <= i < |b| ==> b[i] in b;
    }
  }

  /** t leaves the keys' queues; those that no longer wait become ready. */
  lemma {:induction false} ReleaseKeysEffect(s: LockState, t: TxnId, keys: seq<Key>)
    requires Inv(s) && NoDup(keys) && forall k :: k in keys ==> !Doubled(QueueOf(s.table, k), t)
    ensures var s' := ReleaseKeys(s, t, keys);
            && Inv(s') && Woken(s, s', t)
            && (forall k :: QueueOf(s'.table, k) ==
                  if k in keys then Without(QueueOf(s.table, k), t) else QueueOf(s.table, k))
  {
    if keys != [] {
      var before, k := keys[..|keys| - 1], keys[|keys| - 1];
      ReleaseKeysEffect(s, t, before);
      var s1, s' := ReleaseKeys(s, t, before), ReleaseKeys(s, t, keys);
      assert k !in before;
      ReleaseKeepsInv(s1, t, k);
      WokenInTurn(s, s1, s', t);
      ReleaseQueues(s1, t, k);
      assert k !in before;
      assert forall x :: x in keys <==> x in before || x == k;
    }
  }

  lemma ReleaseQueues(s: LockState, t: TxnId, k: Key)
    ensures forall x :: QueueOf(ReleaseLock(s, t, k).table, x) ==
              if x == k then Without(QueueOf(s.table, x), t) else QueueOf(s.table, x)
  {
  }
}

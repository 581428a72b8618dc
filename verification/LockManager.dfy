/**
 * The lock manager object: `LockManagerA` (exclusive locks only) and `LockManagerB`
 * (shared and exclusive), over the fields the header documents. Each method is proved
 * against the lock table's functions, whose properties are proved in LockTable and
 * LockCalls.
 */
module LockManager {
  import opened LockTable

  /** A deque of transactions that several objects share by pointer. */
  class TxnDeque {
    var items: seq<TxnId>

    constructor ()
      ensures items == []
    {
      items := [];
    }

    method PushBack(t: TxnId)
      modifies this
      ensures items == old(items) + [t]
    {
      items := items + [t];
    }
  }

  class LockManager {
    const exclusiveOnly: bool
    const readyTxns: TxnDeque
    var lockTable: Table
    var txnWaits: map<TxnId, nat>

    /** LockManagerA. */
    constructor A(ready: TxnDeque)
      ensures exclusiveOnly && readyTxns == ready
      ensures State() == LockState(map[], map[], ready.items)
    {
      exclusiveOnly, readyTxns, lockTable, txnWaits := true, ready, map[], map[];
    }

    /** LockManagerB. */
    constructor B(ready: TxnDeque)
      ensures !exclusiveOnly && readyTxns == ready
      ensures State() == LockState(map[], map[], ready.items)
    {
      exclusiveOnly, readyTxns, lockTable, txnWaits := false, ready, map[], map[];
    }

    ghost function State(): LockState
      reads this, readyTxns
    {
      LockState(lockTable, txnWaits, readyTxns.items)
    }

    /** Appends the request, and counts it as a wait unless it is granted. */
    method Request(t: TxnId, k: Key, mode: RequestMode, granted: bool)
      requires granted <==> LastGranted(Enqueue(lockTable, t, k, mode)[k])
      modifies this
      ensures State() == RequestLock(old(State()), t, k, mode)
    {
      lockTable := Enqueue(lockTable, t, k, mode);
      if !granted {
        txnWaits := txnWaits[t := CountOf(txnWaits, t) + 1];
      }
    }

    /** An exclusive request is granted exactly when nobody is queued. */
    method WriteLock(t: TxnId, k: Key) returns (granted: bool)
      modifies this
      ensures State() == RequestLock(old(State()), t, k, Exclusive)
      ensures granted <==> LastGranted(lockTable[k])
    {
      granted := |QueueOf(lockTable, k)| == 0;
      assert LastGranted(Enqueue(lockTable, t, k, Exclusive)[k]) <==> granted by {
        var q := Enqueue(lockTable, t, k, Exclusive)[k];
        assert q[|q| - 1].mode == Exclusive;
        GrantedIff(q, |q| - 1);
      }
      Request(t, k, Exclusive, granted);
    }

    /** A shared request is granted exactly when only shared requests are queued. */
    method ReadLock(t: TxnId, k: Key) returns (granted: bool)
      modifies this
      ensures State() == RequestLock(old(State()), t, k, if exclusiveOnly then Exclusive else Shared)
      ensures granted <==> LastGranted(lockTable[k])
    {
      if exclusiveOnly {
        granted := WriteLock(t, k);
        return;
      }
      var q := QueueOf(lockTable, k);
      var i := 0;
      while i < |q| && q[i].mode == Shared
        invariant 0 <= i <= |q|
        invariant forall j :: 0 <= j < i ==> q[j].mode == Shared
      {
        i := i + 1;
      }
      granted := i == |q|;
      assert LastGranted(Enqueue(lockTable, t, k, Shared)[k]) <==> granted by {
        var q' := Enqueue(lockTable, t, k, Shared)[k];
        assert forall j :: 0 <= j < |q| ==> q'[j] == q[j];
        GrantedIff(q', |q|);
      }
      Request(t, k, Shared, granted);
    }

    /** Counts the granted requests of a queue. */
    static method CountGranted(q: Queue) returns (g: nat)
      ensures g == Granted(q)
    {
      if q != [] && q[0].mode == Exclusive {
        return 1;
      }
      g := 0;
      while g < |q| && q[g].mode == Shared
        invariant g <= |q|
        invariant forall j :: 0 <= j < g ==> q[j].mode == Shared
      {
        g := g + 1;
      }
      GrantedEnd(q, g);
    }

    static method FindRequest(q: Queue, t: TxnId) returns (p: nat)
      ensures p == Find(q, t)
    {
      p := 0;
      while p < |q| && q[p].txn != t
        invariant p <= |q|
        invariant forall j :: 0 <= j < p ==> q[j].txn != t
      {
        p := p + 1;
      }
    }

    /** Grants one lock to each of ts, appending to the ready queue those that wait no more. */
    method Grant(ts: seq<TxnId>)
      modifies this`txnWaits, readyTxns
      ensures (txnWaits, readyTxns.items) == Wake(old(txnWaits), old(readyTxns.items), ts)
    {
      var i := 0;
      while i < |ts|
        invariant i <= |ts|
        invariant Wake(txnWaits, readyTxns.items, ts[i..]) == Wake(old(txnWaits), old(readyTxns.items), ts)
      {
        var waiting := ts[i] in txnWaits;
        txnWaits := DecWait(txnWaits, ts[i]);
        if waiting && ts[i] !in txnWaits {
          readyTxns.PushBack(ts[i]);
        }
        i := i + 1;
      }
    }

    /** Releases t's lock on k or cancels its request, and wakes whom that grants the lock. */
    method Release(t: TxnId, k: Key)
      modifies this, readyTxns
      ensures State() == ReleaseLock(old(State()), t, k)
    {
      var q := QueueOf(lockTable, k);
      var p := FindRequest(q, t);
      if p == |q| {
        return;
      }
      var before := CountGranted(q);
      var q' := q[..p] + q[p + 1..];
      var after := CountGranted(q');
      lockTable := lockTable[k := q'];
      if before <= p {
        txnWaits := DecWait(txnWaits, t);
      }
      KeptStayGranted(q, p);
      Grant(Txns(q'[if p < before then before - 1 else before..after]));
    }

    /** Replaces `owners` by the lock's holders in request order, and reports its mode. */
    method Status(k: Key, owners: TxnDeque) returns (mode: LockMode)
      modifies owners
      ensures var q := QueueOf(lockTable, k);
              && owners.items == Txns(q[..Granted(q)])
              && (forall t :: t in owners.items <==> Holds(q, t))
              && (mode == Unlocked <==> owners.items == [])
              && (forall i :: 0 <= i < |owners.items| ==> q[i].mode == mode)
    {
      var q := QueueOf(lockTable, k);
      ModeOfHolders(q);
      OwnersHold(q);
      owners.items := [];
      mode := if q == [] then Unlocked else q[0].mode;
      var g := CountGranted(q);
      var i := 0;
      while i < g
        invariant i <= g
        invariant owners.items == Txns(q[..i])
      {
        owners.PushBack(q[i].txn);
        i := i + 1;
      }
    }
  }

  /** A run of g shared requests that cannot be prolonged is the whole granted prefix. */
  lemma GrantedEnd(q: Queue, g: nat)
    requires g <= |q| && (q == [] || q[0].mode == Shared)
    requires forall j :: 0 <= j < g ==> q[j].mode == Shared
    requires g < |q| ==> q[g].mode != Shared
    ensures Granted(q) == g
  {
    if g < |q| {
      GrantedIff(q, g);
    }
    if 0 < g {
      GrantedIff(q, g - 1);
    }
  }
}

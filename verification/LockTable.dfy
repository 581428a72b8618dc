/**
 * The lock table of the deterministic two-phase locking manager, on values.
 *
 * A key's queue lists its requests in arrival order. The granted requests are a
 * prefix of it: its first request if that one is exclusive, and otherwise the
 * longest prefix of shared requests.
 */
module LockTable {
  import opened Base

  type Key = Word
  type TxnId = nat

  datatype LockMode = Unlocked | Shared | Exclusive

  /** The modes a request can ask for. */
  type RequestMode = m: LockMode | m != Unlocked witness Shared

  datatype LockRequest = LockRequest(txn: TxnId, mode: RequestMode)

  type Queue = seq<LockRequest>
  type Table = map<Key, Queue>

  /** `lock_table_`, `txn_waits_` and the shared `ready_txns_`. */
  datatype LockState = LockState(table: Table, waits: map<TxnId, nat>, ready: seq<TxnId>)

  /***** Queues *****/

  function QueueOf(table: Table, k: Key): Queue {
    if k in table then table[k] else []
  }

  /** The length of the longest prefix of shared requests. */
  function SharedPrefix(q: Queue): (n: nat)
    ensures n <= |q|
  {
    if q != [] && q[0].mode == Shared then 1 + SharedPrefix(q[1..]) else 0
  }

  /** How many requests at the front of the queue are granted. */
  function Granted(q: Queue): (g: nat)
    ensures g <= |q|
  {
    if q != [] && q[0].mode == Exclusive then 1 else SharedPrefix(q)
  }

  /** The `txn` fields of a queue, in order. */
  function Txns(q: Queue): (ts: seq<TxnId>)
    ensures |ts| == |q|
    ensures forall i :: 0 <= i < |q| ==> ts[i] == q[i].txn
  {
    seq(|q|, i requires 0 <= i < |q| => q[i].txn)
  }

  function Owners(q: Queue): seq<TxnId> {
    Txns(q[..Granted(q)])
  }

  function ModeOf(q: Queue): LockMode {
    if q == [] then Unlocked else q[0].mode
  }

  /** The position of t's request, or the length of the queue. */
  function Find(q: Queue, t: TxnId): (p: nat)
    ensures p <= |q|
    ensures p < |q| ==> q[p].txn == t
    ensures forall i :: 0 <= i < p ==> q[i].txn != t
  {
    if q == [] || q[0].txn == t then 0 else 1 + Find(q[1..], t)
  }

  /** t's request is granted. */
  predicate Holds(q: Queue, t: TxnId) {
    Find(q, t) < Granted(q)
  }

  /** t's request is queued behind the granted prefix. */
  predicate Waits(q: Queue, t: TxnId) {
    Granted(q) <= Find(q, t) < |q|
  }

  ghost predicate DistinctTxns(q: Queue) {
    forall i, j :: 0 <= i < j < |q| ==> q[i].txn != q[j].txn
  }

  /** Where a transaction has asked for the lock again, it has asked for it exclusively. */
  ghost predicate LaterExclusive(q: Queue) {
    forall i, j :: 0 <= i < j < |q| && q[i].txn == q[j].txn ==> q[j].mode == Exclusive
  }

  /** t has asked for the lock more than once. */
  ghost predicate Doubled(q: Queue, t: TxnId) {
    exists j :: Find(q, t) < j < |q| && q[j].txn == t
  }

  /** The granted requests are those with only shared requests up to them, or the first. */
  lemma {:induction false} SharedPrefixIff(q: Queue, i: nat)
    requires i < |q|
    ensures i < SharedPrefix(q) <==> forall j :: 0 <= j <= i ==> q[j].mode == Shared
  {
    if q[0].mode == Shared && i > 0 {
      SharedPrefixIff(q[1..], i - 1);
      assert forall j :: 0 < j <= i ==> q[j] == q[1..][j - 1];
    }
  }

  lemma GrantedIff(q: Queue, i: nat)
    requires i < |q|
    ensures i < Granted(q) <==> i == 0 || forall j :: 0 <= j <= i ==> q[j].mode == Shared
  {
    SharedPrefixIff(q, i);
    SharedPrefixIff(q, 0);
  }

  /** Of two granted requests, both share. */
  lemma GrantedTogether(q: Queue, i: nat, j: nat)
    requires i < j < Granted(q)
    ensures q[i].mode == Shared && q[j].mode == Shared
  {
    GrantedIff(q, j);
  }

  /** The owners are the transactions that hold the lock, in the order of their requests. */
  lemma OwnersHold(q: Queue)
    ensures |Owners(q)| == Granted(q) && forall i :: 0 <= i < Granted(q) ==> Owners(q)[i] == q[i].txn
    ensures forall t :: t in Owners(q) <==> Holds(q, t)
    ensures LaterExclusive(q) ==> NoDup(Owners(q))
  {
    forall t | Holds(q, t)
      ensures t in Owners(q)
    {
      assert Owners(q)[Find(q, t)] == t;
    }
    forall i, j | 0 <= i < j < Granted(q) && LaterExclusive(q)
      ensures q[i].txn != q[j].txn
    {
      GrantedTogether(q, i, j);
    }
  }

  /**
   * The lock is unlocked exactly if nobody holds it, and otherwise in the mode in which every
   * holder holds it.
   */
  lemma ModeOfHolders(q: Queue)
    ensures ModeOf(q) == Unlocked <==> forall t :: !Holds(q, t)
    ensures forall i :: 0 <= i < Granted(q) ==> q[i].mode == ModeOf(q)
    ensures ModeOf(q) == Exclusive <==> exists t :: Holds(q, t) && q[Find(q, t)].mode == Exclusive
    ensures ModeOf(q) == Shared <==> exists t :: Holds(q, t) && q[Find(q, t)].mode == Shared
  {
    forall i | 0 <= i < Granted(q)
      ensures q[i].mode == ModeOf(q)
    {
      GrantedIff(q, i);
    }
    if q != [] {
      assert Holds(q, q[0].txn);
    }
  }

  /***** Requests and releases *****/

  function Remove(q: Queue, p: nat): Queue
    requires p < |q|
  {
    q[..p] + q[p + 1..]
  }

  /** How many of the granted requests are left when the request at p goes. */
  function Kept(q: Queue, p: nat): nat
    requires p < |q|
  {
    if p < Granted(q) then Granted(q) - 1 else Granted(q)
  }

  /** One lock less to wait for; an entry that reaches zero is dropped. */
  function DecWait(waits: map<TxnId, nat>, t: TxnId): map<TxnId, nat> {
    if t !in waits then waits
    else if waits[t] <= 1 then waits - {t}
    else waits[t := waits[t] - 1]
  }

  function CountOf(waits: map<TxnId, nat>, t: TxnId): nat {
    if t in waits then waits[t] else 0
  }

  /** Grants one lock to each of ts in turn; a transaction that waits no longer becomes ready. */
  function Wake(waits: map<TxnId, nat>, ready: seq<TxnId>, ts: seq<TxnId>): (map<TxnId, nat>, seq<TxnId>)
  {
    if ts == [] then (waits, ready)
    else
      var waits' := DecWait(waits, ts[0]);
      Wake(waits', if ts[0] in waits && ts[0] !in waits' then ready + [ts[0]] else ready, ts[1..])
  }

  function Enqueue(table: Table, t: TxnId, k: Key, mode: RequestMode): Table {
    table[k := QueueOf(table, k) + [LockRequest(t, mode)]]
  }

  /** Whether the last request of the queue is granted. */
  predicate LastGranted(q: Queue) {
    Granted(q) == |q|
  }

  function RequestLock(s: LockState, t: TxnId, k: Key, mode: RequestMode): LockState {
    var table := Enqueue(s.table, t, k, mode);
    LockState(table,
              if LastGranted(table[k]) then s.waits else s.waits[t := CountOf(s.waits, t) + 1],
              s.ready)
  }

  /** The transactions granted k's lock because the request at p goes. */
  function NewlyGranted(q: Queue, p: nat): seq<TxnId>
    requires p < |q|
  {
    var q' := Remove(q, p);
    if Kept(q, p) <= Granted(q') then Txns(q'[Kept(q, p)..Granted(q')]) else []
  }

  function ReleaseLock(s: LockState, t: TxnId, k: Key): LockState {
    var q := QueueOf(s.table, k);
    var p := Find(q, t);
    if p == |q| then s
    else
      var waits := if p < Granted(q) then s.waits else DecWait(s.waits, t);
      var (waits', ready') := Wake(waits, s.ready, NewlyGranted(q, p));
      LockState(s.table[k := Remove(q, p)], waits', ready')
  }

  /***** What one release does to its queue *****/

  /** No holder is revoked: the granted requests that stay are still a granted prefix. */
  lemma KeptStayGranted(q: Queue, p: nat)
    requires p < |q|
    ensures Kept(q, p) <= Granted(Remove(q, p))
  {
    var q', kept := Remove(q, p), Kept(q, p);
    if 0 < kept {
      GrantedIff(q', kept - 1);
      GrantedIff(q, Granted(q) - 1);
    }
  }

  /** A granted request is its transaction's first. */
  lemma GrantedFirst(q: Queue, i: nat)
    requires LaterExclusive(q) && i < Granted(q)
    ensures Find(q, q[i].txn) == i
  {
    GrantedIff(q, i);
  }

  lemma RemoveAt(q: Queue, p: nat)
    requires p < |q|
    ensures |Remove(q, p)| == |q| - 1
    ensures forall i :: 0 <= i < |q| - 1 ==> Remove(q, p)[i] == q[if i < p then i else i + 1]
  {
  }

  /** Where u's first request stands once another's at p is gone. */
  lemma FindAfterRemove(q: Queue, p: nat, u: TxnId)
    requires p < |q| && u != q[p].txn
    ensures Find(Remove(q, p), u) == if Find(q, u) < p then Find(q, u) else Find(q, u) - 1
    ensures Doubled(Remove(q, p), u) <==> Doubled(q, u)
  {
    hide Granted, Remove;
    RemoveAt(q, p);
    var q', f := Remove(q, p), Find(q, u);
    if f < |q| {
      assert q'[if f < p then f else f - 1] == q[f];
      if j :| f < j < |q| && q[j].txn == u {
        assert q'[if j < p then j else j - 1].txn == u;
      }
    }
  }

  /** It was u's only one. */
  lemma NoneAfterRemove(q: Queue, p: nat, u: TxnId)
    requires p < |q| && u == q[p].txn && !Doubled(q, u)
    ensures Find(Remove(q, p), u) == |q| - 1 && !Doubled(Remove(q, p), u)
  {
    hide Granted, Remove;
    RemoveAt(q, p);
  }

  lemma RemoveKeepsOrder(q: Queue, p: nat)
    requires p < |q|
    ensures LaterExclusive(q) ==> LaterExclusive(Remove(q, p))
    ensures DistinctTxns(q) ==> DistinctTxns(Remove(q, p))
  {
    hide Remove;
    RemoveAt(q, p);
  }

  /** Within the granted prefix, u stands in a slice when its first request does. */
  lemma InSlice(q: Queue, lo: nat, hi: nat, u: TxnId)
    requires lo <= hi <= Granted(q) && LaterExclusive(q)
    ensures u in Txns(q[lo..hi]) <==> lo <= Find(q, u) < hi
    ensures NoDup(Txns(q[lo..hi]))
  {
    var ts := Txns(q[lo..hi]);
    assert forall i :: 0 <= i < |ts| ==> ts[i] == q[lo + i].txn;
    forall i | 0 <= i < |ts|
      ensures Find(q, ts[i]) == lo + i
    {
      GrantedFirst(q, lo + i);
    }
    if lo <= Find(q, u) < hi {
      assert ts[Find(q, u) - lo] == u;
    }
  }

  /**
   * Releasing a transaction's request, wherever it stands: if it had asked only once it neither
   * holds nor waits any more, each other holder stays one, and of the others the newly granted
   * are exactly those that hold the lock now and did not before, which are those whose first
   * request no longer waits.
   */
  lemma ReleaseEffect(q: Queue, p: nat, u: TxnId)
    requires p < |q| && LaterExclusive(q)
    ensures LaterExclusive(Remove(q, p)) && NoDup(NewlyGranted(q, p))
    ensures u == q[p].txn && !Doubled(q, u) ==>
              !Holds(Remove(q, p), u) && !Waits(Remove(q, p), u) && u !in NewlyGranted(q, p)
    ensures u != q[p].txn && Holds(q, u) ==> Holds(Remove(q, p), u)
    ensures u != q[p].txn ==> (u in NewlyGranted(q, p) <==> Holds(Remove(q, p), u) && !Holds(q, u))
    ensures u != q[p].txn ==> (u in NewlyGranted(q, p) <==> Waits(q, u) && !Waits(Remove(q, p), u))
    ensures u != q[p].txn && Waits(Remove(q, p), u) ==> Waits(q, u)
  {
    KeptStayGranted(q, p);
    RemoveKeepsOrder(q, p);
    if u != q[p].txn {
      FindAfterRemove(q, p, u);
    } else if !Doubled(q, u) {
      NoneAfterRemove(q, p, u);
    }
    InSlice(Remove(q, p), Kept(q, p), Granted(Remove(q, p)), u);
  }

  lemma FindAfterAppend(q: Queue, r: LockRequest, u: TxnId)
    ensures Find(q + [r], u) < |q| + 1 <==> Find(q, u) < |q| || u == r.txn
  {
    assert (q + [r])[|q|] == r;
    if Find(q, u) < |q| {
      assert (q + [r])[Find(q, u)] == q[Find(q, u)];
    }
  }

  /** Appending a request changes the standing of no earlier one. */
  lemma AppendKeeps(q: Queue, r: LockRequest, u: TxnId)
    ensures Find(q, u) < |q| ==> Find(q + [r], u) == Find(q, u)
    ensures Find(q, u) < |q| ==> (Holds(q + [r], u) <==> Holds(q, u)) && (Waits(q + [r], u) <==> Waits(q, u))
    ensures Find(q, u) == |q| ==> Find(q + [r], u) == if r.txn == u then |q| else |q| + 1
  {
    hide Granted;
    var q', f := q + [r], Find(q, u);
    assert forall j :: 0 <= j < |q| ==> q'[j] == q[j];
    assert q'[|q|] == r;
    if f < |q| {
      assert Find(q', u) == f;
      GrantedIff(q, f);
      GrantedIff(q', f);
    }
  }

  /** An exclusive request behind any other is not granted. */
  lemma SecondRefused(q: Queue, t: TxnId)
    requires q != []
    ensures !LastGranted(q + [LockRequest(t, Exclusive)])
  {
    var q' := q + [LockRequest(t, Exclusive)];
    assert q'[|q|].mode == Exclusive;
    GrantedIff(q', |q|);
  }

  lemma AppendDoubled(q: Queue, r: LockRequest, u: TxnId)
    requires LaterExclusive(q) && (Find(q, r.txn) < |q| ==> r.mode == Exclusive)
    ensures LaterExclusive(q + [r])
    ensures Doubled(q + [r], u) <==> Doubled(q, u) || (u == r.txn && Find(q, u) < |q|)
    ensures DistinctTxns(q) && Find(q, r.txn) == |q| ==> DistinctTxns(q + [r])
  {
    hide Granted;
    var q' := q + [r];
    assert forall j :: 0 <= j < |q| ==> q'[j] == q[j];
    assert q'[|q|] == r;
    AppendKeeps(q, r, u);
    if j :| Find(q, u) < j < |q| && q[j].txn == u {
      assert q'[j].txn == u;
    }
  }

  /**
   * A new request at the end leaves every earlier one as it was, and is granted exactly with
   * the whole queue; a second one of the same transaction is not granted.
   */
  lemma EnqueueEffect(q: Queue, r: LockRequest, u: TxnId)
    requires LaterExclusive(q) && (Find(q, r.txn) < |q| ==> r.mode == Exclusive)
    ensures LaterExclusive(q + [r])
    ensures u != r.txn || Find(q, u) < |q| ==>
              (Holds(q + [r], u) <==> Holds(q, u)) && (Waits(q + [r], u) <==> Waits(q, u))
    ensures Find(q, r.txn) == |q| ==> (Holds(q + [r], r.txn) <==> LastGranted(q + [r]))
    ensures Find(q, r.txn) == |q| ==> (Waits(q + [r], r.txn) <==> !LastGranted(q + [r]))
    ensures Find(q, r.txn) < |q| ==> !LastGranted(q + [r])
  {
    AppendKeeps(q, r, u);
    AppendKeeps(q, r, r.txn);
    AppendDoubled(q, r, u);
    if Find(q, r.txn) < |q| {
      SecondRefused(q, r.txn);
    }
  }

  /***** The invariant *****/

  /** The keys on which t is queued behind the granted prefix. */
  ghost function WaitSet(table: Table, t: TxnId): set<Key> {
    set k | k in table && Waits(table[k], t)
  }

  ghost predicate Positive(waits: map<TxnId, nat>) {
    forall t :: t in waits ==> 0 < waits[t]
  }

  /** Some key's lock has been asked for twice by t. */
  ghost predicate Repeats(table: Table, t: TxnId) {
    exists k :: Doubled(QueueOf(table, k), t)
  }

  /** A count of t's first requests that wait, and of any later ones on top. */
  ghost predicate CountFits(count: nat, table: Table, t: TxnId) {
    |WaitSet(table, t)| <= count && (count == |WaitSet(table, t)| <==> !Repeats(table, t))
  }

  ghost predicate CountOk(waits: map<TxnId, nat>, table: Table, t: TxnId) {
    CountFits(CountOf(waits, t), table, t)
  }

  /**
   * Second requests are exclusive, and `txn_waits_` holds, for exactly the transactions that
   * wait, the number of keys they wait for, or more than that if they wait behind themselves.
   */
  ghost predicate Inv(s: LockState) {
    && (forall k :: LaterExclusive(QueueOf(s.table, k)))
    && Positive(s.waits)
    && (forall t {:trigger CountOk(s.waits, s.table, t)} :: CountOk(s.waits, s.table, t))
  }

  /** t has an entry in `txn_waits_` exactly when it waits for some lock, or behind itself. */
  lemma WaitsIff(s: LockState, t: TxnId)
    requires Inv(s)
    ensures t in s.waits <==> Repeats(s.table, t) || exists k :: Waits(QueueOf(s.table, k), t)
  {
    assert CountOk(s.waits, s.table, t);
    if k :| Waits(QueueOf(s.table, k), t) {
      assert k in WaitSet(s.table, t);
    }
    if t in s.waits && !Repeats(s.table, t) {
      var k :| k in WaitSet(s.table, t);
      assert Waits(QueueOf(s.table, k), t);
    }
  }

  lemma WaitSetAfterRequest(table: Table, t: TxnId, k: Key, mode: RequestMode, u: TxnId)
    requires LaterExclusive(QueueOf(table, k)) && (Find(QueueOf(table, k), t) < |QueueOf(table, k)| ==> mode == Exclusive)
    ensures var table', again := Enqueue(table, t, k, mode), Find(QueueOf(table, k), t) < |QueueOf(table, k)|;
            && LaterExclusive(table'[k])
            && (u != t || again || LastGranted(table'[k]) ==> WaitSet(table', u) == WaitSet(table, u))
            && (u == t && !again && !LastGranted(table'[k]) ==>
                  WaitSet(table', t) == WaitSet(table, t) + {k} && k !in WaitSet(table, t))
            && (again ==> !LastGranted(table'[k]))
            && (Repeats(table', u) <==> Repeats(table, u) || (u == t && again))
  {
    var q, r, table' := QueueOf(table, k), LockRequest(t, mode), Enqueue(table, t, k, mode);
    EnqueueEffect(q, r, u);
    AppendDoubled(q, r, u);
    assert QueueOf(table', k) == q + [r];
    assert forall x :: x != k ==> QueueOf(table', x) == QueueOf(table, x);
  }

  /** Requests keep the invariant. */
  lemma RequestKeepsInv(s: LockState, t: TxnId, k: Key, mode: RequestMode)
    requires Inv(s)
    requires Find(QueueOf(s.table, k), t) < |QueueOf(s.table, k)| ==> mode == Exclusive
    ensures Inv(RequestLock(s, t, k, mode))
  {
    var s' := RequestLock(s, t, k, mode);
    assert LaterExclusive(QueueOf(s.table, k));
    forall u
      ensures CountOk(s'.waits, s'.table, u)
    {
      assert CountOk(s.waits, s.table, u);
      WaitSetAfterRequest(s.table, t, k, mode, u);
    }
    forall x
      ensures LaterExclusive(QueueOf(s'.table, x))
    {
      WaitSetAfterRequest(s.table, t, k, mode, t);
      assert LaterExclusive(QueueOf(s.table, x));
    }
  }

  /** After waking ts, each of them has one lock less to wait for. */
  lemma {:induction false} WakeCounts(waits: map<TxnId, nat>, ready: seq<TxnId>, ts: seq<TxnId>, u: TxnId)
    requires NoDup(ts) && Positive(waits)
    requires forall t :: t in ts ==> t in waits
    ensures Positive(Wake(waits, ready, ts).0)
    ensures CountOf(Wake(waits, ready, ts).0, u) == CountOf(waits, u) - if u in ts then 1 else 0
  {
    if ts != [] {
      var waits1 := DecWait(waits, ts[0]);
      var ready1 := if ts[0] in waits && ts[0] !in waits1 then ready + [ts[0]] else ready;
      WakeCounts(waits1, ready1, ts[1..], u);
      assert u in ts <==> u == ts[0] || u in ts[1..];
    }
  }

  /** Waking ts appends to the ready queue, once each, those of ts that waited for one lock. */
  lemma {:induction false} WakeReady(waits: map<TxnId, nat>, ready: seq<TxnId>, ts: seq<TxnId>)
    requires NoDup(ts)
    ensures var ready' := Wake(waits, ready, ts).1;
            && ready <= ready'
            && NoDup(ready'[|ready|..])
            && (forall t :: t in ready'[|ready|..] <==> t in ts && t in waits && waits[t] <= 1)
  {
    if ts != [] {
      var waits1 := DecWait(waits, ts[0]);
      var ready1 := if ts[0] in waits && ts[0] !in waits1 then ready + [ts[0]] else ready;
      WakeReady(waits1, ready1, ts[1..]);
      var ready' := Wake(waits, ready, ts).1;
      assert ready'[|ready|..] == ready1[|ready|..] + ready'[|ready1|..];
      assert forall u :: u in ts <==> u == ts[0] || u in ts[1..];
    }
  }

  lemma WaitSetAfterRelease(table: Table, p: nat, k: Key, u: TxnId)
    requires k in table && LaterExclusive(table[k]) && p < |table[k]| && p == Find(table[k], table[k][p].txn)
    requires !Doubled(table[k], table[k][p].txn)
    ensures var q, table' := table[k], table[k := Remove(table[k], p)];
            var after := WaitSet(table', u);
            && (u in NewlyGranted(q, p) ==> u != q[p].txn && k in WaitSet(table, u) && after == WaitSet(table, u) - {k})
            && (u == q[p].txn ==> after == WaitSet(table, u) - {k} && (k in WaitSet(table, u) <==> Granted(q) <= p))
            && (u !in NewlyGranted(q, p) && u != q[p].txn ==> after == WaitSet(table, u))
            && (Repeats(table', u) <==> Repeats(table, u))
            && LaterExclusive(Remove(q, p)) && NoDup(NewlyGranted(q, p))
  {
    hide Granted, Find;
    var table' := table[k := Remove(table[k], p)];
    ReleaseEffect(table[k], p, u);
    if u != table[k][p].txn {
      FindAfterRemove(table[k], p, u);
    } else {
      NoneAfterRemove(table[k], p, u);
    }
    assert forall x :: x != k ==> QueueOf(table', x) == QueueOf(table, x);
    assert QueueOf(table', k) == Remove(table[k], p) && QueueOf(table, k) == table[k];
  }

  /** Before the others are woken, only t's own count and queue have changed. */
  lemma CancelCounts(s: LockState, p: nat, k: Key, u: TxnId)
    requires Inv(s) && k in s.table && p < |s.table[k]| && p == Find(s.table[k], s.table[k][p].txn)
    requires !Doubled(s.table[k], s.table[k][p].txn)
    ensures var q := s.table[k];
            var waits := if p < Granted(q) then s.waits else DecWait(s.waits, q[p].txn);
            var n := if u in NewlyGranted(q, p) then 1 else 0;
            && Positive(waits)
            && n <= CountOf(waits, u) && CountFits(CountOf(waits, u) - n, s.table[k := Remove(q, p)], u)
            && CountOf(waits, u) <= CountOf(s.waits, u)
            && (u != q[p].txn ==> CountOf(waits, u) == CountOf(s.waits, u))
            && (u in NewlyGranted(q, p) ==> u != q[p].txn && u in waits)
  {
    assert LaterExclusive(QueueOf(s.table, k));
    WaitSetAfterRelease(s.table, p, k, u);
    assert CountOk(s.waits, s.table, u);
  }

  /** What releasing t's request at p of k's queue does to u's wait count. */
  lemma ReleaseCounts(s: LockState, t: TxnId, p: nat, k: Key, u: TxnId)
    requires Inv(s) && k in s.table && p < |s.table[k]| && Find(s.table[k], t) == p && !Doubled(s.table[k], t)
    ensures var q := s.table[k];
            var s' := ReleaseLock(s, t, k);
            && CountOk(s'.waits, s'.table, u)
            && Positive(s'.waits)
            && (u in NewlyGranted(q, p) ==> u != t && CountOf(s'.waits, u) == CountOf(s.waits, u) - 1)
            && (u !in NewlyGranted(q, p) && u != t ==> CountOf(s'.waits, u) == CountOf(s.waits, u))
            && CountOf(s'.waits, u) <= CountOf(s.waits, u)
  {
    var q := s.table[k];
    var woken := NewlyGranted(q, p);
    var waits := if p < Granted(q) then s.waits else DecWait(s.waits, t);
    assert LaterExclusive(QueueOf(s.table, k));
    forall v
      ensures v in woken ==> v in waits
      ensures NoDup(woken) && Positive(waits)
    {
      CancelCounts(s, p, k, v);
      WaitSetAfterRelease(s.table, p, k, v);
    }
    CancelCounts(s, p, k, u);
    WakeCounts(waits, s.ready, woken, u);
  }

  /** Who is made ready by releasing t's request at p of k's queue. */
  lemma ReleaseReady(s: LockState, t: TxnId, p: nat, k: Key)
    requires Inv(s) && k in s.table && p < |s.table[k]| && Find(s.table[k], t) == p && !Doubled(s.table[k], t)
    ensures var s' := ReleaseLock(s, t, k);
            && s.ready <= s'.ready
            && NoDup(s'.ready[|s.ready|..])
            && (forall u :: u in s'.ready[|s.ready|..] <==> u != t && u in s.waits && u !in s'.waits)
  {
    var q, s' := s.table[k], ReleaseLock(s, t, k);
    var waits := if p < Granted(q) then s.waits else DecWait(s.waits, t);
    assert LaterExclusive(QueueOf(s.table, k));
    WaitSetAfterRelease(s.table, p, k, t);
    WakeReady(waits, s.ready, NewlyGranted(q, p));
    forall u
      ensures u in s'.ready[|s.ready|..] <==> u != t && u in s.waits && u !in s'.waits
    {
      CancelCounts(s, p, k, u);
      ReleaseCounts(s, t, p, k, u);
    }
  }

  /**
   * A release keeps the invariant, and appends to the ready queue, once each, exactly the
   * other transactions that waited for a lock before and wait for none now.
   */
  lemma ReleaseKeepsInv(s: LockState, t: TxnId, k: Key)
    requires Inv(s) && !Doubled(QueueOf(s.table, k), t)
    ensures var s' := ReleaseLock(s, t, k);
            && Inv(s')
            && s.ready <= s'.ready
            && NoDup(s'.ready[|s.ready|..])
            && (forall u :: u in s'.ready[|s.ready|..] <==> u != t && u in s.waits && u !in s'.waits)
            && s'.waits.Keys <= s.waits.Keys
  {
    var q := QueueOf(s.table, k);
    var p := Find(q, t);
    if p < |q| {
      var s' := ReleaseLock(s, t, k);
      ReleaseReady(s, t, p, k);
      assert LaterExclusive(q);
      WaitSetAfterRelease(s.table, p, k, t);
      forall u
        ensures CountOk(s'.waits, s'.table, u)
        ensures Positive(s'.waits)
        ensures u in s'.waits ==> u in s.waits
      {
        ReleaseCounts(s, t, p, k, u);
      }
      forall x
        ensures LaterExclusive(QueueOf(s'.table, x))
      {
        assert LaterExclusive(QueueOf(s.table, x));
      }
    }
  }

  /** t asked for the lock before u. */
  predicate Before(q: Queue, t: TxnId, u: TxnId) {
    Find(q, t) < Find(q, u)
  }

  /** In the order in which they asked for the lock. */
  ghost predicate InOrder(q: Queue, ts: seq<TxnId>) {
    forall i, j :: 0 <= i < j < |ts| ==> Before(q, ts[i], ts[j])
  }

  lemma InOrderTail(q: Queue, ts: seq<TxnId>)
    requires ts != [] && InOrder(q, ts)
    ensures InOrder(q, ts[1..])
    ensures forall t :: t in ts[1..] ==> t in ts && Before(q, ts[0], t)
  {
    hide Before;
    assert forall i :: 0 <= i < |ts| - 1 ==> ts[1..][i] == ts[i + 1];
  }

  lemma InOrderCons(q: Queue, t: TxnId, ts: seq<TxnId>)
    requires InOrder(q, ts) && forall u :: u in ts ==> Before(q, t, u)
    ensures InOrder(q, [t] + ts) && InOrder(q, [] + ts)
  {
    hide Before;
    assert [] + ts == ts;
  }

  lemma {:induction false} WakeOrder(q: Queue, waits: map<TxnId, nat>, ready: seq<TxnId>, ts: seq<TxnId>)
    requires InOrder(q, ts)
    ensures var ready' := Wake(waits, ready, ts).1;
            && ready <= ready' && InOrder(q, ready'[|ready|..])
            && forall t :: t in ready'[|ready|..] ==> t in ts
    decreases |ts|
  {
    hide Before, DecWait, InOrder;
    if ts == [] {
      assert ready[|ready|..] == ts;
    } else {
      var waits1 := DecWait(waits, ts[0]);
      var more := if ts[0] in waits && ts[0] !in waits1 then [ts[0]] else [];
      InOrderTail(q, ts);
      assert ready + [] == ready;
      WakeOrder(q, waits1, ready + more, ts[1..]);
      var rest := Wake(waits, ready, ts).1[|ready + more|..];
      assert Wake(waits, ready, ts).1[|ready|..] == more + rest;
      InOrderCons(q, ts[0], rest);
    }
  }

  /** A release makes transactions ready in the order of their requests. */
  lemma ReleaseOrder(s: LockState, t: TxnId, k: Key)
    requires LaterExclusive(QueueOf(s.table, k))
    ensures var s' := ReleaseLock(s, t, k);
            s.ready <= s'.ready && InOrder(QueueOf(s'.table, k), s'.ready[|s.ready|..])
  {
    hide Granted, LaterExclusive, Find, Wake;
    var q := QueueOf(s.table, k);
    var p := Find(q, t);
    if p < |q| {
      var q', ts := Remove(q, p), NewlyGranted(q, p);
      RemoveKeepsOrder(q, p);
      KeptStayGranted(q, p);
      forall i | 0 <= i < |ts|
        ensures Find(q', ts[i]) == Kept(q, p) + i
      {
        GrantedFirst(q', Kept(q, p) + i);
      }
      WakeOrder(q', if p < Granted(q) then s.waits else DecWait(s.waits, t), s.ready, ts);
    }
  }
}

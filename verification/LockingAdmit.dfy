/** Admission and commit, the two steps that change the lock table, keep the invariant. */
module LockingAdmit {
  import opened Base
  import opened Transactions
  import LT = LockTable
  import opened LockSequences
  import opened LockingScheduler
  import opened LockingInvariant
  import opened LockingSteps

  /***** Admission *****/

  /** What t asks for on k, in order. */
  function Asked(exclusiveOnly: bool, t: TxnId, r: Request, k: Key): LT.Queue {
    (if k in r.readset then [LT.LockRequest(t, ReadMode(exclusiveOnly))] else [])
    + (if k in r.writeset then [LT.LockRequest(t, LT.Exclusive)] else [])
  }

  /** r's requests end up at the back of the queues of all its keys. */
  lemma AdmitLocksEffect(l: LT.LockState, t: TxnId, r: Request, exclusiveOnly: bool)
    requires LT.Inv(l) && AreSets(r)
    requires forall k :: !LockSequences.Queued(l, t, k)
    ensures var l' := AdmitLocks(l, t, r, exclusiveOnly);
            && LT.Inv(l') && l'.ready == l.ready
            && (forall k :: LT.QueueOf(l'.table, k) == LT.QueueOf(l.table, k) + Asked(exclusiveOnly, t, r, k))
            && (forall u :: u in l'.waits <==> u in l.waits || (u == t && IsBlocked(l, t, r, exclusiveOnly)))
  {
    hide RequestKeys;
    var l1 := RequestKeys(l, t, r.readset, ReadMode(exclusiveOnly));
    RequestKeysEffect(l, t, r.readset, ReadMode(exclusiveOnly));
    RequestKeysEffect(l1, t, r.writeset, LT.Exclusive);
  }

  lemma MembersWith(q: LT.Queue, k: Key, exclusiveOnly: bool, log: seq<Request>, live: set<TxnId>, t: TxnId)
    requires Ascending(q) && Members(q, k, exclusiveOnly, log, live)
    requires t < |log| && forall u :: u in live ==> u < t
    ensures var q' := q + Asked(exclusiveOnly, t, log[t], k);
            Ascending(q') && Members(q', k, exclusiveOnly, log, live + {t})
  {
    var q' := q + Asked(exclusiveOnly, t, log[t], k);
    assert forall i :: 0 <= i < |q| ==> q'[i] == q[i] && q[i].txn in live;
  }

  lemma CoveredWith(q: LT.Queue, k: Key, exclusiveOnly: bool, log: seq<Request>, t: TxnId, u: TxnId)
    requires LT.LaterExclusive(q) && Covered(q, k, exclusiveOnly, log, u) && u != t && t < |log|
    requires LT.Find(q, t) == |q|
    ensures Covered(q + Asked(exclusiveOnly, t, log[t], k), k, exclusiveOnly, log, u)
    ensures LT.LaterExclusive(q + Asked(exclusiveOnly, t, log[t], k))
  {
    hide LT.Doubled, LT.LaterExclusive;
    var r, w := LT.LockRequest(t, ReadMode(exclusiveOnly)), LT.LockRequest(t, LT.Exclusive);
    var q1 := if k in log[t].readset then q + [r] else q;
    LT.AppendDoubled(q, r, u);
    LT.AppendDoubled(q1, w, u);
    assert q + Asked(exclusiveOnly, t, log[t], k) == if k in log[t].writeset then q1 + [w] else q1;
  }

  /** t itself, which was not in the queue. */
  lemma OwnCovered(q: LT.Queue, k: Key, exclusiveOnly: bool, log: seq<Request>, t: TxnId)
    requires t < |log| && LT.Find(q, t) == |q|
    ensures Covered(q + Asked(exclusiveOnly, t, log[t], k), k, exclusiveOnly, log, t)
  {
    var asked := Asked(exclusiveOnly, t, log[t], k);
    var q' := q + asked;
    assert forall i :: 0 <= i < |q| ==> q'[i] == q[i] && q'[i].txn != t;
    assert forall i :: 0 <= i < |asked| ==> q'[|q| + i] == asked[i];
    if k in Keys(log[t]) {
      assert q'[|q| + |asked| - 1] == LT.LockRequest(t, Mode(exclusiveOnly, log[t], k));
      assert LT.Find(q', t) == |q|;
    }
    if |asked| == 2 {
      assert q'[|q| + 1].txn == t;
    }
  }

  /** A queue with the requests of t appended, t being later than all live ones. */
  lemma QueueWith(q: LT.Queue, k: Key, exclusiveOnly: bool, log: seq<Request>, live: set<TxnId>, t: TxnId)
    requires LT.LaterExclusive(q) && QueueMatches(q, k, exclusiveOnly, log, live)
    requires t < |log| && forall u :: u in live ==> u < t
    ensures QueueMatches(q + Asked(exclusiveOnly, t, log[t], k), k, exclusiveOnly, log, live + {t})
  {
    hide Asked, LT.Doubled;
    assert LT.Find(q, t) == |q|;
    MembersWith(q, k, exclusiveOnly, log, live, t);
    forall u | u in live + {t}
      ensures Covered(q + Asked(exclusiveOnly, t, log[t], k), k, exclusiveOnly, log, u)
    {
      if u == t {
        OwnCovered(q, k, exclusiveOnly, log, t);
      } else {
        CoveredWith(q, k, exclusiveOnly, log, t, u);
      }
    }
  }

  /** Admitting t, later than all live transactions, makes it live, and blocked if refused a lock. */
  lemma AdmitLocksMatch(l: LT.LockState, exclusiveOnly: bool, log: seq<Request>,
                        live: set<TxnId>, blocked: set<TxnId>, t: TxnId)
    requires LocksMatch(l, exclusiveOnly, log, live, blocked)
    requires t < |log| && AreSets(log[t]) && forall u :: u in live ==> u < t
    ensures LocksMatch(AdmitLocks(l, t, log[t], exclusiveOnly), exclusiveOnly, log, live + {t},
                       if IsBlocked(l, t, log[t], exclusiveOnly) then blocked + {t} else blocked)
    ensures AdmitLocks(l, t, log[t], exclusiveOnly).ready == l.ready
  {
    hide AdmitLocks, IsBlocked, Asked, Covers;
    forall k
      ensures !LockSequences.Queued(l, t, k)
    {
      assert QueueMatches(LT.QueueOf(l.table, k), k, exclusiveOnly, log, live);
    }
    AdmitLocksEffect(l, t, log[t], exclusiveOnly);
    var l' := AdmitLocks(l, t, log[t], exclusiveOnly);
    forall k
      ensures QueueMatches(LT.QueueOf(l'.table, k), k, exclusiveOnly, log, live + {t})
    {
      assert LT.LaterExclusive(LT.QueueOf(l.table, k));
      QueueWith(LT.QueueOf(l.table, k), k, exclusiveOnly, log, live, t);
    }
  }

  lemma ReadyIrrelevant(l: LT.LockState, ready: seq<TxnId>, exclusiveOnly: bool, log: seq<Request>,
                        live: set<TxnId>, blocked: set<TxnId>)
    requires LocksMatch(l, exclusiveOnly, log, live, blocked)
    ensures LocksMatch(l.(ready := ready), exclusiveOnly, log, live, blocked)
  {
  }

  lemma AdmitSets(s: State)
    requires s.admitted < |s.txns| == |s.log| && s.txns[s.admitted].stage == Queued
    ensures LiveSet(AfterAdmit(s).txns) == LiveSet(s.txns) + {s.admitted}
    ensures BlockedSet(AfterAdmit(s).txns) ==
            if IsBlocked(s.locks, s.admitted, s.log[s.admitted], s.exclusiveOnly)
            then BlockedSet(s.txns) + {s.admitted} else BlockedSet(s.txns)
  {
  }

  lemma AdmitLocksInv(s: State)
    requires InvSize(s) && InvLocks(s) && s.admitted < |s.txns|
    ensures InvLocks(AfterAdmit(s))
    ensures var s', t := AfterAdmit(s), s.admitted;
            s'.locks.ready == s.locks.ready + if s'.txns[t].stage == Ready then [t] else []
  {
    var s', t := AfterAdmit(s), s.admitted;
    AdmitLocksMatch(s.locks, s.exclusiveOnly, s.log, LiveSet(s.txns), BlockedSet(s.txns), t);
    AdmitSets(s);
    ReadyIrrelevant(AdmitLocks(s.locks, t, s.log[t], s.exclusiveOnly), s.locks.ready + [t],
                    s.exclusiveOnly, s.log, LiveSet(s'.txns), BlockedSet(s'.txns));
  }

  lemma AdmitQueues(s: State)
    requires InvSize(s) && InvQueues(s) && Enabled(s, AdmitNext)
    requires var s', t := AfterAdmit(s), s.admitted;
             s'.locks.ready == s.locks.ready + if s'.txns[t].stage == Ready then [t] else []
    ensures InvSize(AfterAdmit(s)) && InvQueues(AfterAdmit(s))
  {
    var s', t := AfterAdmit(s), s.admitted;
    if s'.txns[t].stage == Ready {
      PushKeepsLists(s.locks.ready, s.txns, t, s'.txns[t]);
    } else {
      assert s'.locks.ready == s.locks.ready;
      OtherLists(s.locks.ready, s.txns, t, s'.txns[t], Ready);
    }
    OtherLists(s.completed, s.txns, t, s'.txns[t], Completed);
    OtherLists(s.results, s.txns, t, s'.txns[t], Finished);
  }

  lemma AdmitNextKeepsInv(s: State)
    requires Inv(s) && Enabled(s, AdmitNext)
    ensures Inv(AfterAdmit(s))
  {
    hide SerialStore, LocksMatch, Lists;
    var s', t := AfterAdmit(s), s.admitted;
    AdmitLocksInv(s);
    AdmitQueues(s);
    assert TxnOk(s, t);
    StrictFrame(s, s');
    DataFrame(s, s', t);
  }

  /***** Commit *****/

  lemma FinishLocksEffect(l: LT.LockState, t: TxnId, r: Request)
    requires LT.Inv(l) && Valid(r) && forall k :: !LT.Doubled(LT.QueueOf(l.table, k), t)
    ensures var l' := FinishLocks(l, t, r);
            && LT.Inv(l') && Woken(l, l', t)
            && (forall k :: LT.QueueOf(l'.table, k) ==
                  if k in Keys(r) then Without(LT.QueueOf(l.table, k), t) else LT.QueueOf(l.table, k))
  {
    hide LT.Doubled, ReleaseKeys;
    ValidIff(r);
    var l1 := ReleaseKeys(l, t, r.readset);
    ReleaseKeysEffect(l, t, r.readset);
    forall k | k in r.writeset
      ensures !LT.Doubled(LT.QueueOf(l1.table, k), t)
    {
      assert k !in r.readset;
    }
    ReleaseKeysEffect(l1, t, r.writeset);
    WokenInTurn(l, l1, FinishLocks(l, t, r), t);
  }

  lemma AscendingWithout(q: LT.Queue, t: TxnId)
    requires Ascending(q) && !LT.Doubled(q, t)
    ensures Ascending(Without(q, t))
    ensures forall i :: 0 <= i < |Without(q, t)| ==> Without(q, t)[i] in q && Without(q, t)[i].txn != t
  {
    hide LT.Doubled, LT.LaterExclusive;
    var p := LT.Find(q, t);
    if p < |q| {
      var q' := LT.Remove(q, p);
      LT.NoneAfterRemove(q, p, t);
      assert forall i :: 0 <= i < |q'| ==> q'[i] == q[if i < p then i else i + 1];
    }
  }

  lemma MembersWithout(q: LT.Queue, k: Key, exclusiveOnly: bool, log: seq<Request>, live: set<TxnId>, t: TxnId)
    requires Ascending(q) && Members(q, k, exclusiveOnly, log, live) && t < |log| && !LT.Doubled(q, t)
    ensures var q' := if k in Keys(log[t]) then Without(q, t) else q;
            Ascending(q') && Members(q', k, exclusiveOnly, log, live - {t})
  {
    hide Without, LT.Doubled;
    AscendingWithout(q, t);
  }

  lemma CoveredWithout(q: LT.Queue, k: Key, exclusiveOnly: bool, log: seq<Request>, t: TxnId, u: TxnId)
    requires Covered(q, k, exclusiveOnly, log, u) && u != t
    ensures Covered(Without(q, t), k, exclusiveOnly, log, u)
  {
    hide LT.Doubled;
    var p := LT.Find(q, t);
    if p < |q| {
      LT.FindAfterRemove(q, p, u);
      if u < |log| && k in Keys(log[u]) {
        var i :| 0 <= i < |q| && q[i] == LT.LockRequest(u, Mode(exclusiveOnly, log[u], k));
        assert LT.Remove(q, p)[if i < p then i else i - 1] == q[i];
      }
    }
  }

  lemma QueueWithout(q: LT.Queue, k: Key, exclusiveOnly: bool, log: seq<Request>, live: set<TxnId>, t: TxnId)
    requires QueueMatches(q, k, exclusiveOnly, log, live) && t < |log| && !LT.Doubled(q, t)
    ensures var q' := if k in Keys(log[t]) then Without(q, t) else q;
            QueueMatches(q', k, exclusiveOnly, log, live - {t})
  {
    hide LT.Doubled, Without;
    MembersWithout(q, k, exclusiveOnly, log, live, t);
    forall u | u in live - {t}
      ensures Covered(Without(q, t), k, exclusiveOnly, log, u)
    {
      CoveredWithout(q, k, exclusiveOnly, log, t, u);
    }
  }

  /** A live transaction with disjoint sets has asked for no lock twice. */
  lemma AskedOnce(l: LT.LockState, exclusiveOnly: bool, log: seq<Request>,
                  live: set<TxnId>, blocked: set<TxnId>, t: TxnId, k: Key)
    requires LocksMatch(l, exclusiveOnly, log, live, blocked) && t in live && t < |log| && Valid(log[t])
    ensures !LT.Doubled(LT.QueueOf(l.table, k), t)
  {
    hide LT.Doubled;
    ValidIff(log[t]);
    assert QueueMatches(LT.QueueOf(l.table, k), k, exclusiveOnly, log, live);
    assert Covered(LT.QueueOf(l.table, k), k, exclusiveOnly, log, t);
  }

  /** Releasing the locks of t, which is not blocked, unblocks those newly made ready. */
  lemma FinishLocksMatch(l: LT.LockState, exclusiveOnly: bool, log: seq<Request>,
                         live: set<TxnId>, blocked: set<TxnId>, t: TxnId)
    requires LocksMatch(l, exclusiveOnly, log, live, blocked)
    requires t in live && t < |log| && Valid(log[t]) && t !in blocked
    ensures var l' := FinishLocks(l, t, log[t]);
            && Woken(l, l', t)
            && LocksMatch(l', exclusiveOnly, log, live - {t}, blocked - (set u | u in NewlyReady(l, l')))
            && (forall u :: u in NewlyReady(l, l') ==> u in blocked)
  {
    hide LT.Doubled, FinishLocks, Without, Covers;
    forall k
      ensures !LT.Doubled(LT.QueueOf(l.table, k), t)
    {
      AskedOnce(l, exclusiveOnly, log, live, blocked, t, k);
    }
    FinishLocksEffect(l, t, log[t]);
    var l' := FinishLocks(l, t, log[t]);
    forall k
      ensures QueueMatches(LT.QueueOf(l'.table, k), k, exclusiveOnly, log, live - {t})
    {
      QueueWithout(LT.QueueOf(l.table, k), k, exclusiveOnly, log, live, t);
    }
  }

  lemma WokenSets(txns: seq<Txn>, woken: seq<TxnId>)
    requires forall u :: u in woken ==> u in BlockedSet(txns)
    ensures LiveSet(WakeStages(txns, woken)) == LiveSet(txns)
    ensures BlockedSet(WakeStages(txns, woken)) == BlockedSet(txns) - (set u | u in woken)
  {
  }

  lemma FinishSets(txns0: seq<Txn>, t: TxnId, woken: seq<TxnId>)
    requires t < |txns0| && txns0[t].stage == Committing
    requires forall u :: u in woken ==> u in BlockedSet(txns0)
    ensures var txns := WakeStages(txns0[t := txns0[t].(stage := Finished, status := Final(txns0[t].status))], woken);
            LiveSet(txns) == LiveSet(txns0) - {t} && BlockedSet(txns) == BlockedSet(txns0) - (set u | u in woken)
  {
    var txns := txns0[t := txns0[t].(stage := Finished, status := Final(txns0[t].status))];
    assert BlockedSet(txns) == BlockedSet(txns0);
    assert LiveSet(txns) == LiveSet(txns0) - {t};
    WokenSets(txns, woken);
  }

  lemma FinishLocksInv(s: State)
    requires InvSize(s) && InvLocks(s)
    requires s.phase.Apply? && s.phase.txn < |s.txns| && s.txns[s.phase.txn].stage == Committing
    ensures InvLocks(AfterFinish(s)) && Woken(s.locks, AfterFinish(s).locks, s.phase.txn)
    ensures forall u :: u in NewlyReady(s.locks, AfterFinish(s).locks) ==> u < |s.txns| && s.txns[u].stage == Blocked
  {
    var s', t := AfterFinish(s), s.phase.txn;
    NotBlockedValid(s, t);
    FinishLocksMatch(s.locks, s.exclusiveOnly, s.log, LiveSet(s.txns), BlockedSet(s.txns), t);
    FinishSets(s.txns, t, NewlyReady(s.locks, s'.locks));
  }

  lemma NoDupAppend(a: seq<TxnId>, b: seq<TxnId>)
    requires NoDup(a) && NoDup(b) && forall x :: x in a ==> x !in b
    ensures NoDup(a + b)
    ensures forall x :: x in a + b <==> x in a || x in b
  {
    assert forall i :: 0 <= i < |b| ==> b[i] in b;
    assert forall i :: 0 <= i < |a| ==> a[i] in a;
  }

  /** The ready queue with the woken transactions appended, as their stages say. */
  lemma WokenLists(ready: seq<TxnId>, woken: seq<TxnId>, txns: seq<Txn>)
    requires Lists(ready, txns, Ready) && NoDup(woken)
    requires forall u :: u in woken ==> u < |txns| && txns[u].stage == Blocked
    ensures Lists(ready + woken, WakeStages(txns, woken), Ready)
  {
    NoDupAppend(ready, woken);
  }

  lemma WokenOtherLists(q: seq<TxnId>, woken: seq<TxnId>, txns: seq<Txn>, st: Stage)
    requires Lists(q, txns, st) && st != Ready && st != Blocked
    requires forall u :: u in woken ==> u < |txns| && txns[u].stage == Blocked
    ensures Lists(q, WakeStages(txns, woken), st)
  {
  }

  lemma FinishQueues(s: State)
    requires InvSize(s) && InvQueues(s) && Enabled(s, Finish)
    requires Woken(s.locks, AfterFinish(s).locks, s.phase.txn)
    requires forall u :: u in NewlyReady(s.locks, AfterFinish(s).locks) ==> u < |s.txns| && s.txns[u].stage == Blocked
    ensures InvSize(AfterFinish(s)) && InvQueues(AfterFinish(s))
  {
    var locks' := FinishLocks(s.locks, s.phase.txn, s.log[s.phase.txn]);
    FinishQueuesOn(s, locks', NewlyReady(s.locks, locks'));
  }

  /** The same for any lock state that has woken these transactions. */
  lemma FinishQueuesOn(s: State, locks': LT.LockState, woken: seq<TxnId>)
    requires InvSize(s) && InvQueues(s) && Enabled(s, Finish)
    requires locks'.ready == s.locks.ready + woken && NoDup(woken)
    requires forall u :: u in woken ==> u < |s.txns| && s.txns[u].stage == Blocked
    ensures var t := s.phase.txn;
            var txns := s.txns[t := s.txns[t].(stage := Finished, status := Final(s.txns[t].status))];
            var s' := s.(locks := locks', txns := WakeStages(txns, woken), results := s.results + [t], phase := Drain);
            InvSize(s') && InvQueues(s')
  {
    var t := s.phase.txn;
    var x := s.txns[t].(stage := Finished, status := Final(s.txns[t].status));
    var txns := s.txns[t := x];
    OtherLists(s.locks.ready, s.txns, t, x, Ready);
    WokenLists(s.locks.ready, woken, txns);
    OtherLists(s.completed, s.txns, t, x, Completed);
    WokenOtherLists(s.completed, woken, txns, Completed);
    PushKeepsLists(s.results, s.txns, t, x);
    WokenOtherLists(s.results + [t], woken, txns, Finished);
  }

  lemma FinishStrict(s: State)
    requires InvSize(s) && InvLocks(s) && InvStrict(s)
    requires s.phase.Apply? && s.phase.txn < |s.txns| && s.txns[s.phase.txn].stage == Committing
    requires forall u :: u in NewlyReady(s.locks, AfterFinish(s).locks) ==> u < |s.txns| && s.txns[u].stage == Blocked
    ensures InvStrict(AfterFinish(s))
  {
    var s', t := AfterFinish(s), s.phase.txn;
    NotBlockedValid(s, t);
    forall i, u, k | 0 <= i < u < |s'.txns| && s'.txns[u].stage == Finished && s'.txns[i].stage != Finished
      ensures !ConflictOn(s'.exclusiveOnly, s'.log[i], s'.log[u], k)
    {
      if u == t {
        Unblocked(s, i, t, k);
      }
    }
  }

  /** When t commits on a key it may write, all of the key's earlier writers have, and no later one. */
  lemma WritersAroundCommit(s: State, t: TxnId, k: Key)
    requires InvSize(s) && InvLocks(s) && InvStrict(s)
    requires t < |s.txns| && s.txns[t].stage == Committing && k in s.log[t].writeset
    ensures Boundary(s, k, t)
  {
    forall u | 0 <= u < |s.txns| && k in s.log[u].writeset
      ensures u < t <==> s.txns[u].stage == Finished
    {
      assert k in Keys(s.log[u]) && k in Keys(s.log[t]);
      assert ConflictOn(s.exclusiveOnly, s.log[t], s.log[u], k);
      assert ConflictOn(s.exclusiveOnly, s.log[u], s.log[t], k);
      if u < t && s.txns[u].stage != Finished {
        Unblocked(s, u, t, k);
      }
    }
  }

  /** A key t may write holds, once t has applied its writes, the serial value after t. */
  lemma CommittedStore(s: State, t: TxnId, k: Key)
    requires |s.log| == |s.txns| && InvStore(s) && Boundary(s, k, t)
    requires s.phase == Apply(t, map[]) && t < |s.txns|
    ensures Lookup(s.store, k) == Lookup(Serial(s, t + 1), k)
  {
    assert Serial(s, t + 1) == StoreAfter(s.log[t], Serial(s, t));
  }

  lemma OtherStore(s: State, t: TxnId, k: Key, i: nat)
    requires |s.log| == |s.txns| && InvStore(s) && i <= |s.txns| && Boundary(s, k, i)
    requires s.phase == Apply(t, map[]) && t < |s.txns| && k !in s.log[t].writeset
    ensures Lookup(s.store, k) == Lookup(Serial(s, i), k)
  {
    WritesDeclaredFrom(s.log[t], [], Fetch(Serial(s, t), Keys(s.log[t])), map[]);
  }

  /** The store at k when its declared writers before i are done, t being the last to finish. */
  lemma FinishStore(s: State, t: TxnId, k: Key, i: nat)
    requires InvSize(s) && InvLocks(s) && InvStrict(s) && InvStore(s)
    requires s.phase == Apply(t, map[]) && t < |s.txns| && s.txns[t].stage == Committing && i <= |s.txns|
    requires forall u :: 0 <= u < |s.txns| && k in s.log[u].writeset ==>
               (u < i <==> u == t || s.txns[u].stage == Finished)
    ensures Lookup(s.store, k) == Lookup(Serial(s, i), k)
  {
    hide StoreAfter, SerialStore, Execute;
    if k in s.log[t].writeset {
      WritersAroundCommit(s, t, k);
      CommittedStore(s, t, k);
      SerialStoreUnchanged(s.init, s.log, t + 1, i, k);
    } else {
      OtherStore(s, t, k, i);
    }
  }

  lemma FinishTxns(s: State, u: TxnId)
    requires |s.log| == |s.txns| && u < |s.txns| && TxnOk(s, u)
    requires s.phase.Apply? && s.phase.txn < |s.txns| && s.txns[s.phase.txn].stage == Committing
    requires u in NewlyReady(s.locks, AfterFinish(s).locks) ==> s.txns[u].stage == Blocked
    ensures TxnOk(AfterFinish(s), u)
  {
  }

  lemma FinishAllTxns(s: State)
    requires InvSize(s) && InvData(s) && Enabled(s, Finish) && s.txns[s.phase.txn].stage == Committing
    requires forall u :: u in NewlyReady(s.locks, AfterFinish(s).locks) ==> u < |s.txns| && s.txns[u].stage == Blocked
    ensures forall u :: 0 <= u < |s.txns| ==> TxnOk(AfterFinish(s), u)
  {
    forall u | 0 <= u < |s.txns|
      ensures TxnOk(AfterFinish(s), u)
    {
      assert TxnOk(s, u);
      FinishTxns(s, u);
    }
  }

  lemma FinishStage(s: State, u: TxnId)
    requires |s.log| == |s.txns| && s.phase.Apply? && s.phase.txn < |s.txns| && u < |s.txns|
    requires s.txns[s.phase.txn].stage == Committing
    requires u in NewlyReady(s.locks, AfterFinish(s).locks) ==> s.txns[u].stage == Blocked
    ensures AfterFinish(s).txns[u].stage == Finished <==> u == s.phase.txn || s.txns[u].stage == Finished
  {
    hide FinishLocks, NewlyReady;
  }

  lemma FinishBoundary(s: State, k: Key, i: nat)
    requires |s.log| == |s.txns| && s.phase.Apply? && s.phase.txn < |s.txns|
    requires s.txns[s.phase.txn].stage == Committing
    requires forall u :: u in NewlyReady(s.locks, AfterFinish(s).locks) ==> u < |s.txns| && s.txns[u].stage == Blocked
    requires Boundary(AfterFinish(s), k, i)
    ensures forall u :: 0 <= u < |s.txns| && k in s.log[u].writeset ==>
              (u < i <==> u == s.phase.txn || s.txns[u].stage == Finished)
  {
    hide FinishLocks, NewlyReady;
    forall u | 0 <= u < |s.txns| && k in s.log[u].writeset
      ensures u < i <==> u == s.phase.txn || s.txns[u].stage == Finished
    {
      FinishStage(s, u);
    }
  }

  lemma FinishStores(s: State)
    requires InvSize(s) && InvLocks(s) && InvStrict(s) && InvStore(s)
    requires Enabled(s, Finish) && s.txns[s.phase.txn].stage == Committing
    requires forall u :: u in NewlyReady(s.locks, AfterFinish(s).locks) ==> u < |s.txns| && s.txns[u].stage == Blocked
    ensures InvStore(AfterFinish(s))
  {
    hide LocksMatch, SerialStore, FinishLocks, InvStrict, InvSize, NewlyReady, Boundary, Expected, Execute;
    var s', t := AfterFinish(s), s.phase.txn;
    forall k, i | 0 <= i <= |s'.txns| && Boundary(s', k, i)
      ensures Lookup(s'.store, k) == Lookup(Serial(s', i), k)
    {
      FinishBoundary(s, k, i);
      FinishStore(s, t, k, i);
    }
  }

  lemma FinishKeepsInv(s: State)
    requires Inv(s) && Enabled(s, Finish)
    ensures Inv(AfterFinish(s))
  {
    hide LocksMatch, FinishLocks, SerialStore, Matches;
    FinishLocksInv(s);
    FinishQueues(s);
    FinishStrict(s);
    FinishAllTxns(s);
    FinishStores(s);
  }
}

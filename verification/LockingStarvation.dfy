/**
 * Who never runs. A transaction with a key in both its sets waits behind its own request for
 * ever, and so does every later one that may not share a key with one that does.
 */
module LockingStarvation {
  import opened Base
  import opened Transactions
  import LT = LockTable
  import LockCalls
  import opened LockSequences
  import opened LockingScheduler
  import opened LockingInvariant
  import LockingAdmit
  import opened LockingTheorems

  ghost predicate Conflict(exclusiveOnly: bool, a: Request, b: Request) {
    exists k :: ConflictOn(exclusiveOnly, a, b, k)
  }

  /** Request t waits behind itself, or behind an earlier one that never runs. */
  ghost predicate Starves(exclusiveOnly: bool, log: seq<Request>, t: TxnId)
    requires t < |log|
    decreases t
  {
    !Valid(log[t]) ||
    exists u :: 0 <= u < t && Starves(exclusiveOnly, log, u) && Conflict(exclusiveOnly, log[u], log[t])
  }

  /** Among requests with disjoint sets nobody starves. */
  lemma {:induction false} ValidDoNotStarve(exclusiveOnly: bool, log: seq<Request>, t: TxnId)
    requires t < |log| && forall u :: 0 <= u <= t ==> Valid(log[u])
    ensures !Starves(exclusiveOnly, log, t)
    decreases t
  {
    forall u | 0 <= u < t
      ensures !Starves(exclusiveOnly, log, u)
    {
      ValidDoNotStarve(exclusiveOnly, log, u);
    }
  }

  /** The dispatched and the finished do not starve. */
  lemma {:induction false} StarvedStays(s: State, t: TxnId)
    requires InvSize(s) && InvLocks(s) && InvStrict(s) && t < |s.txns| && Starves(s.exclusiveOnly, s.log, t)
    ensures s.txns[t].stage == Queued || s.txns[t].stage == Blocked
    decreases t
  {
    hide InvLocks;
    if Live(s.txns[t].stage) && s.txns[t].stage != Blocked {
      NotBlockedValid(s, t);
    }
    if Valid(s.log[t]) {
      var u :| 0 <= u < t && Starves(s.exclusiveOnly, s.log, u) && Conflict(s.exclusiveOnly, s.log[u], s.log[t]);
      StarvedStays(s, u);
      var k :| ConflictOn(s.exclusiveOnly, s.log[u], s.log[t], k);
      if Live(s.txns[t].stage) && s.txns[t].stage != Blocked {
        Unblocked(s, u, t, k);
      }
    }
  }

  /** One that does not starve is blocked only while an earlier one unfinished does not starve either. */
  lemma NotBehindStarved(s: State, t: TxnId)
    requires InvSize(s) && InvLocks(s) && t < |s.txns| && Live(s.txns[t].stage)
    requires !Starves(s.exclusiveOnly, s.log, t)
    requires forall u :: 0 <= u < t && s.txns[u].stage != Finished ==> Starves(s.exclusiveOnly, s.log, u)
    ensures s.txns[t].stage != Blocked
  {
    hide InvLocks;
    forall u, k | 0 <= u < t && s.txns[u].stage != Finished
      ensures !ConflictOn(s.exclusiveOnly, s.log[u], s.log[t], k)
    {
      assert !Conflict(s.exclusiveOnly, s.log[u], s.log[t]);
    }
    SharersDoNotBlock(s, t);
  }

  /**
   * In every run a request that starves is never ready, dispatched or returned, whatever other
   * requests there are.
   */
  lemma StarvedNeverRuns(exclusiveOnly: bool, init: Store, es: seq<Event>, s: State, t: TxnId)
    requires Reaches(exclusiveOnly, init, es, s) && t < |Requests(es)| && Starves(exclusiveOnly, Requests(es), t)
    ensures t < |s.txns| && (s.txns[t].stage == Queued || s.txns[t].stage == Blocked)
    ensures t !in s.locks.ready && t !in s.completed && t !in s.results
  {
    ReachedInv(exclusiveOnly, init, es, s);
    StarvedStays(s, t);
  }

  /***** A key in both sets *****/

  /** Each key's queue gets one request, and the ready queue is left alone. */
  lemma {:induction false} OwnQueues(l: LT.LockState, t: TxnId, keys: seq<Key>, mode: LT.RequestMode)
    requires NoDup(keys)
    ensures forall k :: LT.QueueOf(RequestKeys(l, t, keys, mode).table, k) ==
                          if k in keys then LT.QueueOf(l.table, k) + [LT.LockRequest(t, mode)] else LT.QueueOf(l.table, k)
    ensures RequestKeys(l, t, keys, mode).ready == l.ready
  {
    if keys != [] {
      var before, k := keys[..|keys| - 1], keys[|keys| - 1];
      OwnQueues(l, t, before, mode);
      assert forall x :: x in keys <==> x in before || x == k;
      assert k !in before;
    }
  }

  /**
   * A transaction with a key in both sets, whatever the lock table: on each such key its
   * exclusive request comes right behind its first one, and is refused.
   */
  lemma SecondLockRefused(l: LT.LockState, t: TxnId, r: Request, exclusiveOnly: bool, k: Key)
    requires AreSets(r) && k in r.readset && k in r.writeset
    ensures var q := LT.QueueOf(AdmitLocks(l, t, r, exclusiveOnly).table, k);
            && q == LT.QueueOf(l.table, k) + [LT.LockRequest(t, ReadMode(exclusiveOnly)), LT.LockRequest(t, LT.Exclusive)]
            && LT.Granted(q) < |q|
  {
    var l1 := RequestKeys(l, t, r.readset, ReadMode(exclusiveOnly));
    OwnQueues(l, t, r.readset, ReadMode(exclusiveOnly));
    OwnQueues(l1, t, r.writeset, LT.Exclusive);
    LT.SecondRefused(LT.QueueOf(l1.table, k), t);
  }

  /** So it does not become ready on admission, but is counted as waiting. */
  lemma OverlapBlocks(l: LT.LockState, t: TxnId, r: Request, exclusiveOnly: bool)
    requires LT.Inv(l) && AreSets(r) && !Valid(r) && forall k :: !LockSequences.Queued(l, t, k)
    ensures IsBlocked(l, t, r, exclusiveOnly) && t in AdmitLocks(l, t, r, exclusiveOnly).waits
  {
    hide IsBlocked, AdmitLocks, LT.Granted;
    var l' := AdmitLocks(l, t, r, exclusiveOnly);
    LockingAdmit.AdmitLocksEffect(l, t, r, exclusiveOnly);
    ValidIff(r);
    var k :| k in r.readset && k in r.writeset;
    var q := LT.QueueOf(l.table, k);
    assert !LockSequences.Queued(l, t, k);
    SecondLockRefused(l, t, r, exclusiveOnly, k);
    SecondOfTwo(q, t, ReadMode(exclusiveOnly));
    LT.WaitsIff(l', t);
    LT.WaitsIff(l, t);
    NotAsked(l, t);
  }

  lemma SecondOfTwo(q: LT.Queue, t: TxnId, mode: LT.RequestMode)
    requires LT.Find(q, t) == |q|
    ensures LT.Doubled(q + [LT.LockRequest(t, mode), LT.LockRequest(t, LT.Exclusive)], t)
  {
    var q' := q + [LT.LockRequest(t, mode), LT.LockRequest(t, LT.Exclusive)];
    assert q'[|q| + 1].txn == t && q'[|q|].txn == t;
    assert forall i :: 0 <= i < |q| ==> q'[i] == q[i];
  }

  lemma NotAsked(l: LT.LockState, t: TxnId)
    requires LT.Inv(l) && forall k :: !LockSequences.Queued(l, t, k)
    ensures t !in l.waits
  {
    LT.WaitsIff(l, t);
    forall k
      ensures !LT.Doubled(LT.QueueOf(l.table, k), t) && !LT.Waits(LT.QueueOf(l.table, k), t)
    {
      assert !LockSequences.Queued(l, t, k);
    }
  }

  /**
   * With nobody else about, a transaction gets all its locks at once exactly when its key
   * sets are disjoint.
   */
  lemma AloneGetsAllIff(t: TxnId, r: Request, exclusiveOnly: bool)
    requires AreSets(r)
    ensures !IsBlocked(LT.LockState(map[], map[], []), t, r, exclusiveOnly) <==> Valid(r)
  {
    var l := LT.LockState(map[], map[], []);
    EmptyTable();
    if Valid(r) {
      AloneNotWaiting(t, r, exclusiveOnly);
    } else {
      OverlapBlocks(l, t, r, exclusiveOnly);
    }
  }

  lemma EmptyTable()
    ensures LT.Inv(LT.LockState(map[], map[], []))
  {
    LockCalls.EmptyInv(LT.LockState(map[], map[], []));
  }

  lemma ShortQueue(q: LT.Queue, t: TxnId)
    requires |q| <= 1
    ensures !LT.Doubled(q, t) && !LT.Waits(q, t)
  {
    if |q| == 1 {
      LT.GrantedIff(q, 0);
    }
  }

  lemma AloneNotWaiting(t: TxnId, r: Request, exclusiveOnly: bool)
    requires Valid(r)
    ensures !IsBlocked(LT.LockState(map[], map[], []), t, r, exclusiveOnly)
  {
    hide IsBlocked, AdmitLocks, LT.Inv, LT.Find, LT.Granted, LT.Doubled;
    var l := LT.LockState(map[], map[], []);
    var l' := AdmitLocks(l, t, r, exclusiveOnly);
    EmptyTable();
    ValidIff(r);
    LockingAdmit.AdmitLocksEffect(l, t, r, exclusiveOnly);
    LT.WaitsIff(l', t);
    forall k
      ensures !LT.Doubled(LT.QueueOf(l'.table, k), t) && !LT.Waits(LT.QueueOf(l'.table, k), t)
    {
      assert |LT.QueueOf(l'.table, k)| <= 1;
      ShortQueue(LT.QueueOf(l'.table, k), t);
    }
  }

  /***** Who can run *****/

  /** Some run dispatches a transaction with that request. */
  ghost predicate CanRun(exclusiveOnly: bool, init: Store, r: Request) {
    exists es, t: TxnId :: Dispatches(exclusiveOnly, init, r, es, t)
  }

  ghost predicate Dispatches(exclusiveOnly: bool, init: Store, r: Request, es: seq<Event>, t: TxnId) {
    && Legal(Start(exclusiveOnly, init), es)
    && var s := Run(Start(exclusiveOnly, init), es);
       t < |s.log| == |s.txns| && s.log[t] == r && s.txns[t].stage.Reading?
  }

  /** A request can be dispatched exactly if its read set and write set are disjoint. */
  lemma RunsIff(exclusiveOnly: bool, init: Store, r: Request)
    requires AreSets(r)
    ensures CanRun(exclusiveOnly, init, r) <==> Valid(r)
  {
    if es, t: TxnId :| Dispatches(exclusiveOnly, init, r, es, t) {
      var s := Run(Start(exclusiveOnly, init), es);
      ReachedInv(exclusiveOnly, init, es, s);
      NotBlockedValid(s, t);
    }
    if Valid(r) {
      var es := DispatchAlone(exclusiveOnly, init, r);
      assert Dispatches(exclusiveOnly, init, r, es, 0);
    }
  }

  lemma AdmitAlone(s: State, r: Request)
    requires Valid(r) && AreSets(r)
    requires s.log == [r] && |s.txns| == 1 && s.admitted == 0 && s.locks == LT.LockState(map[], map[], [])
    ensures AfterAdmit(s).locks.ready == [0]
  {
    hide RequestKeys, Refused, LT.Granted, Valid;
    EmptyTable();
    AloneGetsAllIff(0, r, s.exclusiveOnly);
    LockingAdmit.AdmitLocksEffect(s.locks, 0, r, s.exclusiveOnly);
  }

  lemma DispatchAlone(exclusiveOnly: bool, init: Store, r: Request) returns (es: seq<Event>)
    requires Valid(r) && AreSets(r)
    ensures Dispatches(exclusiveOnly, init, r, es, 0)
  {
    hide AdmitLocks, IsBlocked, Valid, Legal, Run;
    var s0 := Start(exclusiveOnly, init);
    var s1 := Step(s0, NewRequest(r));
    AdmitAlone(s1, r);
    var s2 := Step(s1, AdmitNext);
    var s3 := Step(s2, NothingCompleted);
    var s4 := Step(s3, DispatchNext);
    es := [NewRequest(r), AdmitNext, NothingCompleted, DispatchNext];
    Four(s0, es, s1, s2, s3, s4);
  }

  lemma Four(s0: State, es: seq<Event>, s1: State, s2: State, s3: State, s4: State)
    requires |es| == 4
    requires Enabled(s0, es[0]) && s1 == Step(s0, es[0])
    requires Enabled(s1, es[1]) && s2 == Step(s1, es[1])
    requires Enabled(s2, es[2]) && s3 == Step(s2, es[2])
    requires Enabled(s3, es[3]) && s4 == Step(s3, es[3])
    ensures Legal(s0, es) && Run(s0, es) == s4
  {
    hide Enabled, Step;
    assert es[1..][1..] == es[2..] && es[2..][1..] == es[3..] && es[3..][1..] == [];
    assert Legal(s3, es[3..]) && Run(s3, es[3..]) == s4;
    assert Legal(s2, es[2..]) && Run(s2, es[2..]) == s4;
    assert Legal(s1, es[1..]) && Run(s1, es[1..]) == s4;
  }
}

/**
 * Any number of requests at once on one database: each sorts its write set, locks its records
 * in that order, adds its updates field by field with a separate load and store, and unlocks.
 * A schedule says which request takes the next step.
 */
module OrderedLocking {
  import opened Base
  import opened Records

  type ReqId = nat

  /** A request whose write set has been sorted. */
  datatype Task = Task(keys: seq<Key>, updates: Updates)

  /**
   * Where a request is: about to lock its i-th record, to load or to store field f of it (v
   * is what the load found), or to unlock it. Past the last unlock it has finished.
   */
  datatype Pc = Locking(i: nat) | Loading(i: nat, f: nat) | Storing(i: nat, f: nat, v: Word) | Unlocking(i: nat)

  /** The records, the owner of each record's mutex, and the requests. */
  datatype State = State(db: Database, owner: seq<Option<ReqId>>, pcs: seq<Pc>)

  function Tasks(reqs: seq<Request>): (ts: seq<Task>)
    ensures |ts| == |reqs|
    ensures forall r :: 0 <= r < |reqs| ==> ts[r] == Task(Sort(reqs[r].writeset), reqs[r].updates)
  {
    seq(|reqs|, r requires 0 <= r < |reqs| => Task(Sort(reqs[r].writeset), reqs[r].updates))
  }

  function First(n: nat): Pc {
    if n == 0 then Unlocking(0) else Locking(0)
  }

  function Start(db: Database, tasks: seq<Task>): State {
    State(db, seq(|db|, _ => None), seq(|tasks|, r requires 0 <= r < |tasks| => First(|tasks[r].keys|)))
  }

  predicate PcOk(pc: Pc, n: nat) {
    match pc
    case Locking(i) => i < n
    case Loading(i, f) => i < n && f < FIELDS
    case Storing(i, f, _) => i < n && f < FIELDS
    case Unlocking(i) => i <= n
  }

  predicate TaskOk(t: Task, numRecords: nat) {
    && (forall i, j :: 0 <= i < j < |t.keys| ==> t.keys[i] < t.keys[j])
    && (forall i :: 0 <= i < |t.keys| ==> t.keys[i] < numRecords)
  }

  predicate Shape(tasks: seq<Task>, s: State) {
    && |s.owner| == |s.db| && |s.pcs| == |tasks|
    && forall r :: 0 <= r < |tasks| ==> TaskOk(tasks[r], |s.db|) && PcOk(s.pcs[r], |tasks[r].keys|)
  }

  predicate Done(pc: Pc, n: nat) {
    pc == Unlocking(n)
  }

  /** Only a request that wants a lock somebody has cannot step, and one that is done. */
  predicate Enabled(tasks: seq<Task>, s: State, r: ReqId)
    requires Shape(tasks, s)
  {
    r < |tasks| && !Done(s.pcs[r], |tasks[r].keys|) &&
    (s.pcs[r].Locking? ==> s.owner[tasks[r].keys[s.pcs[r].i]].None?)
  }

  function AfterLock(i: nat, n: nat): Pc {
    if i + 1 < n then Locking(i + 1) else Loading(0, 0)
  }

  function AfterStore(i: nat, f: nat, n: nat): Pc {
    if f + 1 < FIELDS then Loading(i, f + 1)
    else if i + 1 < n then Loading(i + 1, 0)
    else Unlocking(0)
  }

  function Step(tasks: seq<Task>, s: State, r: ReqId): State
    requires Shape(tasks, s) && Enabled(tasks, s, r)
  {
    var Task(keys, updates) := tasks[r];
    match s.pcs[r]
    case Locking(i) =>
      s.(owner := s.owner[keys[i] := Some(r)], pcs := s.pcs[r := AfterLock(i, |keys|)])
    case Loading(i, f) =>
      s.(pcs := s.pcs[r := Storing(i, f, Load(s.db[keys[i]], f))])
    case Storing(i, f, v) =>
      s.(db := s.db[keys[i] := Records.Store(s.db[keys[i]], f, AddWord(v, updates[f]))],
         pcs := s.pcs[r := AfterStore(i, f, |keys|)])
    case Unlocking(i) =>
      s.(owner := s.owner[keys[i] := None], pcs := s.pcs[r := Unlocking(i + 1)])
  }

  lemma StepShape(tasks: seq<Task>, s: State, r: ReqId)
    requires Shape(tasks, s) && Enabled(tasks, s, r)
    ensures Shape(tasks, Step(tasks, s, r))
  {
  }

  predicate Legal(tasks: seq<Task>, s: State, schedule: seq<ReqId>)
    requires Shape(tasks, s)
    decreases |schedule|
  {
    schedule == [] ||
    (Enabled(tasks, s, schedule[0]) &&
     (StepShape(tasks, s, schedule[0]); Legal(tasks, Step(tasks, s, schedule[0]), schedule[1..])))
  }

  function Run(tasks: seq<Task>, s: State, schedule: seq<ReqId>): State
    requires Shape(tasks, s) && Legal(tasks, s, schedule)
    decreases |schedule|
  {
    if schedule == [] then s
    else
      StepShape(tasks, s, schedule[0]);
      Run(tasks, Step(tasks, s, schedule[0]), schedule[1..])
  }

  /***** The invariant *****/

  /** The keys whose locks a request has. */
  function Held(keys: seq<Key>, pc: Pc): seq<Key>
    requires PcOk(pc, |keys|)
  {
    match pc
    case Locking(i) => keys[..i]
    case Unlocking(i) => keys[i..]
    case _ => keys
  }

  /** A mutex's owner is the request that has taken and not yet given it back. */
  ghost predicate OwnersOk(tasks: seq<Task>, s: State)
    requires Shape(tasks, s)
  {
    && (forall k :: 0 <= k < |s.owner| && s.owner[k].Some? ==> s.owner[k].value < |tasks|)
    && (forall k, r :: 0 <= k < |s.owner| && 0 <= r < |tasks| ==>
          (s.owner[k] == Some(r) <==> k in Held(tasks[r].keys, s.pcs[r])))
  }

  /** The request has already added its update to field f of k. */
  predicate Added(keys: seq<Key>, pc: Pc, k: Key, f: Field)
    requires PcOk(pc, |keys|)
  {
    match pc
    case Locking(_) => false
    case Loading(i, g) => k in keys[..i] || (keys[i] == k && f < g)
    case Storing(i, g, _) => k in keys[..i] || (keys[i] == k && f < g)
    case Unlocking(_) => k in keys
  }

  function Share(t: Task, pc: Pc, k: Key, f: Field): nat
    requires PcOk(pc, |t.keys|)
  {
    if Added(t.keys, pc, k, f) then t.updates[f] else 0
  }

  /** What all requests have added to field f of k so far. */
  function Total(tasks: seq<Task>, pcs: seq<Pc>, k: Key, f: Field): nat
    requires |pcs| == |tasks| && forall r :: 0 <= r < |tasks| ==> PcOk(pcs[r], |tasks[r].keys|)
  {
    if tasks == [] then 0
    else
      var n := |tasks| - 1;
      Total(tasks[..n], pcs[..n], k, f) + Share(tasks[n], pcs[n], k, f)
  }

  ghost predicate FieldOk(tasks: seq<Task>, init: Database, s: State, k: Key, f: Field)
    requires Shape(tasks, s) && k < |init| == |s.db|
  {
    Load(s.db[k], f) == (Load(init[k], f) + Total(tasks, s.pcs, k, f)) % TWO64
  }

  /** Every field holds its first value and what has been added to it; no other byte has changed. */
  ghost predicate FieldsOk(tasks: seq<Task>, init: Database, s: State)
    requires Shape(tasks, s) && |init| == |s.db|
  {
    && (forall k: Key, f: Field :: k < |init| ==> FieldOk(tasks, init, s, k, f))
    && (forall k :: 0 <= k < |init| ==> SameOutside(init[k], s.db[k]))
  }

  ghost predicate LoadedOk(t: Task, pc: Pc, db: Database)
    requires TaskOk(t, |db|) && PcOk(pc, |t.keys|)
  {
    pc.Storing? ==> pc.v == Load(db[t.keys[pc.i]], pc.f)
  }

  /** What a request has loaded is still there when it stores. */
  ghost predicate LoadsOk(tasks: seq<Task>, s: State)
    requires Shape(tasks, s)
  {
    forall r :: 0 <= r < |tasks| ==> LoadedOk(tasks[r], s.pcs[r], s.db)
  }

  ghost predicate Inv(tasks: seq<Task>, init: Database, s: State) {
    Shape(tasks, s) && |init| == |s.db| && OwnersOk(tasks, s) && FieldsOk(tasks, init, s) && LoadsOk(tasks, s)
  }

  /***** Every step keeps it *****/

  lemma HeldAfterLock(keys: seq<Key>, i: nat, k: Key)
    requires i < |keys|
    ensures PcOk(AfterLock(i, |keys|), |keys|)
    ensures k in Held(keys, AfterLock(i, |keys|)) <==> k in keys[..i] || k == keys[i]
  {
    assert keys[..i + 1] == keys[..i] + [keys[i]];
    assert i + 1 == |keys| ==> keys[..i + 1] == keys;
  }

  lemma HeldAfterUnlock(keys: seq<Key>, i: nat, k: Key)
    requires i < |keys| && keys[i] !in keys[i + 1..]
    ensures k in keys[i + 1..] <==> k in keys[i..] && k != keys[i]
    ensures keys[i] in keys[i..]
  {
    assert keys[i..] == [keys[i]] + keys[i + 1..];
  }

  lemma HeldAfterStore(keys: seq<Key>, i: nat, f: nat)
    requires i < |keys| && f < FIELDS
    ensures PcOk(AfterStore(i, f, |keys|), |keys|) && Held(keys, AfterStore(i, f, |keys|)) == keys
  {
  }

  /** The keys a request holds after its step. */
  lemma StepHeld(tasks: seq<Task>, s: State, r: ReqId, k: Key)
    requires Shape(tasks, s) && Enabled(tasks, s, r)
    ensures var keys, pc, pc' := tasks[r].keys, s.pcs[r], Step(tasks, s, r).pcs[r];
            && PcOk(pc', |keys|)
            && (pc.Locking? ==> (k in Held(keys, pc') <==> k in Held(keys, pc) || k == keys[pc.i]))
            && (pc.Unlocking? ==> (k in Held(keys, pc') <==> k in Held(keys, pc) && k != keys[pc.i]))
            && (pc.Unlocking? ==> keys[pc.i] in Held(keys, pc))
            && (pc.Loading? || pc.Storing? ==> Held(keys, pc') == Held(keys, pc))
  {
    hide Load, AddWord, AfterLock, AfterStore;
    var keys := tasks[r].keys;
    match s.pcs[r]
    case Locking(i) => HeldAfterLock(keys, i, k);
    case Unlocking(i) =>
      assert keys[i] !in keys[i + 1..];
      HeldAfterUnlock(keys, i, k);
    case Storing(i, f, _) => HeldAfterStore(keys, i, f);
    case _ =>
  }

  lemma StepOwners(tasks: seq<Task>, s: State, r: ReqId)
    requires Shape(tasks, s) && Enabled(tasks, s, r) && OwnersOk(tasks, s)
    ensures Shape(tasks, Step(tasks, s, r)) && OwnersOk(tasks, Step(tasks, s, r))
  {
    StepShape(tasks, s, r);
    var s' := Step(tasks, s, r);
    forall k, q | 0 <= k < |s.owner| && 0 <= q < |tasks|
      ensures s'.owner[k] == Some(q) <==> k in Held(tasks[q].keys, s'.pcs[q])
    {
      StepOwner(tasks, s, r, k, q);
    }
  }

  lemma StepOwner(tasks: seq<Task>, s: State, r: ReqId, k: Key, q: ReqId)
    requires Shape(tasks, s) && Enabled(tasks, s, r)
    requires k < |s.owner| && q < |tasks|
    requires s.owner[k] == Some(q) <==> k in Held(tasks[q].keys, s.pcs[q])
    requires s.owner[k] == Some(r) <==> k in Held(tasks[r].keys, s.pcs[r])
    ensures var s' := Step(tasks, s, r);
            Shape(tasks, s') && (s'.owner[k] == Some(q) <==> k in Held(tasks[q].keys, s'.pcs[q]))
  {
    StepShape(tasks, s, r);
    OwnerAfter(tasks, s, r, k);
    if q == r {
      StepHeld(tasks, s, r, k);
    } else {
      assert Step(tasks, s, r).pcs[q] == s.pcs[q];
      StepHeld(tasks, s, r, k);
    }
  }

  lemma OwnerAfter(tasks: seq<Task>, s: State, r: ReqId, k: Key)
    requires Shape(tasks, s) && Enabled(tasks, s, r) && k < |s.owner|
    ensures var keys, pc := tasks[r].keys, s.pcs[r];
            Step(tasks, s, r).owner[k] ==
              if pc.Locking? && k == keys[pc.i] then Some(r)
              else if pc.Unlocking? && k == keys[pc.i] then None
              else s.owner[k]
  {
  }

  /** A change of one request's position changes the total by that request's share. */
  lemma {:induction false} TotalUpdate(tasks: seq<Task>, pcs: seq<Pc>, r: ReqId, pc: Pc, k: Key, f: Field)
    requires |pcs| == |tasks| && forall q :: 0 <= q < |tasks| ==> PcOk(pcs[q], |tasks[q].keys|)
    requires r < |tasks| && PcOk(pc, |tasks[r].keys|)
    ensures Total(tasks, pcs[r := pc], k, f) + Share(tasks[r], pcs[r], k, f) ==
            Total(tasks, pcs, k, f) + Share(tasks[r], pc, k, f)
  {
    var n := |tasks| - 1;
    if r < n {
      TotalUpdate(tasks[..n], pcs[..n], r, pc, k, f);
      assert pcs[r := pc][..n] == pcs[..n][r := pc];
    } else {
      assert pcs[r := pc][..n] == pcs[..n];
    }
  }

  /** Only a store adds, and only to the field it stores. */
  lemma StepShare(tasks: seq<Task>, s: State, r: ReqId, k: Key, f: Field)
    requires Shape(tasks, s) && Enabled(tasks, s, r)
    ensures var t, pc, pc' := tasks[r], s.pcs[r], Step(tasks, s, r).pcs[r];
            && PcOk(pc', |t.keys|)
            && Share(t, pc', k, f) == Share(t, pc, k, f) +
                 if pc.Storing? && k == t.keys[pc.i] && f == pc.f then t.updates[f] else 0
  {
    var t, pc := tasks[r], s.pcs[r];
    if pc.Storing? {
      assert t.keys[..pc.i + 1] == t.keys[..pc.i] + [t.keys[pc.i]];
      assert pc.i + 1 == |t.keys| ==> t.keys[..pc.i + 1] == t.keys;
      assert t.keys[pc.i] !in t.keys[..pc.i];
    }
  }

  lemma StepField(tasks: seq<Task>, init: Database, s: State, r: ReqId, k: Key, f: Field)
    requires Shape(tasks, s) && |init| == |s.db| && Enabled(tasks, s, r)
    requires LoadedOk(tasks[r], s.pcs[r], s.db)
    requires k < |init| && FieldOk(tasks, init, s, k, f) && SameOutside(init[k], s.db[k])
    ensures var s' := Step(tasks, s, r);
            Shape(tasks, s') && FieldOk(tasks, init, s', k, f) && SameOutside(init[k], s'.db[k])
  {
    StepShape(tasks, s, r);
    StepShare(tasks, s, r, k, f);
    var t, pc, s' := tasks[r], s.pcs[r], Step(tasks, s, r);
    assert s'.pcs == s.pcs[r := s'.pcs[r]];
    TotalUpdate(tasks, s.pcs, r, s'.pcs[r], k, f);
    if pc.Storing? && k == t.keys[pc.i] {
      LoadStore(s.db[k], pc.f, AddWord(pc.v, t.updates[pc.f]), f);
      AddToSum(Load(init[k], f), Total(tasks, s.pcs, k, f), t.updates[f]);
    }
  }

  /** Two requests never have the same record locked. */
  lemma Exclusive(tasks: seq<Task>, s: State, r: ReqId, q: ReqId, k: Key)
    requires Shape(tasks, s) && OwnersOk(tasks, s)
    requires r < |tasks| && q < |tasks| && r != q
    requires k in Held(tasks[r].keys, s.pcs[r])
    ensures k !in Held(tasks[q].keys, s.pcs[q])
  {
    assert k < |s.owner|;
    assert s.owner[k] == Some(r);
  }

  lemma StepLoads(tasks: seq<Task>, s: State, r: ReqId)
    requires Shape(tasks, s) && Enabled(tasks, s, r) && OwnersOk(tasks, s) && LoadsOk(tasks, s)
    ensures Shape(tasks, Step(tasks, s, r)) && LoadsOk(tasks, Step(tasks, s, r))
  {
    StepShape(tasks, s, r);
    var s' := Step(tasks, s, r);
    forall q | 0 <= q < |tasks|
      ensures LoadedOk(tasks[q], s'.pcs[q], s'.db)
    {
      if s'.pcs[q].Storing? && q != r && s.pcs[r].Storing? {
        Exclusive(tasks, s, r, q, tasks[r].keys[s.pcs[r].i]);
        assert tasks[q].keys[s.pcs[q].i] != tasks[r].keys[s.pcs[r].i];
      }
    }
  }

  lemma StepKeepsInv(tasks: seq<Task>, init: Database, s: State, r: ReqId)
    requires Inv(tasks, init, s) && Enabled(tasks, s, r)
    ensures Inv(tasks, init, Step(tasks, s, r))
  {
    var s' := Step(tasks, s, r);
    StepOwners(tasks, s, r);
    StepLoads(tasks, s, r);
    forall k: Key, f: Field | k < |init|
      ensures FieldOk(tasks, init, s', k, f) && SameOutside(init[k], s'.db[k])
    {
      StepField(tasks, init, s, r, k, f);
    }
    forall k | 0 <= k < |init|
      ensures SameOutside(init[k], s'.db[k])
    {
      StepField(tasks, init, s, r, k, 0);
    }
  }

  lemma {:induction false} RunKeepsInv(tasks: seq<Task>, init: Database, s: State, schedule: seq<ReqId>)
    requires Inv(tasks, init, s) && Legal(tasks, s, schedule)
    ensures Inv(tasks, init, Run(tasks, s, schedule))
    decreases |schedule|
  {
    if schedule != [] {
      StepKeepsInv(tasks, init, s, schedule[0]);
      RunKeepsInv(tasks, init, Step(tasks, s, schedule[0]), schedule[1..]);
    }
  }

  lemma {:induction false} TotalStart(tasks: seq<Task>, pcs: seq<Pc>, k: Key, f: Field)
    requires |pcs| == |tasks| && forall r :: 0 <= r < |tasks| ==> PcOk(pcs[r], |tasks[r].keys|)
    requires forall r :: 0 <= r < |tasks| ==> pcs[r] == First(|tasks[r].keys|)
    ensures Total(tasks, pcs, k, f) == 0
  {
    if tasks != [] {
      TotalStart(tasks[..|tasks| - 1], pcs[..|tasks| - 1], k, f);
    }
  }

  lemma StartInv(db: Database, tasks: seq<Task>)
    requires forall r :: 0 <= r < |tasks| ==> TaskOk(tasks[r], |db|)
    ensures Inv(tasks, db, Start(db, tasks))
  {
    var s := Start(db, tasks);
    forall k: Key, f: Field | k < |db|
      ensures FieldOk(tasks, db, s, k, f)
    {
      TotalStart(tasks, s.pcs, k, f);
    }
  }

  /***** Concurrent is sequential *****/

  lemma TasksOk(db: Database, reqs: seq<Request>)
    requires forall r :: r in reqs ==> Valid(r, |db|)
    ensures forall r :: 0 <= r < |reqs| ==> TaskOk(Tasks(reqs)[r], |db|)
  {
    forall r | 0 <= r < |reqs|
      ensures TaskOk(Tasks(reqs)[r], |db|)
    {
      assert reqs[r] in reqs;
      SortElements(reqs[r].writeset);
      var keys := Sort(reqs[r].writeset);
      assert forall i :: 0 <= i < |keys| ==> keys[i] in keys;
    }
  }

  /** In no reachable state do two requests have the same record locked. */
  lemma MutualExclusion(db: Database, reqs: seq<Request>, schedule: seq<ReqId>, s: State, r: ReqId, q: ReqId)
    requires (forall x :: x in reqs ==> Valid(x, |db|)) && Reaches(db, reqs, schedule, s)
    requires r < |reqs| && q < |reqs| && r != q
    ensures Shape(Tasks(reqs), s)
    ensures forall k: Key :: k in Held(Tasks(reqs)[r].keys, s.pcs[r]) ==> k !in Held(Tasks(reqs)[q].keys, s.pcs[q])
  {
    ReachedInv(db, reqs, schedule, s);
    forall k: Key | k in Held(Tasks(reqs)[r].keys, s.pcs[r])
      ensures k !in Held(Tasks(reqs)[q].keys, s.pcs[q])
    {
      Exclusive(Tasks(reqs), s, r, q, k);
    }
  }

  /** The state a schedule leads to from the start. */
  ghost predicate Reaches(db: Database, reqs: seq<Request>, schedule: seq<ReqId>, s: State) {
    && Shape(Tasks(reqs), Start(db, Tasks(reqs)))
    && Legal(Tasks(reqs), Start(db, Tasks(reqs)), schedule)
    && s == Run(Tasks(reqs), Start(db, Tasks(reqs)), schedule)
  }

  lemma ReachedInv(db: Database, reqs: seq<Request>, schedule: seq<ReqId>, s: State)
    requires (forall r :: r in reqs ==> Valid(r, |db|)) && Reaches(db, reqs, schedule, s)
    ensures Inv(Tasks(reqs), db, s)
  {
    TasksOk(db, reqs);
    StartInv(db, Tasks(reqs));
    RunKeepsInv(Tasks(reqs), db, Start(db, Tasks(reqs)), schedule);
  }

  predicate AllDone(tasks: seq<Task>, pcs: seq<Pc>) {
    |pcs| == |tasks| && forall r :: 0 <= r < |tasks| ==> Done(pcs[r], |tasks[r].keys|)
  }

  /** The tasks are the requests with their write sets sorted. */
  ghost predicate AreTasks(reqs: seq<Request>, tasks: seq<Task>) {
    |tasks| == |reqs| && forall r :: 0 <= r < |reqs| ==> tasks[r] == Task(Sort(reqs[r].writeset), reqs[r].updates)
  }

  lemma {:induction false} TotalDone(reqs: seq<Request>, tasks: seq<Task>, pcs: seq<Pc>, k: Key, f: Field)
    requires AreTasks(reqs, tasks) && AllDone(tasks, pcs)
    requires forall r :: 0 <= r < |reqs| ==> NoDup(reqs[r].writeset)
    ensures Total(tasks, pcs, k, f) == Sum(reqs, k, f)
  {
    if reqs != [] {
      var n := |reqs| - 1;
      TotalDone(reqs[..n], tasks[..n], pcs[..n], k, f);
      SortElements(reqs[n].writeset);
    }
  }

  /** db' is what running the requests one after the other leaves of db. */
  ghost predicate IsSequential(db: Database, reqs: seq<Request>, db': Database)
    requires forall r :: r in reqs ==> Valid(r, |db|)
    ensures IsSequential(db, reqs, db') ==> |db'| == |db|
  {
    db' == Sequential(db, reqs)
  }

  /**
   * When all requests have finished, whatever the schedule was, every field holds its first
   * value plus the updates of the requests that have its record in their write set, mod 2^64,
   * all other bytes are as they were, all mutexes are free, and the database is the one that
   * running the requests one after the other leaves.
   */
  lemma ConcurrentIsSequential(db: Database, reqs: seq<Request>, schedule: seq<ReqId>, s: State)
    requires (forall r :: r in reqs ==> Valid(r, |db|)) && Reaches(db, reqs, schedule, s)
    requires AllDone(Tasks(reqs), s.pcs)
    ensures IsSequential(db, reqs, s.db)
    ensures forall k: Key, f: Field :: k < |db| ==>
              Load(s.db[k], f) == (Load(db[k], f) + Sum(reqs, k, f)) % TWO64
    ensures forall k :: 0 <= k < |db| ==> SameOutside(db[k], s.db[k])
    ensures |s.owner| == |db| && forall k :: 0 <= k < |db| ==> s.owner[k].None?
  {
    ReachedInv(db, reqs, schedule, s);
    DoneState(db, reqs, Tasks(reqs), s);
  }

  lemma DoneState(db: Database, reqs: seq<Request>, tasks: seq<Task>, s: State)
    requires forall r :: r in reqs ==> Valid(r, |db|)
    requires AreTasks(reqs, tasks) && Inv(tasks, db, s) && AllDone(tasks, s.pcs)
    ensures IsSequential(db, reqs, s.db)
    ensures forall k: Key, f: Field :: k < |db| ==>
              Load(s.db[k], f) == (Load(db[k], f) + Sum(reqs, k, f)) % TWO64
    ensures forall k :: 0 <= k < |db| ==> SameOutside(db[k], s.db[k])
    ensures |s.owner| == |db| && forall k :: 0 <= k < |db| ==> s.owner[k].None?
  {
    DoneFields(db, reqs, tasks, s);
    DoneOwners(tasks, s);
    DoneDatabase(db, reqs, s.db);
  }

  lemma DoneDatabase(db: Database, reqs: seq<Request>, db': Database)
    requires (forall r :: r in reqs ==> Valid(r, |db|)) && |db'| == |db|
    requires forall k :: 0 <= k < |db| ==> SameOutside(db[k], db'[k])
    requires forall k: Key, f: Field :: k < |db| ==>
               Load(db'[k], f) == (Load(db[k], f) + Sum(reqs, k, f)) % TWO64
    ensures IsSequential(db, reqs, db')
  {
    forall k | 0 <= k < |db|
      ensures db'[k] == Sequential(db, reqs)[k]
    {
      SameFields(db, reqs, db', k);
    }
  }

  lemma DoneFields(db: Database, reqs: seq<Request>, tasks: seq<Task>, s: State)
    requires forall r :: r in reqs ==> Valid(r, |db|)
    requires AreTasks(reqs, tasks) && AllDone(tasks, s.pcs)
    requires Shape(tasks, s) && |s.db| == |db| && FieldsOk(tasks, db, s)
    ensures forall k: Key, f: Field :: k < |db| ==>
              Load(s.db[k], f) == (Load(db[k], f) + Sum(reqs, k, f)) % TWO64
  {
    forall k: Key, f: Field | k < |db|
      ensures Load(s.db[k], f) == (Load(db[k], f) + Sum(reqs, k, f)) % TWO64
    {
      assert FieldOk(tasks, db, s, k, f);
      DoneField(db, reqs, tasks, s, k, f);
    }
  }

  lemma DoneField(db: Database, reqs: seq<Request>, tasks: seq<Task>, s: State, k: Key, f: Field)
    requires forall r :: r in reqs ==> Valid(r, |db|)
    requires AreTasks(reqs, tasks) && AllDone(tasks, s.pcs)
    requires Shape(tasks, s) && k < |db| == |s.db| && FieldOk(tasks, db, s, k, f)
    ensures Load(s.db[k], f) == (Load(db[k], f) + Sum(reqs, k, f)) % TWO64
  {
    assert forall r :: 0 <= r < |reqs| ==> reqs[r] in reqs;
    TotalDone(reqs, tasks, s.pcs, k, f);
  }

  lemma DoneOwners(tasks: seq<Task>, s: State)
    requires Shape(tasks, s) && OwnersOk(tasks, s) && AllDone(tasks, s.pcs)
    ensures forall k :: 0 <= k < |s.db| ==> s.owner[k].None?
  {
    forall k | 0 <= k < |s.db|
      ensures s.owner[k].None?
    {
      if s.owner[k].Some? {
        assert false;
      }
    }
  }

  lemma SameFields(db: Database, reqs: seq<Request>, db': Database, k: Key)
    requires (forall r :: r in reqs ==> Valid(r, |db|)) && k < |db| == |db'| && SameOutside(db[k], db'[k])
    requires forall f: Field :: Load(db'[k], f) == (Load(db[k], f) + Sum(reqs, k, f)) % TWO64
    ensures db'[k] == Sequential(db, reqs)[k]
  {
    forall f: Field
      ensures Load(db'[k], f) == Load(Sequential(db, reqs)[k], f)
      ensures SameOutside(db[k], Sequential(db, reqs)[k])
    {
      SequentialAdds(db, reqs, k, f);
    }
    SequentialAdds(db, reqs, k, 0);
    RecordsEqual(db'[k], Sequential(db, reqs)[k]);
  }

  /***** Deadlock freedom and termination *****/

  /** Larger for a smaller awaited key. */
  function Patience(t: Task, pc: Pc, numRecords: nat): nat
    requires TaskOk(t, numRecords) && PcOk(pc, |t.keys|)
  {
    if pc.Locking? then numRecords - t.keys[pc.i] else 0
  }

  /**
   * From an unfinished request, follow the owner of the awaited key: each next one awaits a
   * greater key, so the walk ends at a request that can step.
   */
  lemma {:induction false} SomeoneSteps(tasks: seq<Task>, s: State, r: ReqId) returns (q: ReqId)
    requires Shape(tasks, s) && OwnersOk(tasks, s)
    requires r < |tasks| && !Done(s.pcs[r], |tasks[r].keys|)
    ensures Enabled(tasks, s, q)
    decreases Patience(tasks[r], s.pcs[r], |s.db|)
  {
    if Enabled(tasks, s, r) {
      q := r;
    } else {
      var k := tasks[r].keys[s.pcs[r].i];
      var o := s.owner[k].value;
      assert k in Held(tasks[o].keys, s.pcs[o]);
      q := SomeoneSteps(tasks, s, o);
    }
  }

  /** No reachable state with an unfinished request is a deadlock. */
  lemma DeadlockFree(db: Database, reqs: seq<Request>, schedule: seq<ReqId>, s: State)
    requires (forall r :: r in reqs ==> Valid(r, |db|)) && Reaches(db, reqs, schedule, s)
    requires !AllDone(Tasks(reqs), s.pcs)
    ensures Shape(Tasks(reqs), s)
    ensures exists q :: Enabled(Tasks(reqs), s, q)
  {
    ReachedInv(db, reqs, schedule, s);
    var r :| 0 <= r < |reqs| && !Done(s.pcs[r], |Tasks(reqs)[r].keys|);
    var q := SomeoneSteps(Tasks(reqs), s, r);
  }

  /** The steps a request has left: of each record lock, load and store ten fields, unlock. */
  function Remaining(pc: Pc, n: nat): nat
    requires PcOk(pc, n)
  {
    match pc
    case Locking(i) => n - i + 20 * n + n
    case Loading(i, f) => 20 * (n - i) - 2 * f + n
    case Storing(i, f, _) => 20 * (n - i) - 2 * f - 1 + n
    case Unlocking(i) => n - i
  }

  function Measure(tasks: seq<Task>, pcs: seq<Pc>): nat
    requires |pcs| == |tasks| && forall r :: 0 <= r < |tasks| ==> PcOk(pcs[r], |tasks[r].keys|)
  {
    if tasks == [] then 0
    else
      var n := |tasks| - 1;
      Measure(tasks[..n], pcs[..n]) + Remaining(pcs[n], |tasks[n].keys|)
  }

  lemma {:induction false} MeasureUpdate(tasks: seq<Task>, pcs: seq<Pc>, r: ReqId, pc: Pc)
    requires |pcs| == |tasks| && forall q :: 0 <= q < |tasks| ==> PcOk(pcs[q], |tasks[q].keys|)
    requires r < |tasks| && PcOk(pc, |tasks[r].keys|)
    ensures Measure(tasks, pcs[r := pc]) + Remaining(pcs[r], |tasks[r].keys|) ==
            Measure(tasks, pcs) + Remaining(pc, |tasks[r].keys|)
  {
    var n := |tasks| - 1;
    if r < n {
      MeasureUpdate(tasks[..n], pcs[..n], r, pc);
      assert pcs[r := pc][..n] == pcs[..n][r := pc];
    } else {
      assert pcs[r := pc][..n] == pcs[..n];
    }
  }

  lemma StepMeasure(tasks: seq<Task>, s: State, r: ReqId)
    requires Shape(tasks, s) && Enabled(tasks, s, r)
    ensures Shape(tasks, Step(tasks, s, r))
    ensures Measure(tasks, Step(tasks, s, r).pcs) + 1 == Measure(tasks, s.pcs)
  {
    StepShape(tasks, s, r);
    var pc' := Step(tasks, s, r).pcs[r];
    assert Step(tasks, s, r).pcs == s.pcs[r := pc'];
    StepRemaining(tasks, s, r);
    MeasureUpdate(tasks, s.pcs, r, pc');
  }

  lemma AfterRemaining(i: nat, f: nat, n: nat)
    requires i < n && f < FIELDS
    ensures PcOk(AfterLock(i, n), n) && Remaining(AfterLock(i, n), n) + 1 == Remaining(Locking(i), n)
    ensures PcOk(AfterStore(i, f, n), n) && Remaining(AfterStore(i, f, n), n) + 1 == Remaining(Storing(i, f, 0), n)
  {
    assert FIELDS == 10;
  }

  lemma StepRemaining(tasks: seq<Task>, s: State, r: ReqId)
    requires Shape(tasks, s) && Enabled(tasks, s, r)
    ensures var n, pc' := |tasks[r].keys|, Step(tasks, s, r).pcs[r];
            PcOk(pc', n) && Remaining(pc', n) + 1 == Remaining(s.pcs[r], n)
  {
    var n := |tasks[r].keys|;
    match s.pcs[r]
    case Locking(i) => AfterRemaining(i, 0, n);
    case Storing(i, f, _) => AfterRemaining(i, f, n);
    case _ =>
  }

  lemma {:induction false} RunSteps(tasks: seq<Task>, s: State, schedule: seq<ReqId>)
    requires Shape(tasks, s) && Legal(tasks, s, schedule)
    ensures Shape(tasks, Run(tasks, s, schedule))
    ensures |schedule| + Measure(tasks, Run(tasks, s, schedule).pcs) == Measure(tasks, s.pcs)
    decreases |schedule|
  {
    if schedule != [] {
      StepMeasure(tasks, s, schedule[0]);
      RunSteps(tasks, Step(tasks, s, schedule[0]), schedule[1..]);
    }
  }

  /** How many locks the requests take. */
  function Locks(reqs: seq<Request>): nat {
    if reqs == [] then 0 else Locks(reqs[..|reqs| - 1]) + |reqs[|reqs| - 1].writeset|
  }

  lemma FirstRemaining(n: nat)
    ensures PcOk(First(n), n) && Remaining(First(n), n) == 22 * n
  {
  }

  lemma {:induction false} MeasureStart(reqs: seq<Request>, tasks: seq<Task>, pcs: seq<Pc>)
    requires |pcs| == |tasks| == |reqs|
    requires forall r :: 0 <= r < |tasks| ==> PcOk(pcs[r], |tasks[r].keys|)
    requires forall r :: 0 <= r < |reqs| ==> |tasks[r].keys| == |reqs[r].writeset| && pcs[r] == First(|tasks[r].keys|)
    ensures Measure(tasks, pcs) == 22 * Locks(reqs)
  {
    hide Remaining, First;
    if reqs != [] {
      var n := |reqs| - 1;
      MeasureStart(reqs[..n], tasks[..n], pcs[..n]);
      FirstRemaining(|reqs[n].writeset|);
    }
  }

  lemma {:induction false} MeasureZero(tasks: seq<Task>, pcs: seq<Pc>)
    requires |pcs| == |tasks| && forall r :: 0 <= r < |tasks| ==> PcOk(pcs[r], |tasks[r].keys|)
    ensures Measure(tasks, pcs) == 0 <==> AllDone(tasks, pcs)
  {
    if tasks != [] {
      var n := |tasks| - 1;
      MeasureZero(tasks[..n], pcs[..n]);
      assert AllDone(tasks, pcs) <==> AllDone(tasks[..n], pcs[..n]) && Done(pcs[n], |tasks[n].keys|);
    }
  }

  /**
   * Every schedule comes to an end, and all to the same number of steps: it is no longer than
   * 22 steps for each lock the requests take, and as long exactly when all have finished.
   */
  lemma Terminates(db: Database, reqs: seq<Request>, schedule: seq<ReqId>, s: State)
    requires (forall r :: r in reqs ==> Valid(r, |db|)) && Reaches(db, reqs, schedule, s)
    ensures |schedule| <= 22 * Locks(reqs)
    ensures |schedule| == 22 * Locks(reqs) <==> AllDone(Tasks(reqs), s.pcs)
  {
    var tasks := Tasks(reqs);
    RunSteps(tasks, Start(db, tasks), schedule);
    forall r | 0 <= r < |reqs|
      ensures |tasks[r].keys| == |reqs[r].writeset|
    {
      assert reqs[r] in reqs;
      SortElements(reqs[r].writeset);
    }
    MeasureStart(reqs, tasks, Start(db, tasks).pcs);
    MeasureZero(tasks, s.pcs);
  }
}

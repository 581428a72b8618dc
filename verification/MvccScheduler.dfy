/**
 * Multiversion timestamp ordering on the contract of the version lists: workers read key by
 * key, and check and write all their keys in one step, which MvccLocking takes apart. A
 * transaction whose check has failed restarts under a fresh id.
 */
module MvccScheduler {
  import opened Base
  import opened Transactions
  import opened MvccVersions

  type TxnId = nat

  datatype Stage = Reading(todo: seq<Key>) | Checking | Committed | Aborted | Failed | Restarted

  /**
   * One execution of a request, with the values it has fetched and, once it has run, what its
   * program made of them. Ids start at 1: the attempt at index t has the id t + 1.
   */
  datatype Attempt = Attempt(req: Request, stage: Stage, fetched: Store, outcome: Outcome)

  datatype State = State(init: Store, versions: map<Key, Versions>, attempts: seq<Attempt>, died: bool)

  datatype Event =
    | NewRequest(req: Request)
    | ReadKey(txn: TxnId) | RunProgram(txn: TxnId) | CheckAndWrite(txn: TxnId)
    | Restart(txn: TxnId)

  /** InitStorage writes every key at id 0. */
  function Start(init: Store): State {
    State(init, map k | k in init :: [Version(init[k], 0, 0)], [], false)
  }

  /** What the program makes of the values fetched. */
  function OutcomeOf(a: Attempt): Outcome {
    RunBuffered(a.req, [], a.fetched, map[])
  }

  function NewAttempt(req: Request): Attempt {
    Attempt(req, Reading(Keys(req)), map[], Outcome(map[], map[], Incomplete, false))
  }

  /**
   * Only the keys of the initial storage have a mutex and a version list. The read set and
   * the write set are sets; a key may be in both.
   */
  predicate Usable(req: Request, keys: set<Key>) {
    AreSets(req) && forall k :: k in Keys(req) ==> k in keys
  }

  predicate Enabled(s: State, e: Event) {
    && !s.died
    && match e
       case NewRequest(req) => Usable(req, s.versions.Keys)
       case ReadKey(t) =>
         && t < |s.attempts| && s.attempts[t].stage.Reading?
         && s.attempts[t].stage.todo != [] && s.attempts[t].stage.todo[0] in s.versions
       case RunProgram(t) => t < |s.attempts| && s.attempts[t].stage == Reading([])
       case CheckAndWrite(t) =>
         && t < |s.attempts| && s.attempts[t].stage == Checking
         && forall k :: k in s.attempts[t].req.writeset ==> k in s.versions
       case Restart(t) => t < |s.attempts| && s.attempts[t].stage.Failed?
  }

  function Fetched(a: Attempt, v: Option<Value>): Attempt
    requires a.stage.Reading? && a.stage.todo != []
  {
    a.(stage := Reading(a.stage.todo[1..]),
       fetched := if v.Some? then a.fetched[a.stage.todo[0] := v.value] else a.fetched)
  }

  function AfterRead(s: State, t: TxnId): State
    requires Enabled(s, ReadKey(t))
  {
    var k := s.attempts[t].stage.todo[0];
    s.(versions := s.versions[k := MarkRead(s.versions[k], t + 1)],
       attempts := s.attempts[t := Fetched(s.attempts[t], ValueAt(s.versions[k], t + 1))])
  }

  function Ran(a: Attempt, o: Outcome): Attempt {
    a.(stage := if o.status == CompletedC then Checking else Stage.Aborted, outcome := o)
  }

  function AfterRun(s: State, t: TxnId): State
    requires Enabled(s, RunProgram(t))
  {
    var o := OutcomeOf(s.attempts[t]);
    if Fatal(o) then s.(died := true)
    else s.(attempts := s.attempts[t := Ran(s.attempts[t], o)])
  }

  predicate AllPass(versions: map<Key, Versions>, keys: seq<Key>, id: nat)
    requires forall k :: k in keys ==> k in versions
  {
    forall k :: k in keys ==> Passes(versions[k], id)
  }

  function WriteAll(versions: map<Key, Versions>, writes: Store, id: nat): map<Key, Versions> {
    map k | k in versions :: if k in writes then AddVersion(versions[k], writes[k], id) else versions[k]
  }

  function AfterCheck(s: State, t: TxnId): State
    requires Enabled(s, CheckAndWrite(t))
  {
    var a := s.attempts[t];
    if AllPass(s.versions, a.req.writeset, t + 1) then
      s.(versions := WriteAll(s.versions, a.outcome.writeBuf, t + 1),
         attempts := s.attempts[t := a.(stage := Stage.Committed)])
    else
      s.(attempts := s.attempts[t := a.(stage := Failed)])
  }

  /** The request of a failed attempt starts again from nothing, under a fresh id. */
  function AfterRestart(s: State, t: TxnId): State
    requires Enabled(s, Restart(t))
  {
    s.(attempts := s.attempts[t := s.attempts[t].(stage := Restarted)] + [NewAttempt(s.attempts[t].req)])
  }

  function Step(s: State, e: Event): State
    requires Enabled(s, e)
  {
    match e
    case NewRequest(req) => s.(attempts := s.attempts + [NewAttempt(req)])
    case ReadKey(t) => AfterRead(s, t)
    case RunProgram(t) => AfterRun(s, t)
    case CheckAndWrite(t) => AfterCheck(s, t)
    case Restart(t) => AfterRestart(s, t)
  }

  predicate Legal(s: State, es: seq<Event>)
    decreases |es|
  {
    es == [] || (Enabled(s, es[0]) && Legal(Step(s, es[0]), es[1..]))
  }

  function Run(s: State, es: seq<Event>): State
    requires Legal(s, es)
    decreases |es|
  {
    if es == [] then s else Run(Step(s, es[0]), es[1..])
  }

  /***** The invariant *****/

  predicate Wrote(a: Attempt, k: Key) {
    a.stage.Committed? && k in a.outcome.writeBuf
  }

  /** The version is the initial one, or a committed attempt's write. */
  ghost predicate Genuine(v: Version, k: Key, init: Store, attempts: seq<Attempt>) {
    if v.versionId == 0 then k in init && v.value == init[k]
    else
      v.versionId <= |attempts| && Wrote(attempts[v.versionId - 1], k) &&
      v.value == attempts[v.versionId - 1].outcome.writeBuf[k]
  }

  /** k's list holds the initial version, and those of the committed attempts that wrote k. */
  ghost predicate ListOk(vs: Versions, k: Key, init: Store, attempts: seq<Attempt>) {
    && Decreasing(vs) && IntervalsFree(vs)
    && vs != [] && vs[|vs| - 1].versionId == 0
    && (forall i :: 0 <= i < |vs| ==> Genuine(vs[i], k, init, attempts))
    && (forall t :: 0 <= t < |attempts| && Wrote(attempts[t], k) ==> Has(vs, t + 1))
  }

  ghost predicate ListAt(s: State, k: Key) {
    k in s.versions ==> ListOk(s.versions[k], k, s.init, s.attempts)
  }

  ghost predicate ListsOk(s: State) {
    s.versions.Keys == s.init.Keys && forall k {:trigger ListAt(s, k)} :: ListAt(s, k)
  }

  /** The keys the attempt has read. */
  function Seen(a: Attempt): seq<Key> {
    if a.stage.Reading? && |a.stage.todo| <= |Keys(a.req)| then Keys(a.req)[..|Keys(a.req)| - |a.stage.todo|]
    else Keys(a.req)
  }

  /** What the attempt at t read of k is the newest older version, which bears its mark. */
  ghost predicate ReadOk(vs: Versions, t: TxnId, v: Option<Value>) {
    var i := FirstAtMost(vs, t);
    i < |vs| && v == Some(vs[i].value) && t + 1 <= vs[i].maxReadId
  }

  ghost predicate ReadAt(a: Attempt, t: TxnId, versions: map<Key, Versions>, k: Key) {
    && (k in a.fetched ==> k in Seen(a))
    && (k in Seen(a) ==> k in versions && ReadOk(versions[k], t, Lookup(a.fetched, k)))
  }

  ghost predicate AttemptOk(a: Attempt, t: TxnId, versions: map<Key, Versions>) {
    && Usable(a.req, versions.Keys)
    && (a.stage.Reading? ==> |a.stage.todo| <= |Keys(a.req)| && a.stage.todo == Keys(a.req)[|Keys(a.req)| - |a.stage.todo|..])
    && (forall k {:trigger ReadAt(a, t, versions, k)} :: ReadAt(a, t, versions, k))
  }

  ghost predicate AttemptAt(s: State, t: TxnId) {
    t < |s.attempts| ==> AttemptOk(s.attempts[t], t, s.versions)
  }

  ghost predicate AttemptsOk(s: State) {
    forall t {:trigger AttemptAt(s, t)} :: AttemptAt(s, t)
  }

  /** What the program made of the fetched values, and the vote that led to the stage. */
  ghost predicate OutcomeOk(a: Attempt) {
    !a.stage.Reading? ==>
      && a.outcome == OutcomeOf(a) && !Fatal(a.outcome)
      && (a.stage.Checking? || a.stage.Committed? ==> a.outcome.status == CompletedC)
      && (a.stage.Aborted? ==> a.outcome.status != CompletedC)
  }

  ghost predicate OutcomeAt(s: State, t: TxnId) {
    t < |s.attempts| ==> OutcomeOk(s.attempts[t])
  }

  ghost predicate OutcomesOk(s: State) {
    forall t {:trigger OutcomeAt(s, t)} :: OutcomeAt(s, t)
  }

  ghost predicate Inv(s: State) {
    ListsOk(s) && AttemptsOk(s) && OutcomesOk(s)
  }

  /***** Lists *****/

  /** Lists stay when no attempt becomes committed, or changes that has been. */
  lemma ListFrame(vs: Versions, k: Key, init: Store, attempts: seq<Attempt>, attempts': seq<Attempt>)
    requires ListOk(vs, k, init, attempts) && |attempts| <= |attempts'|
    requires forall t :: 0 <= t < |attempts| && attempts[t].stage.Committed? ==> attempts'[t] == attempts[t]
    requires forall t :: 0 <= t < |attempts'| && attempts'[t].stage.Committed? ==> t < |attempts| && attempts[t].stage.Committed?
    ensures ListOk(vs, k, init, attempts')
  {
    forall i | 0 <= i < |vs|
      ensures Genuine(vs[i], k, init, attempts')
    {
      assert Genuine(vs[i], k, init, attempts);
    }
  }

  lemma ListsFrame(s: State, s': State)
    requires ListsOk(s) && |s.attempts| <= |s'.attempts| && s'.versions == s.versions && s'.init == s.init
    requires forall t :: 0 <= t < |s.attempts| && s.attempts[t].stage.Committed? ==> s'.attempts[t] == s.attempts[t]
    requires forall t :: 0 <= t < |s'.attempts| && s'.attempts[t].stage.Committed? ==> t < |s.attempts| && s.attempts[t].stage.Committed?
    ensures ListsOk(s')
  {
    forall k
      ensures ListAt(s', k)
    {
      assert ListAt(s, k);
      if k in s.versions {
        ListFrame(s.versions[k], k, s.init, s.attempts, s'.attempts);
      }
    }
  }

  lemma MarkedList(vs: Versions, id: nat, k: Key, init: Store, attempts: seq<Attempt>)
    requires ListOk(vs, k, init, attempts)
    ensures ListOk(MarkRead(vs, id), k, init, attempts)
  {
    MarkKeeps(vs, id, 0);
    ReadKeepsIntervals(vs, id);
    SameVersions(vs, MarkRead(vs, id), k, init, attempts);
  }

  /** Genuine versions stay so while ids and values do. */
  lemma SameVersions(vs: Versions, vs': Versions, k: Key, init: Store, attempts: seq<Attempt>)
    requires ListOk(vs, k, init, attempts) && |vs'| == |vs| && Decreasing(vs') && IntervalsFree(vs')
    requires forall i :: 0 <= i < |vs| ==> vs'[i].versionId == vs[i].versionId && vs'[i].value == vs[i].value
    ensures ListOk(vs', k, init, attempts)
  {
    forall i | 0 <= i < |vs'|
      ensures Genuine(vs'[i], k, init, attempts)
    {
      assert Genuine(vs[i], k, init, attempts);
    }
    forall t | 0 <= t < |attempts| && Wrote(attempts[t], k)
      ensures Has(vs', t + 1)
    {
      assert Has(vs, t + 1);
      var i :| 0 <= i < |vs| && vs[i].versionId == t + 1;
      assert vs'[i].versionId == t + 1;
    }
  }

  /** An attempt that has not committed sees the same with its own id as just below it. */
  lemma OwnIdUnused(vs: Versions, k: Key, init: Store, attempts: seq<Attempt>, t: TxnId)
    requires ListOk(vs, k, init, attempts) && t < |attempts| && !attempts[t].stage.Committed?
    ensures !Has(vs, t + 1) && FirstAtMost(vs, t + 1) == FirstAtMost(vs, t) < |vs|
  {
    if i :| 0 <= i < |vs| && vs[i].versionId == t + 1 {
      assert Genuine(vs[i], k, init, attempts);
    }
    var f := FirstAtMost(vs, t);
    assert forall j :: 0 <= j < f ==> t + 1 < vs[j].versionId by {
      forall j | 0 <= j < f
        ensures t + 1 < vs[j].versionId
      {
        assert vs[j].versionId != t + 1;
      }
    }
    assert IsFirst(vs, t + 1, f);
    FirstUnique(vs, t + 1, f);
  }

  lemma ReadLists(s: State, t: TxnId)
    requires ListsOk(s) && Enabled(s, ReadKey(t))
    ensures ListsOk(AfterRead(s, t))
  {
    hide ListOk, MarkRead, FirstAtMost;
    var s', k := AfterRead(s, t), s.attempts[t].stage.todo[0];
    var marked := s.(versions := s.versions[k := MarkRead(s.versions[k], t + 1)]);
    assert marked.versions.Keys == s.versions.Keys;
    forall x
      ensures ListAt(marked, x)
    {
      assert ListAt(s, x);
      if x == k {
        MarkedList(s.versions[k], t + 1, k, s.init, s.attempts);
      }
    }
    ListsFrame(marked, s');
  }

  /** A list to which the attempt at t, now committed, has added its version. */
  lemma AddedList(vs: Versions, k: Key, init: Store, attempts: seq<Attempt>, t: TxnId)
    requires ListOk(vs, k, init, attempts) && t < |attempts| && attempts[t].stage.Checking?
    requires k in attempts[t].outcome.writeBuf && Passes(vs, t + 1)
    ensures ListOk(AddVersion(vs, attempts[t].outcome.writeBuf[k], t + 1), k, init,
                   attempts[t := attempts[t].(stage := Stage.Committed)])
  {
    var value := attempts[t].outcome.writeBuf[k];
    OwnIdUnused(vs, k, init, attempts, t);
    AddShape(vs, value, t + 1);
    CheckedWriteKeepsIntervals(vs, value, t + 1);
    AddedGenuine(vs, k, init, attempts, t);
    AddedHas(vs, k, init, attempts, t);
  }

  lemma AddedGenuine(vs: Versions, k: Key, init: Store, attempts: seq<Attempt>, t: TxnId)
    requires ListOk(vs, k, init, attempts) && t < |attempts| && attempts[t].stage.Checking?
    requires k in attempts[t].outcome.writeBuf
    ensures var vs' := AddVersion(vs, attempts[t].outcome.writeBuf[k], t + 1);
            forall i :: 0 <= i < |vs'| ==> Genuine(vs'[i], k, init, attempts[t := attempts[t].(stage := Stage.Committed)])
  {
    var value, attempts' := attempts[t].outcome.writeBuf[k], attempts[t := attempts[t].(stage := Stage.Committed)];
    var vs', p := AddVersion(vs, value, t + 1), FirstAtMost(vs, t + 1);
    forall i | 0 <= i < |vs'|
      ensures Genuine(vs'[i], k, init, attempts')
    {
      if i == p {
        assert vs'[i] == Version(value, t + 1, t + 1);
      } else {
        var v := vs[if i < p then i else i - 1];
        assert vs'[i] == v;
        assert Genuine(v, k, init, attempts);
      }
    }
  }

  lemma AddedHas(vs: Versions, k: Key, init: Store, attempts: seq<Attempt>, t: TxnId)
    requires ListOk(vs, k, init, attempts) && t < |attempts| && attempts[t].stage.Checking?
    requires k in attempts[t].outcome.writeBuf
    ensures var vs', attempts' := AddVersion(vs, attempts[t].outcome.writeBuf[k], t + 1),
                                  attempts[t := attempts[t].(stage := Stage.Committed)];
            forall u :: 0 <= u < |attempts'| && Wrote(attempts'[u], k) ==> Has(vs', u + 1)
  {
    hide Genuine, IntervalsFree, FirstAtMost;
    var value, attempts' := attempts[t].outcome.writeBuf[k], attempts[t := attempts[t].(stage := Stage.Committed)];
    var vs', p := AddVersion(vs, value, t + 1), FirstAtMost(vs, t + 1);
    forall u | 0 <= u < |attempts'| && Wrote(attempts'[u], k)
      ensures Has(vs', u + 1)
    {
      if u == t {
        assert vs'[p].versionId == t + 1;
      } else {
        assert Has(vs, u + 1);
        var i :| 0 <= i < |vs| && vs[i].versionId == u + 1;
        assert vs'[if i < p then i else i + 1] == vs[i];
      }
    }
  }

  /** A list it has not written to. */
  lemma KeptList(vs: Versions, k: Key, init: Store, attempts: seq<Attempt>, t: TxnId)
    requires ListOk(vs, k, init, attempts) && t < |attempts| && attempts[t].stage.Checking?
    requires k !in attempts[t].outcome.writeBuf
    ensures ListOk(vs, k, init, attempts[t := attempts[t].(stage := Stage.Committed)])
  {
    var attempts' := attempts[t := attempts[t].(stage := Stage.Committed)];
    forall i | 0 <= i < |vs|
      ensures Genuine(vs[i], k, init, attempts')
    {
      assert Genuine(vs[i], k, init, attempts);
    }
  }

  lemma CommitLists(s: State, t: TxnId)
    requires ListsOk(s) && Enabled(s, CheckAndWrite(t)) && AllPass(s.versions, s.attempts[t].req.writeset, t + 1)
    requires forall k :: k in s.attempts[t].outcome.writeBuf ==> k in s.attempts[t].req.writeset
    ensures ListsOk(AfterCheck(s, t))
  {
    var s', w := AfterCheck(s, t), s.attempts[t].outcome.writeBuf;
    assert s'.versions.Keys == s.versions.Keys;
    forall k
      ensures ListAt(s', k)
    {
      assert ListAt(s, k);
      if k in s.versions {
        if k in w {
          AddedList(s.versions[k], k, s.init, s.attempts, t);
        } else {
          KeptList(s.versions[k], k, s.init, s.attempts, t);
        }
      }
    }
  }

  /***** Attempts *****/

  /** What one attempt has read stays right under a change of the lists that keeps it right. */
  lemma AttemptFrame(a: Attempt, a': Attempt, t: TxnId, versions: map<Key, Versions>, versions': map<Key, Versions>)
    requires AttemptOk(a, t, versions) && versions'.Keys == versions.Keys
    requires a'.req == a.req && a'.fetched == a.fetched && Seen(a') == Seen(a)
    requires a'.stage.Reading? ==> a'.stage == a.stage
    requires forall k :: k in Seen(a) && k in versions && ReadOk(versions[k], t, Lookup(a.fetched, k)) ==>
               ReadOk(versions'[k], t, Lookup(a.fetched, k))
    ensures AttemptOk(a', t, versions')
  {
    forall k
      ensures ReadAt(a', t, versions', k)
    {
      assert ReadAt(a, t, versions, k);
    }
  }

  lemma ReadKeepsOthers(vs: Versions, id: nat, u: TxnId, v: Option<Value>)
    requires Decreasing(vs) && ReadOk(vs, u, v)
    ensures ReadOk(MarkRead(vs, id), u, v)
  {
    MarkKeeps(vs, id, u);
  }

  lemma OtherReads(a: Attempt, u: TxnId, versions: map<Key, Versions>, k: Key, id: nat)
    requires AttemptOk(a, u, versions) && k in versions && Decreasing(versions[k])
    ensures AttemptOk(a, u, versions[k := MarkRead(versions[k], id)])
  {
    var versions' := versions[k := MarkRead(versions[k], id)];
    assert versions'.Keys == versions.Keys;
    forall x | x in Seen(a) && x in versions && ReadOk(versions[x], u, Lookup(a.fetched, x))
      ensures ReadOk(versions'[x], u, Lookup(a.fetched, x))
    {
      if x == k {
        ReadKeepsOthers(versions[k], id, u, Lookup(a.fetched, k));
      }
    }
    AttemptFrame(a, a, u, versions, versions');
  }

  /** The reader itself. */
  lemma ReaderOk(a: Attempt, t: TxnId, versions: map<Key, Versions>, k: Key)
    requires AttemptOk(a, t, versions) && a.stage.Reading? && a.stage.todo != [] && a.stage.todo[0] == k
    requires k in versions && Decreasing(versions[k])
    requires FirstAtMost(versions[k], t + 1) == FirstAtMost(versions[k], t) < |versions[k]|
    ensures AttemptOk(Fetched(a, ValueAt(versions[k], t + 1)), t, versions[k := MarkRead(versions[k], t + 1)])
  {
    var a', versions' := Fetched(a, ValueAt(versions[k], t + 1)), versions[k := MarkRead(versions[k], t + 1)];
    assert versions'.Keys == versions.Keys;
    SeenNext(a, k, ValueAt(versions[k], t + 1));
    MarkKeeps(versions[k], t + 1, t);
    forall x
      ensures ReadAt(a', t, versions', x)
    {
      assert ReadAt(a, t, versions, x);
    }
  }

  lemma SeenNext(a: Attempt, k: Key, v: Option<Value>)
    requires a.stage.Reading? && a.stage.todo != [] && a.stage.todo[0] == k && |a.stage.todo| <= |Keys(a.req)|
    requires a.stage.todo == Keys(a.req)[|Keys(a.req)| - |a.stage.todo|..]
    ensures Seen(Fetched(a, v)) == Seen(a) + [k]
    ensures Fetched(a, v).stage.todo == Keys(a.req)[|Keys(a.req)| - |a.stage.todo| + 1..]
  {
    assert Keys(a.req)[|Keys(a.req)| - |a.stage.todo|] == k;
  }

  lemma ReadAttempts(s: State, t: TxnId)
    requires AttemptsOk(s) && Enabled(s, ReadKey(t))
    requires ListOk(s.versions[s.attempts[t].stage.todo[0]], s.attempts[t].stage.todo[0], s.init, s.attempts)
    ensures AttemptsOk(AfterRead(s, t))
  {
    hide AttemptOk, MarkRead, Fetched;
    var s', k := AfterRead(s, t), s.attempts[t].stage.todo[0];
    OwnIdUnused(s.versions[k], k, s.init, s.attempts, t);
    assert AttemptAt(s, t);
    ReaderOk(s.attempts[t], t, s.versions, k);
    forall u: TxnId
      ensures AttemptAt(s', u)
    {
      if u != t && u < |s.attempts| {
        assert AttemptAt(s, u);
        OtherReads(s.attempts[u], u, s.versions, k, t + 1);
      }
    }
  }

  /** A change of one attempt that leaves its reads alone, and new attempts. */
  lemma AttemptsFrame(s: State, s': State, t: TxnId)
    requires AttemptsOk(s) && s'.versions == s.versions && t < |s.attempts| <= |s'.attempts|
    requires forall u :: 0 <= u < |s.attempts| && u != t ==> s'.attempts[u] == s.attempts[u]
    requires forall u :: |s.attempts| <= u < |s'.attempts| ==> s'.attempts[u] == NewAttempt(s'.attempts[u].req)
    requires forall u :: |s.attempts| <= u < |s'.attempts| ==> Usable(s'.attempts[u].req, s.versions.Keys)
    requires var a, a' := s.attempts[t], s'.attempts[t];
             a'.req == a.req && a'.fetched == a.fetched && Seen(a') == Seen(a) && !a'.stage.Reading?
    ensures AttemptsOk(s')
  {
    forall u: TxnId
      ensures AttemptAt(s', u)
    {
      assert AttemptAt(s, u);
      if u == t {
        AttemptFrame(s.attempts[t], s'.attempts[t], t, s.versions, s.versions);
      } else if |s.attempts| <= u < |s'.attempts| {
        NewAttemptOk(s'.attempts[u].req, u, s.versions);
      }
    }
  }

  lemma NewAttemptOk(req: Request, t: TxnId, versions: map<Key, Versions>)
    requires Usable(req, versions.Keys)
    ensures AttemptOk(NewAttempt(req), t, versions)
  {
  }

  /** What any attempt has read of k stays right when t's checked version is added. */
  lemma CommitKeepsRead(vs: Versions, k: Key, init: Store, attempts: seq<Attempt>, t: TxnId, value: Value, u: TxnId, v: Option<Value>)
    requires ListOk(vs, k, init, attempts) && t < |attempts| && !attempts[t].stage.Committed?
    requires Passes(vs, t + 1) && ReadOk(vs, u, v)
    ensures ReadOk(AddVersion(vs, value, t + 1), u, v)
  {
    OwnIdUnused(vs, k, init, attempts, t);
    if u != t + 1 {
      WriteUnseen(vs, value, t + 1, u);
    }
  }

  lemma CommitKeepsAttempt(s: State, t: TxnId, w: Store, a: Attempt, u: TxnId)
    requires ListsOk(s) && t < |s.attempts| && !s.attempts[t].stage.Committed?
    requires forall k :: k in w ==> k in s.versions && Passes(s.versions[k], t + 1)
    requires AttemptOk(a, u, s.versions)
    ensures AttemptOk(a, u, WriteAll(s.versions, w, t + 1))
  {
    var versions' := WriteAll(s.versions, w, t + 1);
    assert versions'.Keys == s.versions.Keys;
    forall x | x in Seen(a) && x in s.versions && ReadOk(s.versions[x], u, Lookup(a.fetched, x))
      ensures ReadOk(versions'[x], u, Lookup(a.fetched, x))
    {
      if x in w {
        assert ListAt(s, x);
        CommitKeepsRead(s.versions[x], x, s.init, s.attempts, t, w[x], u, Lookup(a.fetched, x));
      }
    }
    AttemptFrame(a, a, u, s.versions, versions');
  }

  lemma CommitAttempts(s: State, t: TxnId)
    requires ListsOk(s) && AttemptsOk(s) && Enabled(s, CheckAndWrite(t))
    requires AllPass(s.versions, s.attempts[t].req.writeset, t + 1)
    requires forall k :: k in s.attempts[t].outcome.writeBuf ==> k in s.attempts[t].req.writeset
    ensures AttemptsOk(AfterCheck(s, t))
  {
    var s', a := AfterCheck(s, t), s.attempts[t];
    AttemptsFrame(s, s.(attempts := s'.attempts), t);
    forall u: TxnId
      ensures AttemptAt(s', u)
    {
      assert AttemptAt(s.(attempts := s'.attempts), u);
      if u < |s.attempts| {
        CommitKeepsAttempt(s, t, a.outcome.writeBuf, s'.attempts[u], u);
      }
    }
  }

  /***** Outcomes *****/

  lemma OutcomesFrame(s: State, s': State, t: TxnId)
    requires OutcomesOk(s) && t < |s.attempts| <= |s'.attempts|
    requires forall u :: 0 <= u < |s.attempts| && u != t ==> s'.attempts[u] == s.attempts[u]
    requires forall u :: |s.attempts| <= u < |s'.attempts| ==> s'.attempts[u].stage.Reading?
    requires OutcomeOk(s'.attempts[t])
    ensures OutcomesOk(s')
  {
    forall u: TxnId
      ensures OutcomeAt(s', u)
    {
      assert OutcomeAt(s, u);
    }
  }

  /** The outcome does not depend on the stage. */
  lemma OutcomeMoves(a: Attempt, stage: Stage)
    requires OutcomeOk(a) && if a.stage.Checking? then stage.Committed? || stage.Failed? else a.stage.Failed? && stage.Restarted?
    ensures OutcomeOk(a.(stage := stage))
    ensures forall k :: k in a.outcome.writeBuf ==> k in a.req.writeset
  {
    WritesDeclaredFrom(a.req, [], a.fetched, map[]);
  }

  lemma OutcomeRan(a: Attempt)
    requires !Fatal(OutcomeOf(a))
    ensures OutcomeOk(Ran(a, OutcomeOf(a)))
  {
    assert OutcomeOf(Ran(a, OutcomeOf(a))) == OutcomeOf(a);
  }

  /***** Every step keeps it *****/

  lemma ReadKeepsInv(s: State, t: TxnId)
    requires Inv(s) && Enabled(s, ReadKey(t))
    ensures Inv(AfterRead(s, t))
  {
    assert ListAt(s, s.attempts[t].stage.todo[0]);
    ReadLists(s, t);
    ReadAttempts(s, t);
    OutcomesFrame(s, AfterRead(s, t), t);
  }

  lemma RunKeepsInv(s: State, t: TxnId)
    requires Inv(s) && Enabled(s, RunProgram(t))
    ensures Inv(AfterRun(s, t))
  {
    var s' := AfterRun(s, t);
    ListsFrame(s, s');
    if s'.died {
      DeathFrame(s);
    } else {
      assert Seen(s.attempts[t]) == Keys(s.attempts[t].req);
      AttemptsFrame(s, s', t);
      OutcomeRan(s.attempts[t]);
      OutcomesFrame(s, s', t);
    }
  }

  lemma DeathFrame(s: State)
    requires AttemptsOk(s) && OutcomesOk(s)
    ensures AttemptsOk(s.(died := true)) && OutcomesOk(s.(died := true))
  {
    forall t: TxnId
      ensures AttemptAt(s.(died := true), t) && OutcomeAt(s.(died := true), t)
    {
      assert AttemptAt(s, t) && OutcomeAt(s, t);
    }
  }

  lemma CheckKeepsInv(s: State, t: TxnId)
    requires Inv(s) && Enabled(s, CheckAndWrite(t))
    ensures Inv(AfterCheck(s, t))
  {
    var s', a := AfterCheck(s, t), s.attempts[t];
    assert OutcomeAt(s, t);
    OutcomeMoves(a, s'.attempts[t].stage);
    OutcomesFrame(s, s', t);
    if AllPass(s.versions, a.req.writeset, t + 1) {
      CommitLists(s, t);
      CommitAttempts(s, t);
    } else {
      ListsFrame(s, s');
      assert AttemptAt(s, t);
      AttemptsFrame(s, s', t);
    }
  }

  lemma RestartKeepsInv(s: State, t: TxnId)
    requires Inv(s) && Enabled(s, Restart(t))
    ensures Inv(AfterRestart(s, t))
  {
    var s' := AfterRestart(s, t);
    assert OutcomeAt(s, t) && AttemptAt(s, t);
    OutcomeMoves(s.attempts[t], Restarted);
    OutcomesFrame(s, s', t);
    ListsFrame(s, s');
    AttemptsFrame(s, s', t);
  }

  lemma NewKeepsInv(s: State, req: Request)
    requires Inv(s) && Enabled(s, NewRequest(req))
    ensures Inv(Step(s, NewRequest(req)))
  {
    var s' := Step(s, NewRequest(req));
    ListsFrame(s, s');
    NewAttemptOk(req, |s.attempts|, s.versions);
    forall t: TxnId
      ensures AttemptAt(s', t) && OutcomeAt(s', t)
    {
      assert AttemptAt(s, t) && OutcomeAt(s, t);
    }
  }

  lemma StepKeepsInv(s: State, e: Event)
    requires Inv(s) && Enabled(s, e)
    ensures Inv(Step(s, e)) && Step(s, e).init == s.init
  {
    match e
    case NewRequest(req) => NewKeepsInv(s, req);
    case ReadKey(t) => ReadKeepsInv(s, t);
    case RunProgram(t) => RunKeepsInv(s, t);
    case CheckAndWrite(t) => CheckKeepsInv(s, t);
    case Restart(t) => RestartKeepsInv(s, t);
  }

  lemma {:induction false} RunAllKeepsInv(s: State, es: seq<Event>)
    requires Inv(s) && Legal(s, es)
    ensures Inv(Run(s, es)) && Run(s, es).init == s.init
    decreases |es|
  {
    if es != [] {
      StepKeepsInv(s, es[0]);
      RunAllKeepsInv(Step(s, es[0]), es[1..]);
    }
  }

  /***** Serializability *****/

  /** The store after the committed attempts among the first i have run one after the other. */
  function SerialAt(init: Store, attempts: seq<Attempt>, i: nat): Store
    requires i <= |attempts|
  {
    if i == 0 then init
    else
      var before := SerialAt(init, attempts, i - 1);
      if attempts[i - 1].stage.Committed? then StoreAfter(attempts[i - 1].req, before) else before
  }

  /** What a transaction that has read everything read is the serial store below its id. */
  lemma FetchedSerially(a: Attempt, t: TxnId, versions: map<Key, Versions>, serial: Store)
    requires AttemptOk(a, t, versions) && !a.stage.Reading?
    requires forall k :: k in versions ==> Lookup(serial, k) == ValueAt(versions[k], t)
    ensures a.fetched == Fetch(serial, Keys(a.req))
  {
    forall k
      ensures Lookup(a.fetched, k) == Lookup(Fetch(serial, Keys(a.req)), k)
    {
      assert ReadAt(a, t, versions, k);
    }
    assert forall k :: k in a.fetched <==> Lookup(a.fetched, k).Some?;
  }

  lemma RunSerially(a: Attempt, t: TxnId, versions: map<Key, Versions>, serial: Store)
    requires AttemptOk(a, t, versions) && OutcomeOk(a) && !a.stage.Reading?
    requires forall k :: k in versions ==> Lookup(serial, k) == ValueAt(versions[k], t)
    ensures a.fetched == Fetch(serial, Keys(a.req)) && a.outcome == Execute(a.req, serial)
    ensures forall k :: k in a.outcome.writeBuf ==> k in a.req.writeset
    ensures a.stage.Committed? ==> StoreAfter(a.req, serial) == serial + a.outcome.writeBuf
  {
    FetchedSerially(a, t, versions, serial);
    WritesDeclaredFrom(a.req, [], a.fetched, map[]);
  }

  /** One more version is visible one id higher, if the attempt with that id wrote k. */
  lemma NextVisible(vs: Versions, k: Key, init: Store, attempts: seq<Attempt>, i: nat)
    requires ListOk(vs, k, init, attempts) && i < |attempts|
    ensures ValueAt(vs, i + 1) ==
            if Wrote(attempts[i], k) then Some(attempts[i].outcome.writeBuf[k]) else ValueAt(vs, i)
  {
    if Wrote(attempts[i], k) {
      assert Has(vs, i + 1);
      var p :| 0 <= p < |vs| && vs[p].versionId == i + 1;
      assert IsFirst(vs, i + 1, p);
      FirstUnique(vs, i + 1, p);
      assert Genuine(vs[p], k, init, attempts);
    } else {
      var f := FirstAtMost(vs, i);
      forall j | 0 <= j < f
        ensures i + 1 < vs[j].versionId
      {
        assert Genuine(vs[j], k, init, attempts);
      }
      assert IsFirst(vs, i + 1, f);
      FirstUnique(vs, i + 1, f);
    }
  }

  lemma InitialVisible(vs: Versions, k: Key, init: Store, attempts: seq<Attempt>)
    requires ListOk(vs, k, init, attempts)
    ensures ValueAt(vs, 0) == Lookup(init, k)
  {
    var last := |vs| - 1;
    assert IsFirst(vs, 0, last);
    FirstUnique(vs, 0, last);
    assert Genuine(vs[last], k, init, attempts);
  }

  /** The versions up to the id i show the serial store. */
  ghost predicate Shows(versions: map<Key, Versions>, serial: Store, i: nat) {
    serial.Keys == versions.Keys && forall k :: k in versions ==> Lookup(serial, k) == ValueAt(versions[k], i)
  }

  lemma ShowsInitial(s: State)
    requires ListsOk(s)
    ensures Shows(s.versions, s.init, 0)
  {
    forall k | k in s.versions
      ensures Lookup(s.init, k) == ValueAt(s.versions[k], 0)
    {
      assert ListAt(s, k);
      InitialVisible(s.versions[k], k, s.init, s.attempts);
    }
  }

  lemma ShowsNext(s: State, i: nat, serial: Store)
    requires ListsOk(s) && i < |s.attempts| && AttemptOk(s.attempts[i], i, s.versions) && OutcomeOk(s.attempts[i])
    requires Shows(s.versions, serial, i)
    ensures Shows(s.versions, if s.attempts[i].stage.Committed? then StoreAfter(s.attempts[i].req, serial) else serial, i + 1)
  {
    var a := s.attempts[i];
    if a.stage.Committed? {
      RunSerially(a, i, s.versions, serial);
      DeclaredVersions(a, s.versions);
      ShowsStep(s, i, serial, a.outcome.writeBuf);
    } else {
      ShowsStep(s, i, serial, map[]);
      assert serial + map[] == serial;
    }
  }

  lemma DeclaredVersions(a: Attempt, versions: map<Key, Versions>)
    requires Usable(a.req, versions.Keys) && forall k :: k in a.outcome.writeBuf ==> k in a.req.writeset
    ensures forall k :: k in a.outcome.writeBuf ==> k in versions
  {
    assert forall k :: k in a.req.writeset ==> k in Keys(a.req);
  }

  lemma ShowsStep(s: State, i: nat, serial: Store, w: Store)
    requires ListsOk(s) && i < |s.attempts| && Shows(s.versions, serial, i)
    requires w == if s.attempts[i].stage.Committed? then s.attempts[i].outcome.writeBuf else map[]
    requires forall k :: k in w ==> k in s.versions
    ensures Shows(s.versions, serial + w, i + 1)
  {
    forall k | k in s.versions
      ensures Lookup(serial + w, k) == ValueAt(s.versions[k], i + 1)
    {
      assert ListAt(s, k);
      NextVisible(s.versions[k], k, s.init, s.attempts, i);
    }
  }

  /** The versions up to an id show the store of the serial run up to that id. */
  lemma {:induction false} VersionsShowSerial(s: State, i: nat)
    requires Inv(s) && i <= |s.attempts|
    ensures Shows(s.versions, SerialAt(s.init, s.attempts, i), i)
  {
    if i == 0 {
      ShowsInitial(s);
    } else {
      VersionsShowSerial(s, i - 1);
      assert AttemptAt(s, i - 1) && OutcomeAt(s, i - 1);
      ShowsNext(s, i - 1, SerialAt(s.init, s.attempts, i - 1));
    }
  }

  lemma StartInv(init: Store)
    ensures Inv(Start(init))
  {
  }

  /** The attempt has read, written and voted what its request does on that store. */
  ghost predicate RanOn(a: Attempt, serial: Store) {
    a.fetched == Fetch(serial, Keys(a.req)) && a.outcome == Execute(a.req, serial) && !Fatal(a.outcome)
  }

  /** It has committed if its program voted to commit, and aborted if it voted to abort. */
  predicate StageIsVote(a: Attempt) {
    && (a.stage.Committed? <==> a.outcome.status == CompletedC)
    && (a.stage.Aborted? <==> a.outcome.status == CompletedA)
  }

  lemma VoteOk(s: State, t: TxnId)
    requires Inv(s) && t < |s.attempts| && (s.attempts[t].stage.Committed? || s.attempts[t].stage.Aborted?)
    ensures StageIsVote(s.attempts[t])
  {
    assert OutcomeAt(s, t);
    OutcomeStatus(s.attempts[t].req, [], s.attempts[t].fetched, map[]);
  }

  lemma AttemptRanSerially(s: State, t: TxnId)
    requires Inv(s) && t < |s.attempts| && !s.attempts[t].stage.Reading?
    ensures RanOn(s.attempts[t], SerialAt(s.init, s.attempts, t))
  {
    VersionsShowSerial(s, t);
    assert AttemptAt(s, t) && OutcomeAt(s, t);
    RunSerially(s.attempts[t], t, s.versions, SerialAt(s.init, s.attempts, t));
  }

  /**
   * Multiversion serializability. In every run, whatever the interleaving of reads and of
   * check-then-write sections and whatever restarts: each committed transaction, and each
   * that aborted by its own vote, has read, written and voted what a serial run of the
   * committed ones in the order of their ids gives it, and the newest versions are the store
   * that serial run leaves.
   */
  lemma MultiversionSerializable(init: Store, es: seq<Event>)
    requires Legal(Start(init), es)
    ensures var s := Run(Start(init), es);
            && (forall t :: 0 <= t < |s.attempts| && (s.attempts[t].stage.Committed? || s.attempts[t].stage.Aborted?) ==>
                  RanOn(s.attempts[t], SerialAt(init, s.attempts, t)) && StageIsVote(s.attempts[t]))
            && Shows(s.versions, SerialAt(init, s.attempts, |s.attempts|), |s.attempts|)
  {
    StartInv(init);
    RunAllKeepsInv(Start(init), es);
    var s := Run(Start(init), es);
    forall t | 0 <= t < |s.attempts| && (s.attempts[t].stage.Committed? || s.attempts[t].stage.Aborted?)
      ensures RanOn(s.attempts[t], SerialAt(init, s.attempts, t)) && StageIsVote(s.attempts[t])
    {
      AttemptRanSerially(s, t);
      VoteOk(s, t);
    }
    VersionsShowSerial(s, |s.attempts|);
  }
}

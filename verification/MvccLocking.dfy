/**
 * The multiversion scheduler with its mutexes: a worker reads a key only while nobody has the
 * key's mutex, and then takes the mutexes of its write set one after the other, checks the
 * keys one by one, writes them one by one, gives the mutexes back one by one, and only then
 * restarts if a check has failed. Every run of it is a run of MvccScheduler, in which check
 * and write are one step.
 */
module MvccLocking {
  import opened Base
  import opened Transactions
  import opened MvccVersions
  import M = MvccScheduler

  type TxnId = M.TxnId

  /** Where an attempt is between its run and its end: i counts the keys of its write set. */
  datatype Pc = Acquiring(i: nat) | CheckingKey(i: nat) | Writing(i: nat) | Releasing(i: nat)

  datatype State = State(
    init: Store, versions: map<Key, Versions>, attempts: seq<M.Attempt>, pcs: seq<Pc>,
    held: map<Key, TxnId>, died: bool)

  datatype Event =
    | NewRequest(req: Request) | ReadKey(txn: TxnId) | RunProgram(txn: TxnId)
    | SectionStep(txn: TxnId)

  function Start(init: Store): State {
    State(init, M.Start(init).versions, [], [], map[], false)
  }

  /***** Steps *****/

  predicate SectionEnabled(a: M.Attempt, pc: Pc, versions: map<Key, Versions>, held: map<Key, TxnId>) {
    var ws := a.req.writeset;
    match pc
    case Acquiring(i) => a.stage.Checking? && i <= |ws| && (i < |ws| ==> ws[i] in versions && ws[i] !in held)
    case CheckingKey(i) => a.stage.Checking? && i <= |ws| && (i < |ws| ==> ws[i] in versions)
    case Writing(i) => i <= |ws| && (i < |ws| ==> ws[i] in versions)
    case Releasing(i) => i < |ws| || (i == |ws| && a.stage.Failed?)
  }

  predicate Enabled(s: State, e: Event) {
    && !s.died && |s.pcs| == |s.attempts|
    && match e
       case NewRequest(req) => M.Usable(req, s.versions.Keys)
       case ReadKey(t) =>
         && t < |s.attempts| && s.attempts[t].stage.Reading? && s.attempts[t].stage.todo != []
         && s.attempts[t].stage.todo[0] in s.versions && s.attempts[t].stage.todo[0] !in s.held
       case RunProgram(t) => t < |s.attempts| && s.attempts[t].stage == M.Reading([])
       case SectionStep(t) => t < |s.attempts| && SectionEnabled(s.attempts[t], s.pcs[t], s.versions, s.held)
  }

  function WriteKey(versions: map<Key, Versions>, k: Key, w: Store, id: nat): map<Key, Versions>
    requires k in versions
  {
    if k in w then versions[k := AddVersion(versions[k], w[k], id)] else versions
  }

  function AfterSection(s: State, t: TxnId): State
    requires Enabled(s, SectionStep(t))
  {
    var a, ws := s.attempts[t], s.attempts[t].req.writeset;
    match s.pcs[t]
    case Acquiring(i) =>
      if i == |ws| then s.(pcs := s.pcs[t := CheckingKey(0)])
      else s.(held := s.held[ws[i] := t], pcs := s.pcs[t := Acquiring(i + 1)])
    case CheckingKey(i) =>
      if i == |ws| then
        s.(pcs := s.pcs[t := Writing(0)], attempts := s.attempts[t := a.(stage := M.Stage.Committed)])
      else if Passes(s.versions[ws[i]], t + 1) then s.(pcs := s.pcs[t := CheckingKey(i + 1)])
      else s.(pcs := s.pcs[t := Releasing(0)], attempts := s.attempts[t := a.(stage := M.Failed)])
    case Writing(i) =>
      if i == |ws| then s.(pcs := s.pcs[t := Releasing(0)])
      else s.(versions := WriteKey(s.versions, ws[i], a.outcome.writeBuf, t + 1), pcs := s.pcs[t := Writing(i + 1)])
    case Releasing(i) =>
      if i < |ws| then s.(held := s.held - {ws[i]}, pcs := s.pcs[t := Releasing(i + 1)])
      else
        s.(attempts := s.attempts[t := a.(stage := M.Restarted)] + [M.NewAttempt(a.req)],
           pcs := s.pcs + [Acquiring(0)])
  }

  function AfterRead(s: State, t: TxnId): State
    requires Enabled(s, ReadKey(t))
  {
    var k := s.attempts[t].stage.todo[0];
    s.(versions := s.versions[k := MarkRead(s.versions[k], t + 1)],
       attempts := s.attempts[t := M.Fetched(s.attempts[t], ValueAt(s.versions[k], t + 1))])
  }

  function AfterRun(s: State, t: TxnId): State
    requires Enabled(s, RunProgram(t))
  {
    var o := M.OutcomeOf(s.attempts[t]);
    if Fatal(o) then s.(died := true)
    else s.(attempts := s.attempts[t := M.Ran(s.attempts[t], o)])
  }

  function Step(s: State, e: Event): State
    requires Enabled(s, e)
  {
    match e
    case NewRequest(req) => s.(attempts := s.attempts + [M.NewAttempt(req)], pcs := s.pcs + [Acquiring(0)])
    case ReadKey(t) => AfterRead(s, t)
    case RunProgram(t) => AfterRun(s, t)
    case SectionStep(t) => AfterSection(s, t)
  }

  predicate Legal(s: State, es: seq<Event>)
    decreases |es|
  {
    es == [] || (Enabled(s, es[0]) && Legal(Step(s, es[0]), es[1..]))
  }

  function Run(s: State, es: seq<Event>): State
    requires Legal(s, es)
    decreases |es|
  {
    if es == [] then s else Run(Step(s, es[0]), es[1..])
  }

  /***** The invariant *****/

  predicate HeldBy(ws: seq<Key>, pc: Pc, k: Key)
    requires pc.i <= |ws|
  {
    match pc
    case Acquiring(i) => k in ws[..i]
    case Releasing(i) => k in ws[i..]
    case _ => k in ws
  }

  /** The stages an attempt can be in at each point of the section. */
  predicate StageOk(a: M.Attempt, pc: Pc) {
    && pc.i <= |a.req.writeset|
    && match a.stage
       case Reading(_) => pc == Acquiring(0)
       case Aborted => pc == Acquiring(0)
       case Checking => pc.Acquiring? || pc.CheckingKey?
       case Committed => pc.Writing? || pc.Releasing?
       case Failed => pc.Releasing?
       case Restarted => pc == Releasing(|a.req.writeset|)
  }

  /** t has k's mutex exactly when it has taken it and not given it back. */
  ghost predicate OwnerOk(s: State, k: Key, t: TxnId) {
    t < |s.attempts| == |s.pcs| && s.pcs[t].i <= |s.attempts[t].req.writeset| ==>
      (Lookup(s.held, k) == Some(t) <==> HeldBy(s.attempts[t].req.writeset, s.pcs[t], k))
  }

  /** The keys checked so far still pass. */
  ghost predicate PassedOk(a: M.Attempt, pc: Pc, t: TxnId, versions: map<Key, Versions>) {
    pc.CheckingKey? && pc.i <= |a.req.writeset| ==>
      forall k :: k in a.req.writeset[..pc.i] ==> k in versions && Passes(versions[k], t + 1)
  }

  ghost predicate HolderOk(s: State, k: Key) {
    k in s.held ==> s.held[k] < |s.attempts|
  }

  ghost predicate SectionsOk(s: State) {
    && |s.pcs| == |s.attempts|
    && (forall t :: 0 <= t < |s.attempts| ==>
          StageOk(s.attempts[t], s.pcs[t]) && PassedOk(s.attempts[t], s.pcs[t], t, s.versions))
    && (forall k {:trigger HolderOk(s, k)} :: HolderOk(s, k))
    && (forall k, t {:trigger OwnerOk(s, k, t)} :: OwnerOk(s, k, t))
  }

  /***** What the state stands for *****/

  /** The attempt has committed to writing k and has not yet done so. */
  predicate Pending(a: M.Attempt, pc: Pc, k: Key) {
    pc.Writing? && pc.i <= |a.req.writeset| && k in a.req.writeset[pc.i..] && k in a.outcome.writeBuf
  }

  predicate IsPending(s: State, k: Key)
    requires |s.pcs| == |s.attempts|
  {
    k in s.held && s.held[k] < |s.attempts| && Pending(s.attempts[s.held[k]], s.pcs[s.held[k]], k)
  }

  /** k's list with the write that its owner is about to make. */
  function ListOf(s: State, k: Key): Versions
    requires k in s.versions && |s.pcs| == |s.attempts|
  {
    if IsPending(s, k)
    then AddVersion(s.versions[k], s.attempts[s.held[k]].outcome.writeBuf[k], s.held[k] + 1)
    else s.versions[k]
  }

  /** The same moment in a run where check and write are one step, taken at the last check. */
  function Abs(s: State): M.State
    requires |s.pcs| == |s.attempts|
  {
    M.State(s.init, map k | k in s.versions :: ListOf(s, k), s.attempts, s.died)
  }

  ghost predicate Inv(s: State) {
    SectionsOk(s) && M.Inv(Abs(s))
  }

  /** The step of MvccScheduler that an event is, if any. */
  function Meaning(s: State, e: Event): Option<M.Event>
    requires Enabled(s, e)
  {
    match e
    case NewRequest(req) => Some(M.NewRequest(req))
    case ReadKey(t) => Some(M.ReadKey(t))
    case RunProgram(t) => Some(M.RunProgram(t))
    case SectionStep(t) =>
      var ws := s.attempts[t].req.writeset;
      match s.pcs[t]
      case CheckingKey(i) =>
        if i == |ws| || !Passes(s.versions[ws[i]], t + 1) then Some(M.CheckAndWrite(t)) else None
      case Releasing(i) => if i == |ws| then Some(M.Restart(t)) else None
      case _ => None
  }

  /***** Facts about one attempt *****/

  /** From the other invariant: the key sets are usable, and only declared keys are written. */
  lemma Declared(s: State, t: TxnId)
    requires Inv(s) && t < |s.attempts|
    ensures M.Usable(s.attempts[t].req, s.versions.Keys) && NoDup(s.attempts[t].req.writeset)
    ensures forall k :: k in s.attempts[t].req.writeset ==> k in s.versions
    ensures !s.attempts[t].stage.Reading? ==>
              forall k :: k in s.attempts[t].outcome.writeBuf ==> k in s.attempts[t].req.writeset
  {
    var a := s.attempts[t];
    assert M.AttemptAt(Abs(s), t) && M.OutcomeAt(Abs(s), t);
    assert Abs(s).versions.Keys == s.versions.Keys;
    WritesDeclaredFrom(a.req, [], a.fetched, map[]);
    assert forall k :: k in a.req.writeset ==> k in Keys(a.req);
  }

  /** A key whose mutex an attempt in the section has is as it stands for, unless it is being written. */
  lemma HeldList(s: State, t: TxnId, k: Key)
    requires SectionsOk(s) && t < |s.attempts| && k in s.versions
    requires HeldBy(s.attempts[t].req.writeset, s.pcs[t], k) && !s.pcs[t].Writing?
    ensures ListOf(s, k) == s.versions[k] && k in s.held && s.held[k] == t
  {
    assert OwnerOk(s, k, t);
  }

  /***** Every step keeps the sections right *****/

  lemma AcquireOwner(s: State, t: TxnId, k: Key, u: TxnId)
    requires Enabled(s, SectionStep(t)) && s.pcs[t].Acquiring?
    requires OwnerOk(s, k, u) && OwnerOk(s, k, t)
    ensures OwnerOk(AfterSection(s, t), k, u)
  {
    var ws, i := s.attempts[t].req.writeset, s.pcs[t].i;
    if i < |ws| {
      assert ws[..i + 1] == ws[..i] + [ws[i]];
    } else {
      assert ws[..i] == ws;
    }
  }

  lemma ReleaseOwner(s: State, t: TxnId, k: Key, u: TxnId)
    requires Enabled(s, SectionStep(t)) && s.pcs[t].Releasing? && NoDup(s.attempts[t].req.writeset)
    requires OwnerOk(s, k, u) && OwnerOk(s, k, t) && HolderOk(s, k)
    ensures OwnerOk(AfterSection(s, t), k, u)
  {
    var ws, i := s.attempts[t].req.writeset, s.pcs[t].i;
    if i < |ws| {
      assert ws[i..] == [ws[i]] + ws[i + 1..];
      assert ws[i] !in ws[i + 1..];
    }
  }

  lemma SectionOwner(s: State, t: TxnId, k: Key, u: TxnId)
    requires Enabled(s, SectionStep(t)) && NoDup(s.attempts[t].req.writeset)
    requires OwnerOk(s, k, u) && OwnerOk(s, k, t) && HolderOk(s, k)
    ensures OwnerOk(AfterSection(s, t), k, u)
  {
    match s.pcs[t]
    case Acquiring(_) => AcquireOwner(s, t, k, u);
    case Releasing(_) => ReleaseOwner(s, t, k, u);
    case _ =>
      assert s.attempts[t].req.writeset[0..] == s.attempts[t].req.writeset;
  }

  /** Every mutex anybody has is a live attempt's. */
  lemma SectionHolders(s: State, t: TxnId)
    requires SectionsOk(s) && Enabled(s, SectionStep(t))
    ensures |AfterSection(s, t).pcs| == |AfterSection(s, t).attempts| >= |s.attempts|
    ensures forall k {:trigger HolderOk(AfterSection(s, t), k)} :: HolderOk(AfterSection(s, t), k)
  {
    forall k
      ensures HolderOk(AfterSection(s, t), k)
    {
      assert HolderOk(s, k);
    }
  }

  lemma PassedFrame(a: M.Attempt, pc: Pc, u: TxnId, versions: map<Key, Versions>, versions': map<Key, Versions>)
    requires PassedOk(a, pc, u, versions)
    requires pc.CheckingKey? && pc.i <= |a.req.writeset| ==>
               forall k :: k in a.req.writeset && k in versions ==> k in versions' && versions'[k] == versions[k]
    ensures PassedOk(a, pc, u, versions')
  {
    if pc.CheckingKey? && pc.i <= |a.req.writeset| {
      forall k | k in a.req.writeset[..pc.i]
        ensures k in versions' && Passes(versions'[k], u + 1)
      {
        assert k in a.req.writeset;
      }
    }
  }

  /** What t itself has checked, and where it stands, after its step. */
  lemma OwnSection(s: State, t: TxnId)
    requires SectionsOk(s) && Enabled(s, SectionStep(t))
    ensures var s' := AfterSection(s, t);
            StageOk(s'.attempts[t], s'.pcs[t]) && PassedOk(s'.attempts[t], s'.pcs[t], t, s'.versions)
  {
    var ws, i := s.attempts[t].req.writeset, s.pcs[t].i;
    assert StageOk(s.attempts[t], s.pcs[t]) && PassedOk(s.attempts[t], s.pcs[t], t, s.versions);
    if s.pcs[t].CheckingKey? && i < |ws| {
      assert ws[..i + 1] == ws[..i] + [ws[i]];
    }
  }

  /** What the others have checked stays right, since their keys' mutexes are theirs. */
  lemma OtherSection(s: State, t: TxnId, u: TxnId)
    requires SectionsOk(s) && Enabled(s, SectionStep(t)) && u != t && u < |s.attempts|
    ensures var s' := AfterSection(s, t);
            && s'.attempts[u] == s.attempts[u] && s'.pcs[u] == s.pcs[u]
            && PassedOk(s.attempts[u], s.pcs[u], u, s'.versions)
  {
    var s', wt, wu := AfterSection(s, t), s.attempts[t].req.writeset, s.attempts[u].req.writeset;
    if s.pcs[u].CheckingKey? && s.pcs[u].i <= |wu| {
      forall k | k in wu && k in s.versions
        ensures k in s'.versions && s'.versions[k] == s.versions[k]
      {
        assert OwnerOk(s, k, u) && OwnerOk(s, k, t);
      }
    }
    PassedFrame(s.attempts[u], s.pcs[u], u, s.versions, s'.versions);
  }

  lemma SectionKeepsOwners(s: State, t: TxnId)
    requires SectionsOk(s) && Enabled(s, SectionStep(t)) && NoDup(s.attempts[t].req.writeset)
    ensures forall k, u {:trigger OwnerOk(AfterSection(s, t), k, u)} :: OwnerOk(AfterSection(s, t), k, u)
  {
    forall k: Key, u: TxnId
      ensures OwnerOk(AfterSection(s, t), k, u)
    {
      assert OwnerOk(s, k, u) && OwnerOk(s, k, t);
      assert HolderOk(s, k);
      SectionOwner(s, t, k, u);
    }
  }

  lemma SectionKeepsSections(s: State, t: TxnId)
    requires SectionsOk(s) && Enabled(s, SectionStep(t)) && NoDup(s.attempts[t].req.writeset)
    ensures SectionsOk(AfterSection(s, t))
  {
    hide AddVersion;
    hide HeldBy, OwnerOk, Passes;
    SectionHolders(s, t);
    SectionKeepsOwners(s, t);
    OwnSection(s, t);
    var s' := AfterSection(s, t);
    forall u | 0 <= u < |s'.attempts|
      ensures StageOk(s'.attempts[u], s'.pcs[u]) && PassedOk(s'.attempts[u], s'.pcs[u], u, s'.versions)
    {
      if u < |s.attempts| && u != t {
        assert StageOk(s.attempts[u], s.pcs[u]);
        OtherSection(s, t, u);
      }
    }
  }

  lemma ReadKeepsSections(s: State, t: TxnId)
    requires SectionsOk(s) && Enabled(s, ReadKey(t))
    ensures SectionsOk(AfterRead(s, t))
  {
    var s', x := AfterRead(s, t), s.attempts[t].stage.todo[0];
    assert StageOk(s.attempts[t], s.pcs[t]);
    forall u | 0 <= u < |s'.attempts|
      ensures StageOk(s'.attempts[u], s'.pcs[u]) && PassedOk(s'.attempts[u], s'.pcs[u], u, s'.versions)
    {
      assert StageOk(s.attempts[u], s.pcs[u]) && PassedOk(s.attempts[u], s.pcs[u], u, s.versions);
      if u != t {
        assert OwnerOk(s, x, u);
        PassedFrame(s.attempts[u], s.pcs[u], u, s.versions, s'.versions);
      }
    }
    OwnersFrame(s, s');
  }

  /** Mutexes, positions and write sets unchanged, and perhaps new attempts. */
  lemma OwnersFrame(s: State, s': State)
    requires SectionsOk(s) && |s'.pcs| == |s'.attempts| >= |s.attempts| && s'.held == s.held
    requires forall u :: 0 <= u < |s.attempts| ==> s'.pcs[u] == s.pcs[u] && s'.attempts[u].req == s.attempts[u].req
    requires forall u :: |s.attempts| <= u < |s'.attempts| ==> s'.pcs[u] == Acquiring(0)
    ensures forall k, u {:trigger OwnerOk(s', k, u)} :: OwnerOk(s', k, u)
    ensures forall k {:trigger HolderOk(s', k)} :: HolderOk(s', k)
  {
    forall k: Key, u: TxnId
      ensures OwnerOk(s', k, u)
    {
      assert OwnerOk(s, k, u) && HolderOk(s, k);
    }
    forall k
      ensures HolderOk(s', k)
    {
      assert HolderOk(s, k);
    }
  }

  lemma RunKeepsSections(s: State, t: TxnId)
    requires SectionsOk(s) && Enabled(s, RunProgram(t))
    ensures SectionsOk(AfterRun(s, t))
  {
    assert StageOk(s.attempts[t], s.pcs[t]) && PassedOk(s.attempts[t], s.pcs[t], t, s.versions);
    OwnersFrame(s, AfterRun(s, t));
  }

  lemma NewKeepsSections(s: State, req: Request)
    requires SectionsOk(s) && Enabled(s, NewRequest(req))
    ensures SectionsOk(Step(s, NewRequest(req)))
  {
    OwnersFrame(s, Step(s, NewRequest(req)));
  }

  /***** Every step is one of MvccScheduler, or none *****/

  /** The versions the two states stand for are the same. */
  ghost predicate SameLists(s: State, s': State) {
    && |s.pcs| == |s.attempts| && |s'.pcs| == |s'.attempts|
    && s'.versions.Keys == s.versions.Keys
    && forall k :: k in s.versions ==> ListOf(s', k) == ListOf(s, k)
  }

  lemma SameVersions(s: State, s': State)
    requires SameLists(s, s')
    ensures Abs(s').versions == Abs(s).versions
  {
  }

  /** A step that changes no mutex and no list, nor anything about attempts that are writing. */
  lemma QuietStep(s: State, s': State)
    requires |s.pcs| == |s.attempts| <= |s'.attempts| == |s'.pcs|
    requires s'.versions == s.versions && s'.held == s.held && forall k {:trigger HolderOk(s, k)} :: HolderOk(s, k)
    requires forall u :: 0 <= u < |s.attempts| && (s.pcs[u].Writing? || s'.pcs[u].Writing?) ==>
               s'.pcs[u] == s.pcs[u] && s'.attempts[u].req == s.attempts[u].req && s'.attempts[u].outcome == s.attempts[u].outcome
    ensures SameLists(s, s')
  {
    hide AddVersion;
    forall k | k in s.versions
      ensures ListOf(s', k) == ListOf(s, k)
    {
      assert HolderOk(s, k);
    }
  }

  lemma LockRefines(s: State, s': State, t: TxnId, k: Key)
    requires |s.pcs| == |s.attempts| && t < |s.attempts| && s.pcs[t].Acquiring? && k !in s.held
    requires s'.versions == s.versions && s'.attempts == s.attempts
    requires s'.held == s.held[k := t] && s'.pcs == s.pcs[t := Acquiring(s.pcs[t].i + 1)]
    ensures SameLists(s, s')
  {
    hide AddVersion;
    forall x | x in s.versions
      ensures IsPending(s', x) <==> IsPending(s, x)
    {
    }
  }

  lemma UnlockRefines(s: State, s': State, t: TxnId, k: Key)
    requires |s.pcs| == |s.attempts| && t < |s.attempts| && s.pcs[t].Releasing? && Lookup(s.held, k) == Some(t)
    requires s'.versions == s.versions && s'.attempts == s.attempts
    requires s'.held == s.held - {k} && s'.pcs == s.pcs[t := Releasing(s.pcs[t].i + 1)]
    ensures SameLists(s, s')
  {
    hide AddVersion;
    forall x | x in s.versions
      ensures IsPending(s', x) <==> IsPending(s, x)
    {
    }
  }

  /** A key is written: the list is what it stood for, and is not pending any more. */
  lemma WriteRefines(s: State, s': State, t: TxnId)
    requires |s.pcs| == |s.attempts| && t < |s.attempts| && s.pcs[t].Writing?
    requires var ws, i := s.attempts[t].req.writeset, s.pcs[t].i;
             && i < |ws| && NoDup(ws) && ws[i] in s.versions && Lookup(s.held, ws[i]) == Some(t)
             && s'.versions == WriteKey(s.versions, ws[i], s.attempts[t].outcome.writeBuf, t + 1)
             && s'.pcs == s.pcs[t := Writing(i + 1)]
    requires s'.held == s.held && s'.attempts == s.attempts
    ensures SameLists(s, s')
  {
    hide AddVersion;
    var ws, i := s.attempts[t].req.writeset, s.pcs[t].i;
    assert ws[i..] == [ws[i]] + ws[i + 1..];
    assert ws[i] !in ws[i + 1..];
    forall x | x in s.versions
      ensures ListOf(s', x) == ListOf(s, x)
    {
      if x == ws[i] {
        assert !IsPending(s', x);
      } else {
        assert IsPending(s', x) <==> IsPending(s, x);
      }
    }
  }

  /** When all keys are written, none is pending. */
  lemma WrittenRefines(s: State, s': State, t: TxnId)
    requires |s.pcs| == |s.attempts| && t < |s.attempts| && s.pcs[t] == Writing(|s.attempts[t].req.writeset|)
    requires s'.versions == s.versions && s'.attempts == s.attempts
    requires s'.held == s.held && s'.pcs == s.pcs[t := Releasing(0)]
    ensures SameLists(s, s')
  {
    hide AddVersion;
    forall x | x in s.versions
      ensures IsPending(s', x) <==> IsPending(s, x)
    {
    }
  }

  lemma SilentLists(s: State, t: TxnId)
    requires SectionsOk(s) && Enabled(s, SectionStep(t)) && NoDup(s.attempts[t].req.writeset)
    requires Meaning(s, SectionStep(t)).None?
    ensures SameLists(s, AfterSection(s, t))
  {
    hide AddVersion, PassedOk, StageOk, SameLists, FirstAtMost;
    var s', ws, i := AfterSection(s, t), s.attempts[t].req.writeset, s.pcs[t].i;
    if i < |ws| {
      assert OwnerOk(s, ws[i], t) && ws[i] in ws[i..] && ws[i] in ws;
    }
    match s.pcs[t]
    case Acquiring(_) =>
      if i < |ws| {
        LockRefines(s, s', t, ws[i]);
      } else {
        QuietStep(s, s');
      }
    case CheckingKey(_) => QuietStep(s, s');
    case Writing(_) =>
      if i < |ws| {
        WriteRefines(s, s', t);
      } else {
        WrittenRefines(s, s', t);
      }
    case Releasing(_) => UnlockRefines(s, s', t, ws[i]);
  }

  /** A step within the section that decides nothing. */
  lemma SilentRefines(s: State, t: TxnId)
    requires SectionsOk(s) && Enabled(s, SectionStep(t)) && NoDup(s.attempts[t].req.writeset)
    requires Meaning(s, SectionStep(t)).None?
    ensures |AfterSection(s, t).pcs| == |s.attempts| == |AfterSection(s, t).attempts|
    ensures Abs(AfterSection(s, t)) == Abs(s)
  {
    hide AddVersion, SectionsOk, SameLists, FirstAtMost, ListOf;
    SilentLists(s, t);
    SameVersions(s, AfterSection(s, t));
  }

  /** The decision to commit makes t's own keys pending, if it writes them, and no others. */
  lemma CommitList(s: State, s': State, t: TxnId, k: Key)
    requires |s.pcs| == |s.attempts| && t < |s.attempts| && s.pcs[t].CheckingKey? && k in s.versions
    requires var a := s.attempts[t];
             && (forall x :: x in a.outcome.writeBuf ==> x in a.req.writeset)
             && (k in a.req.writeset <==> Lookup(s.held, k) == Some(t))
             && s'.versions == s.versions && s'.held == s.held
             && s'.pcs == s.pcs[t := Writing(0)]
             && s'.attempts == s.attempts[t := a.(stage := M.Stage.Committed)]
    ensures var w := s.attempts[t].outcome.writeBuf;
            ListOf(s', k) == if k in w then AddVersion(ListOf(s, k), w[k], t + 1) else ListOf(s, k)
  {
    hide AddVersion;
    var ws := s.attempts[t].req.writeset;
    assert ws[0..] == ws;
    if Lookup(s.held, k) == Some(t) {
      assert !IsPending(s, k);
      assert IsPending(s', k) <==> k in s.attempts[t].outcome.writeBuf;
    } else {
      assert IsPending(s', k) <==> IsPending(s, k);
    }
  }

  /** With the mutexes held, the last check decides for all keys. */
  lemma AllStillPass(s: State, t: TxnId)
    requires SectionsOk(s) && t < |s.attempts| && s.pcs[t] == CheckingKey(|s.attempts[t].req.writeset|)
    requires forall k :: k in s.attempts[t].req.writeset ==> k in s.versions
    ensures M.AllPass(Abs(s).versions, s.attempts[t].req.writeset, t + 1)
  {
    hide AddVersion, FirstAtMost;
    var ws := s.attempts[t].req.writeset;
    assert ws[..|ws|] == ws;
    assert PassedOk(s.attempts[t], s.pcs[t], t, s.versions);
    forall k | k in ws
      ensures Passes(Abs(s).versions[k], t + 1)
    {
      HeldList(s, t, k);
    }
  }

  lemma CommitRefines(s: State, t: TxnId)
    requires Inv(s) && Enabled(s, SectionStep(t)) && s.pcs[t] == CheckingKey(|s.attempts[t].req.writeset|)
    ensures M.Enabled(Abs(s), M.CheckAndWrite(t))
    ensures |AfterSection(s, t).pcs| == |s.attempts| == |AfterSection(s, t).attempts| &&
            Abs(AfterSection(s, t)) == M.Step(Abs(s), M.CheckAndWrite(t))
  {
    hide HolderOk;
    Declared(s, t);
    AllStillPass(s, t);
    hide M.Inv, AddVersion, PassedOk, StageOk, ListOf, Passes, M.AllPass;
    var a, s', m := s.attempts[t], AfterSection(s, t), Abs(s);
    forall k | k in s.versions
      ensures ListOf(s', k) == M.WriteAll(m.versions, a.outcome.writeBuf, t + 1)[k]
    {
      assert OwnerOk(s, k, t);
      CommitList(s, s', t, k);
    }
    assert Abs(s').versions == M.WriteAll(m.versions, a.outcome.writeBuf, t + 1);
  }

  lemma FailRefines(s: State, t: TxnId)
    requires Inv(s) && Enabled(s, SectionStep(t)) && s.pcs[t].CheckingKey?
    requires s.pcs[t].i < |s.attempts[t].req.writeset|
    requires !Passes(s.versions[s.attempts[t].req.writeset[s.pcs[t].i]], t + 1)
    ensures M.Enabled(Abs(s), M.CheckAndWrite(t))
    ensures |AfterSection(s, t).pcs| == |s.attempts| == |AfterSection(s, t).attempts| &&
            Abs(AfterSection(s, t)) == M.Step(Abs(s), M.CheckAndWrite(t))
  {
    Declared(s, t);
    hide M.Inv, AddVersion, PassedOk, StageOk, Passes;
    var ws, i := s.attempts[t].req.writeset, s.pcs[t].i;
    HeldList(s, t, ws[i]);
    assert Abs(s).versions[ws[i]] == s.versions[ws[i]] && ws[i] in ws;
    QuietStep(s, AfterSection(s, t));
    SameVersions(s, AfterSection(s, t));
  }

  lemma RestartRefines(s: State, t: TxnId)
    requires SectionsOk(s) && Enabled(s, SectionStep(t)) && s.pcs[t] == Releasing(|s.attempts[t].req.writeset|)
    ensures M.Enabled(Abs(s), M.Restart(t))
    ensures |AfterSection(s, t).pcs| == |s.attempts| + 1 == |AfterSection(s, t).attempts| &&
            Abs(AfterSection(s, t)) == M.Step(Abs(s), M.Restart(t))
  {
    hide AddVersion, PassedOk, StageOk, OwnerOk, ListOf;
    QuietStep(s, AfterSection(s, t));
    SameVersions(s, AfterSection(s, t));
  }

  /** A key that nobody has the mutex of stands for its own list. */
  lemma ReadList(s: State, s': State, t: TxnId, x: Key, k: Key)
    requires |s.pcs| == |s.attempts| == |s'.attempts| && t < |s.attempts| && s.pcs[t].Acquiring?
    requires x in s.versions && x !in s.held && k in s.versions
    requires s'.pcs == s.pcs && s'.held == s.held && s'.versions == s.versions[x := MarkRead(s.versions[x], t + 1)]
    requires forall u :: 0 <= u < |s.attempts| && u != t ==> s'.attempts[u] == s.attempts[u]
    ensures ListOf(s', k) == if k == x then MarkRead(ListOf(s, x), t + 1) else ListOf(s, k)
    ensures ListOf(s, x) == s.versions[x]
  {
    hide AddVersion, MarkRead;
    assert IsPending(s', k) <==> IsPending(s, k);
  }

  lemma ReadRefines(s: State, t: TxnId)
    requires SectionsOk(s) && Enabled(s, ReadKey(t))
    ensures M.Enabled(Abs(s), M.ReadKey(t)) && Abs(AfterRead(s, t)) == M.Step(Abs(s), M.ReadKey(t))
  {
    hide AddVersion, PassedOk, OwnerOk, ListOf, MarkRead, ValueAt;
    var s', m, x := AfterRead(s, t), Abs(s), s.attempts[t].stage.todo[0];
    assert StageOk(s.attempts[t], s.pcs[t]);
    forall k | k in s.versions
      ensures ListOf(s', k) == if k == x then MarkRead(ListOf(s, x), t + 1) else ListOf(s, k)
      ensures ListOf(s, x) == s.versions[x]
    {
      ReadList(s, s', t, x, k);
    }
    assert m.versions[x] == s.versions[x];
    assert Abs(s').versions == m.versions[x := MarkRead(m.versions[x], t + 1)];
  }

  lemma RunRefines(s: State, t: TxnId)
    requires SectionsOk(s) && Enabled(s, RunProgram(t))
    ensures M.Enabled(Abs(s), M.RunProgram(t)) && Abs(AfterRun(s, t)) == M.Step(Abs(s), M.RunProgram(t))
  {
    hide AddVersion, PassedOk, OwnerOk, ListOf, M.OutcomeOf;
    assert StageOk(s.attempts[t], s.pcs[t]);
    QuietStep(s, AfterRun(s, t));
    SameVersions(s, AfterRun(s, t));
  }

  lemma NewRefines(s: State, req: Request)
    requires SectionsOk(s) && Enabled(s, NewRequest(req))
    ensures var s' := Step(s, NewRequest(req));
            && M.Enabled(Abs(s), M.NewRequest(req))
            && |s'.pcs| == |s'.attempts| && Abs(s') == M.Step(Abs(s), M.NewRequest(req))
  {
    hide AddVersion, PassedOk, OwnerOk, ListOf;
    assert Abs(s).versions.Keys == s.versions.Keys;
    QuietStep(s, Step(s, NewRequest(req)));
    SameVersions(s, Step(s, NewRequest(req)));
  }

  lemma SectionRefines(s: State, t: TxnId)
    requires Inv(s) && Enabled(s, SectionStep(t))
    ensures SectionsOk(AfterSection(s, t))
    ensures match Meaning(s, SectionStep(t))
            case None => Abs(AfterSection(s, t)) == Abs(s)
            case Some(m) => M.Enabled(Abs(s), m) && Abs(AfterSection(s, t)) == M.Step(Abs(s), m)
  {
    hide M.Inv, Abs, HeldBy, OwnerOk, HolderOk, PassedOk, Passes, AfterSection;
    Declared(s, t);
    SectionKeepsSections(s, t);
    var n := |s.attempts[t].req.writeset|;
    if Meaning(s, SectionStep(t)).None? {
      SilentRefines(s, t);
    } else if s.pcs[t].Releasing? {
      RestartRefines(s, t);
    } else if s.pcs[t].i == n {
      CommitRefines(s, t);
    } else {
      FailRefines(s, t);
    }
  }

  /** Every step is the step of MvccScheduler that it means, or means none and changes nothing there. */
  lemma StepRefines(s: State, e: Event)
    requires Inv(s) && Enabled(s, e)
    ensures Inv(Step(s, e))
    ensures match Meaning(s, e)
            case None => Abs(Step(s, e)) == Abs(s)
            case Some(m) => M.Enabled(Abs(s), m) && Abs(Step(s, e)) == M.Step(Abs(s), m)
  {
    hide M.Inv, Abs, HeldBy, OwnerOk, HolderOk, PassedOk, StageOk, AfterSection, AfterRead, AfterRun;
    match e
    case NewRequest(req) =>
      NewKeepsSections(s, req);
      NewRefines(s, req);
      M.StepKeepsInv(Abs(s), M.NewRequest(req));
    case ReadKey(t) =>
      ReadKeepsSections(s, t);
      ReadRefines(s, t);
      M.StepKeepsInv(Abs(s), M.ReadKey(t));
    case RunProgram(t) =>
      RunKeepsSections(s, t);
      RunRefines(s, t);
      M.StepKeepsInv(Abs(s), M.RunProgram(t));
    case SectionStep(t) =>
      SectionRefines(s, t);
      if Meaning(s, e).Some? {
        M.StepKeepsInv(Abs(s), Meaning(s, e).value);
      }
  }

  /***** Whole runs *****/

  /** What a run means to MvccScheduler. */
  function Meanings(s: State, es: seq<Event>): seq<M.Event>
    requires Legal(s, es)
    decreases |es|
  {
    if es == [] then []
    else
      var rest := Meanings(Step(s, es[0]), es[1..]);
      match Meaning(s, es[0])
      case None => rest
      case Some(m) => [m] + rest
  }

  /** Every run with its mutexes is a run of MvccScheduler, in which check and write are one step. */
  lemma {:induction false} RunsRefine(s: State, es: seq<Event>)
    requires Inv(s) && Legal(s, es)
    ensures Inv(Run(s, es))
    ensures M.Legal(Abs(s), Meanings(s, es)) && Abs(Run(s, es)) == M.Run(Abs(s), Meanings(s, es))
    decreases |es|
  {
    hide Abs, M.Inv, M.Step, M.Enabled, Step, Enabled, SectionsOk, Meaning;
    if es != [] {
      StepRefines(s, es[0]);
      RunsRefine(Step(s, es[0]), es[1..]);
      var rest := Meanings(Step(s, es[0]), es[1..]);
      match Meaning(s, es[0])
      case None =>
      case Some(m) =>
        assert ([m] + rest)[1..] == rest;
    }
  }

  lemma StartStands(init: Store)
    ensures Inv(Start(init)) && Abs(Start(init)) == M.Start(init)
  {
    M.StartInv(init);
    assert Abs(Start(init)).versions == M.Start(init).versions;
  }

  /**
   * Multiversion serializability with mutexes taken, used and given back key by key, and fresh
   * ids drawn after that: each transaction that is committed, or has aborted by its own vote,
   * has read, written and voted what a serial run of the committed ones in the order of their
   * ids gives it; and while no mutex is held the newest versions are the store that run leaves.
   */
  lemma SerializableWithMutexes(init: Store, es: seq<Event>)
    requires Legal(Start(init), es)
    ensures var s := Run(Start(init), es);
            && (forall t :: 0 <= t < |s.attempts| && (s.attempts[t].stage.Committed? || s.attempts[t].stage.Aborted?) ==>
                  M.RanOn(s.attempts[t], M.SerialAt(init, s.attempts, t)) && M.StageIsVote(s.attempts[t]))
            && (s.held == map[] ==>
                  M.Shows(s.versions, M.SerialAt(init, s.attempts, |s.attempts|), |s.attempts|))
  {
    StartStands(init);
    RunsRefine(Start(init), es);
    M.MultiversionSerializable(init, Meanings(Start(init), es));
    var s := Run(Start(init), es);
    M.RunAllKeepsInv(Abs(Start(init)), Meanings(Start(init), es));
    if s.held == map[] {
      UnheldLists(s);
    }
  }

  lemma UnheldLists(s: State)
    requires |s.pcs| == |s.attempts| && s.held == map[]
    ensures Abs(s).versions == s.versions
  {
  }

  /***** No deadlock *****/

  /** The attempt has something left to do. */
  predicate Unfinished(a: M.Attempt, pc: Pc) {
    match a.stage
    case Reading(_) => true
    case Checking => true
    case Committed => pc != Releasing(|a.req.writeset|)
    case Failed => true
    case _ => false
  }

  /** Write sets are gone through in increasing order. */
  ghost predicate InOrder(s: State) {
    forall t :: 0 <= t < |s.attempts| ==>
      var ws := s.attempts[t].req.writeset;
      forall i, j :: 0 <= i < j < |ws| ==> ws[i] < ws[j]
  }

  /** A step of the worker that has an attempt. */
  predicate Works(e: Event) {
    !e.NewRequest?
  }

  /** The step is the restart of a failed attempt. */
  predicate Restarts(s: State, e: Event) {
    && e.SectionStep? && e.txn < |s.attempts| == |s.pcs|
    && s.pcs[e.txn] == Releasing(|s.attempts[e.txn].req.writeset|)
  }

  /** From a key's owner, follow the keys awaited, each greater than the one before. */
  lemma {:induction false} OwnerMoves(s: State, k: Key) returns (e: Event)
    requires SectionsOk(s) && InOrder(s) && !s.died && k in s.held
    requires forall t, x :: 0 <= t < |s.attempts| && x in s.attempts[t].req.writeset ==> x in s.versions
    ensures Enabled(s, e) && Works(e) && !Restarts(s, e)
    decreases TWO64 - k
  {
    var t := s.held[k];
    assert HolderOk(s, k) && OwnerOk(s, k, t);
    assert StageOk(s.attempts[t], s.pcs[t]);
    var ws, i := s.attempts[t].req.writeset, s.pcs[t].i;
    if i < |ws| {
      assert ws[i] in ws;
    }
    if s.pcs[t].Acquiring? && i < |ws| && ws[i] in s.held {
      assert k in ws[..i];
      e := OwnerMoves(s, ws[i]);
    } else {
      e := SectionStep(t);
    }
  }

  /** While an attempt is unfinished some worker can take a step, and other than a restart unless it is its own. */
  lemma SomeoneMoves(s: State, t: TxnId) returns (e: Event)
    requires Inv(s) && InOrder(s) && !s.died && t < |s.attempts| && Unfinished(s.attempts[t], s.pcs[t])
    ensures Enabled(s, e) && Works(e) && (Restarts(s, e) ==> e.txn == t)
  {
    forall u, x | 0 <= u < |s.attempts| && x in s.attempts[u].req.writeset
      ensures x in s.versions
    {
      Declared(s, u);
    }
    assert StageOk(s.attempts[t], s.pcs[t]);
    var a, ws, i := s.attempts[t], s.attempts[t].req.writeset, s.pcs[t].i;
    if a.stage.Reading? {
      if a.stage.todo == [] {
        e := RunProgram(t);
      } else {
        ReadableKey(s, t);
        if a.stage.todo[0] in s.held {
          e := OwnerMoves(s, a.stage.todo[0]);
        } else {
          e := ReadKey(t);
        }
      }
    } else {
      if i < |ws| {
        assert ws[i] in ws;
      }
      if s.pcs[t].Acquiring? && i < |ws| && ws[i] in s.held {
        e := OwnerMoves(s, ws[i]);
      } else {
        e := SectionStep(t);
      }
    }
  }

  lemma ReadableKey(s: State, t: TxnId)
    requires Inv(s) && t < |s.attempts| && s.attempts[t].stage.Reading? && s.attempts[t].stage.todo != []
    ensures s.attempts[t].stage.todo[0] in s.versions
  {
    var a := s.attempts[t];
    assert M.AttemptAt(Abs(s), t) && M.AttemptOk(a, t, Abs(s).versions);
    assert a.stage.todo[0] == Keys(a.req)[|Keys(a.req)| - |a.stage.todo|];
    assert Abs(s).versions.Keys == s.versions.Keys;
  }

  /** No deadlock: in every reachable state with an unfinished attempt some worker can step. */
  lemma NoDeadlock(init: Store, es: seq<Event>, t: TxnId)
    requires Legal(Start(init), es)
    requires var s := Run(Start(init), es);
             |s.pcs| == |s.attempts| && InOrder(s) && !s.died && t < |s.attempts| && Unfinished(s.attempts[t], s.pcs[t])
    ensures exists e :: Enabled(Run(Start(init), es), e) && Works(e)
  {
    StartStands(init);
    RunsRefine(Start(init), es);
    var e := SomeoneMoves(Run(Start(init), es), t);
  }
}

/** Every request made to the multiversion scheduler can be brought to its end. */
module MvccCompletion {
  import opened Base
  import opened Transactions
  import opened MvccVersions
  import M = MvccScheduler
  import C = MvccChecks
  import opened MvccLocking
  import opened MvccProgress

  /** What every state of a run with ordered write sets is. */
  ghost predicate Good(s: State) {
    |s.pcs| == |s.attempts| && Inv(s) && C.Marked(Abs(s)) && InOrder(s)
  }

  /** The attempt has failed and given back its mutexes. */
  predicate AtRestart(a: M.Attempt, pc: Pc) {
    a.stage.Failed? && pc == Releasing(|a.req.writeset|)
  }

  /** It has something left to do before it comes to its end or to its restart. */
  predicate Busy(a: M.Attempt, pc: Pc) {
    Unfinished(a, pc) && !AtRestart(a, pc)
  }

  ghost predicate Quiet(s: State, n: nat)
    requires n <= |s.attempts| == |s.pcs|
  {
    forall t :: 0 <= t < n ==> !Busy(s.attempts[t], s.pcs[t])
  }

  /** With the mutexes too, a key's check fails exactly if some younger attempt has read past the writer. */
  lemma RefusedIff(init: Store, es: seq<Event>, t: TxnId)
    requires Legal(Start(init), es) && Enabled(Run(Start(init), es), SectionStep(t))
    requires var s := Run(Start(init), es);
             s.pcs[t].CheckingKey? && s.pcs[t].i < |s.attempts[t].req.writeset|
    ensures var s := Run(Start(init), es);
            Step(s, SectionStep(t)).attempts[t].stage.Failed? <==>
            exists u :: C.HasReadPast(s.attempts, s.attempts[t].req.writeset[s.pcs[t].i], t, u)
  {
    hide M.Inv, C.Marked, Passes, ListOf, PassedOk, C.HasReadPast, M.Step;
    var s := Run(Start(init), es);
    var k := s.attempts[t].req.writeset[s.pcs[t].i];
    StartStands(init);
    RunsRefine(Start(init), es);
    C.StartMarked(init);
    C.RunKeepsMarks(Abs(Start(init)), Meanings(Start(init), es));
    assert StageOk(s.attempts[t], s.pcs[t]);
    assert k in s.attempts[t].req.writeset;
    HeldList(s, t, k);
    C.PassesIff(Abs(s), t, k);
  }

  /***** Steps that are no restarts *****/

  /** Only one attempt takes the step, and it stays at its request. */
  ghost predicate StepOf(s: State, s': State, t: TxnId) {
    && |s'.attempts| == |s.attempts| == |s.pcs| == |s'.pcs| && t < |s.attempts|
    && s'.attempts[t].req == s.attempts[t].req
    && (forall u :: 0 <= u < |s.attempts| && u != t ==> s'.attempts[u] == s.attempts[u] && s'.pcs[u] == s.pcs[u])
  }

  lemma WorkStepOf(s: State, e: Event)
    requires Enabled(s, e) && Works(e) && !Restarts(s, e) && SectionsOk(s)
    ensures StepOf(s, Step(s, e), e.txn)
  {
    hide WriteKey, MarkRead, M.OutcomeOf, Passes, ValueAt;
    assert StageOk(s.attempts[e.txn], s.pcs[e.txn]);
  }

  lemma RestartShape(s: State, t: TxnId)
    requires Enabled(s, SectionStep(t)) && Restarts(s, SectionStep(t))
    ensures var s' := Step(s, SectionStep(t));
            && s'.attempts == s.attempts[t := s.attempts[t].(stage := M.Restarted)] + [M.NewAttempt(s.attempts[t].req)]
            && s'.pcs == s.pcs + [Acquiring(0)] && !s'.died
  {
  }

  lemma StepKeepsGood(s: State, e: Event)
    requires Good(s) && Enabled(s, e) && Works(e)
    ensures Good(Step(s, e)) && |Step(s, e).attempts| == |Step(s, e).pcs| >= |s.attempts|
  {
    StepRefines(s, e);
    if Meaning(s, e).Some? {
      C.StepKeepsMarks(Abs(s), Meaning(s, e).value);
    }
    if Restarts(s, e) {
      RestartShape(s, e.txn);
    } else {
      WorkStepOf(s, e);
    }
    hide Abs, M.Inv, C.Marked, Enabled, Step, OwnerOk, HolderOk, PassedOk;
    assert InOrder(Step(s, e));
  }

  lemma StepWorksOff(s: State, e: Event)
    requires Good(s) && Enabled(s, e) && Works(e) && !Restarts(s, e) && !Step(s, e).died
    ensures |Step(s, e).attempts| == |Step(s, e).pcs|
    ensures Work(Step(s, e).attempts, Step(s, e).pcs) < Work(s.attempts, s.pcs)
  {
    StepWorks(s, e);
  }

  /***** All attempts go on until they end or have to restart *****/

  lemma {:induction false} GoOn(s: State) returns (es: seq<Event>)
    requires Good(s) && !s.died
    ensures Legal(s, es) && forall e :: e in es ==> Works(e)
    ensures var s' := Run(s, es);
            && Good(s') && |s'.attempts| == |s'.pcs| == |s.attempts|
            && (s'.died || Quiet(s', |s.attempts|))
    decreases Work(s.attempts, s.pcs)
  {
    hide Abs, M.Inv, C.Marked, Enabled, Step, Work, InOrder, SectionsOk;
    if Quiet(s, |s.attempts|) {
      es := [];
    } else {
      var t :| 0 <= t < |s.attempts| && Busy(s.attempts[t], s.pcs[t]);
      var e := BusyMoves(s, t);
      StepKeepsGood(s, e);
      WorkStepOf(s, e);
      var rest := [];
      if !Step(s, e).died {
        StepWorksOff(s, e);
        rest := GoOn(Step(s, e));
      }
      es := [e] + rest;
      assert es[1..] == rest;
    }
  }

  lemma BusyMoves(s: State, t: TxnId) returns (e: Event)
    requires Good(s) && !s.died && t < |s.attempts| && Busy(s.attempts[t], s.pcs[t])
    ensures Enabled(s, e) && Works(e) && !Restarts(s, e)
  {
    BusyNotAtEnd(s.attempts[t], s.pcs[t]);
    e := SomeoneMoves(s, t);
  }

  lemma BusyNotAtEnd(a: M.Attempt, pc: Pc)
    requires Busy(a, pc)
    ensures StageOk(a, pc) ==> pc != Releasing(|a.req.writeset|)
  {
  }

  /***** The youngest attempt alone *****/

  /** The others have ended or wait to restart, and the youngest has not failed. */
  ghost predicate Alone(s: State, n: TxnId) {
    && n + 1 == |s.attempts| == |s.pcs| && Quiet(s, n)
    && !s.attempts[n].stage.Failed? && !s.attempts[n].stage.Restarted?
  }

  /** Nobody can have read past the youngest, so it passes every check. */
  lemma AlonePasses(s: State, n: TxnId)
    requires Good(s) && Alone(s, n) && s.pcs[n].CheckingKey? && s.pcs[n].i < |s.attempts[n].req.writeset|
    ensures s.attempts[n].req.writeset[s.pcs[n].i] in s.versions
    ensures Passes(s.versions[s.attempts[n].req.writeset[s.pcs[n].i]], n + 1)
  {
    hide M.Inv, C.Marked, Passes, ListOf, PassedOk;
    var k := s.attempts[n].req.writeset[s.pcs[n].i];
    Declared(s, n);
    assert k in s.attempts[n].req.writeset;
    HeldList(s, n, k);
    C.PassesIff(Abs(s), n, k);
  }

  lemma OnlyTheYoungest(s: State, n: TxnId, e: Event)
    requires SectionsOk(s) && Alone(s, n) && Enabled(s, e) && Works(e) && !Restarts(s, e)
    ensures e.txn == n
  {
    var t := e.txn;
    assert StageOk(s.attempts[t], s.pcs[t]);
    assert t < n ==> !Busy(s.attempts[t], s.pcs[t]);
  }

  lemma AloneStep(s: State, n: TxnId, e: Event)
    requires Good(s) && Alone(s, n) && Enabled(s, e) && Works(e) && !Restarts(s, e)
    ensures StepOf(s, Step(s, e), n) && Alone(Step(s, e), n)
  {
    OnlyTheYoungest(s, n, e);
    WorkStepOf(s, e);
    assert StageOk(s.attempts[n], s.pcs[n]);
    if e.SectionStep? && s.pcs[n].CheckingKey? && s.pcs[n].i < |s.attempts[n].req.writeset| {
      AlonePasses(s, n);
    }
    hide M.OutcomeOf, Passes, MarkRead, ValueAt, WriteKey, SectionsOk, M.Inv, C.Marked, InOrder;
    assert !Step(s, e).attempts[n].stage.Failed? && !Step(s, e).attempts[n].stage.Restarted?;
  }

  /** It goes on to its end, and the others stay where they are. */
  lemma {:induction false} RunAlone(s: State, n: TxnId) returns (es: seq<Event>)
    requires Good(s) && !s.died && Alone(s, n)
    ensures Legal(s, es) && forall e :: e in es ==> Works(e)
    ensures var s' := Run(s, es);
            && Good(s') && Alone(s', n) && StepOf(s, s', n)
            && (s'.died || !Busy(s'.attempts[n], s'.pcs[n]))
    decreases Work(s.attempts, s.pcs)
  {
    hide Abs, M.Inv, C.Marked, Enabled, Step, Work, InOrder, SectionsOk, Quiet, Busy;
    if !Busy(s.attempts[n], s.pcs[n]) {
      es := [];
    } else {
      var e := BusyMoves(s, n);
      StepKeepsGood(s, e);
      AloneStep(s, n, e);
      var rest := [];
      if !Step(s, e).died {
        StepWorksOff(s, e);
        rest := RunAlone(Step(s, e), n);
      }
      es := [e] + rest;
      assert es[1..] == rest;
    }
  }

  /***** One restart after the other *****/

  ghost function ToRestart(s: State): (ts: set<TxnId>)
    requires |s.pcs| == |s.attempts|
    ensures forall t: TxnId :: t in ts <==> t < |s.attempts| && AtRestart(s.attempts[t], s.pcs[t])
  {
    set t: TxnId | 0 <= t < |s.attempts| && AtRestart(s.attempts[t], s.pcs[t])
  }

  /** The restarted attempt stays as it is, and its request runs again on its own. */
  lemma RestartOne(s: State, t: TxnId) returns (es: seq<Event>)
    requires Good(s) && !s.died && Quiet(s, |s.attempts|) && t in ToRestart(s)
    ensures Legal(s, es) && forall e :: e in es ==> Works(e)
    ensures var s', n := Run(s, es), |s.attempts|;
            && Good(s') && |s'.attempts| == |s'.pcs| == n + 1
            && (s'.died || (Quiet(s', n + 1) && ToRestart(s') == ToRestart(s) - {t}))
  {
    var e, n := SectionStep(t), |s.attempts|;
    RestartStep(s, t);
    hide Good, Enabled, Step, Quiet;
    var rest := RunAlone(Step(s, e), n);
    es := [e] + rest;
    assert es[1..] == rest;
    var s' := Run(s, es);
    if !s'.died {
      QuietAgain(s, t, Step(s, e), s');
    }
  }

  lemma RestartStep(s: State, t: TxnId)
    requires Good(s) && !s.died && Quiet(s, |s.attempts|) && t in ToRestart(s)
    ensures Enabled(s, SectionStep(t)) && Works(SectionStep(t))
    ensures var s1 := Step(s, SectionStep(t));
            && Good(s1) && !s1.died && Alone(s1, |s.attempts|) && Restarted(s, s1, t)
  {
    assert Enabled(s, SectionStep(t)) && Restarts(s, SectionStep(t));
    RestartShape(s, t);
    StepKeepsGood(s, SectionStep(t));
    hide Good, Enabled, Step;
  }

  ghost predicate Restarted(s: State, s1: State, t: TxnId) {
    && t < |s.attempts| == |s.pcs| && |s1.attempts| == |s1.pcs| == |s.attempts| + 1
    && s1.attempts[t].stage.Restarted? && s1.pcs[t] == s.pcs[t]
    && forall u :: 0 <= u < |s.attempts| && u != t ==> s1.attempts[u] == s.attempts[u] && s1.pcs[u] == s.pcs[u]
  }

  lemma QuietAgain(s: State, t: TxnId, s1: State, s': State)
    requires Restarted(s, s1, t) && StepOf(s1, s', |s.attempts|) && Alone(s', |s.attempts|)
    requires t in ToRestart(s) && !Busy(s'.attempts[|s.attempts|], s'.pcs[|s.attempts|])
    ensures Quiet(s', |s.attempts| + 1) && ToRestart(s') == ToRestart(s) - {t}
  {
  }

  lemma {:induction false} RestartAll(s: State) returns (es: seq<Event>)
    requires Good(s) && !s.died && Quiet(s, |s.attempts|)
    ensures Legal(s, es) && forall e :: e in es ==> Works(e)
    ensures var s' := Run(s, es);
            && Good(s') && |s'.attempts| == |s'.pcs| <= |s.attempts| + |ToRestart(s)|
            && (s'.died || (Quiet(s', |s'.attempts|) && ToRestart(s') == {}))
    decreases |ToRestart(s)|
  {
    hide Inv, C.Marked, InOrder, Enabled, Step, Quiet;
    if ToRestart(s) == {} {
      es := [];
    } else {
      var t :| t in ToRestart(s);
      es := RestartOne(s, t);
      var s1 := Run(s, es);
      if !s1.died {
        assert |ToRestart(s) - {t}| == |ToRestart(s)| - 1;
        var rest := RestartAll(s1);
        RunInTurn(s, es, rest);
        es := es + rest;
      }
    }
  }

  lemma {:induction false} RunInTurn(s: State, es: seq<Event>, more: seq<Event>)
    requires Legal(s, es) && Legal(Run(s, es), more)
    ensures Legal(s, es + more) && Run(s, es + more) == Run(Run(s, es), more)
    decreases |es|
  {
    hide Enabled, Step;
    if es == [] {
      assert es + more == more;
    } else {
      RunInTurn(Step(s, es[0]), es[1..], more);
      assert (es + more)[1..] == es[1..] + more;
    }
  }

  /***** Nothing is forgotten *****/

  /** A restarted attempt has a later one at its request. */
  ghost predicate TriedAgain(s: State, t: TxnId) {
    t < |s.attempts| && s.attempts[t].stage.Restarted? ==>
      exists u :: t < u < |s.attempts| && s.attempts[u].req == s.attempts[t].req
  }

  ghost predicate AllTriedAgain(s: State) {
    forall t {:trigger TriedAgain(s, t)} :: TriedAgain(s, t)
  }

  /** No attempt goes away or changes its request, and those that become restarted have a successor. */
  ghost predicate KeepsRequests(s: State, s': State) {
    && |s.attempts| <= |s'.attempts|
    && (forall t :: 0 <= t < |s.attempts| ==> s'.attempts[t].req == s.attempts[t].req)
    && (forall t :: 0 <= t < |s'.attempts| && s'.attempts[t].stage.Restarted? ==>
          t < |s.attempts| && (s.attempts[t].stage.Restarted? ||
            (|s.attempts| < |s'.attempts| && s'.attempts[|s.attempts|].req == s.attempts[t].req)))
  }

  lemma TriedFrame(s: State, s': State)
    requires KeepsRequests(s, s') && AllTriedAgain(s)
    ensures AllTriedAgain(s')
  {
    forall t: TxnId
      ensures TriedAgain(s', t)
    {
      assert TriedAgain(s, t);
      if t < |s.attempts| && s.attempts[t].stage.Restarted? {
        var u :| t < u < |s.attempts| && s.attempts[u].req == s.attempts[t].req;
        assert s'.attempts[u].req == s'.attempts[t].req;
      }
    }
  }

  lemma WorkKeepsRequests(s: State, e: Event)
    requires SectionsOk(s) && Enabled(s, e) && Works(e) && !Restarts(s, e)
    ensures KeepsRequests(s, Step(s, e))
  {
    WorkStepOf(s, e);
    assert StageOk(s.attempts[e.txn], s.pcs[e.txn]);
    hide M.OutcomeOf, Passes, MarkRead, ValueAt, WriteKey, SectionsOk;
    assert !Step(s, e).attempts[e.txn].stage.Restarted?;
  }

  lemma StepKeepsRequests(s: State, e: Event)
    requires SectionsOk(s) && Enabled(s, e)
    ensures KeepsRequests(s, Step(s, e)) && |Step(s, e).pcs| == |Step(s, e).attempts|
  {
    hide SectionsOk, WriteKey, MarkRead, M.OutcomeOf, Passes, ValueAt;
    if Restarts(s, e) {
      RestartShape(s, e.txn);
    } else if Works(e) {
      WorkKeepsRequests(s, e);
    }
  }

  lemma {:induction false} RunKeepsRequests(s: State, es: seq<Event>)
    requires Inv(s) && Legal(s, es) && AllTriedAgain(s)
    ensures var s' := Run(s, es);
            && Inv(s') && |s.attempts| <= |s'.attempts| == |s'.pcs| && AllTriedAgain(s')
            && forall t :: 0 <= t < |s.attempts| ==> s'.attempts[t].req == s.attempts[t].req
    decreases |es|
  {
    hide Abs, M.Inv, Enabled, Step, AllTriedAgain;
    if es != [] {
      StepKeepsRequests(s, es[0]);
      TriedFrame(s, Step(s, es[0]));
      StepRefines(s, es[0]);
      RunKeepsRequests(Step(s, es[0]), es[1..]);
    }
  }

  /** The request is committed, or has been aborted by its own vote, in some attempt. */
  ghost predicate Ended(s: State, req: Request) {
    exists u :: 0 <= u < |s.attempts| && s.attempts[u].req == req && (s.attempts[u].stage.Committed? || s.attempts[u].stage.Aborted?)
  }

  /** When nobody has anything left to do, the last attempt at each request has ended. */
  lemma {:induction false} RequestEnded(s: State, t: TxnId)
    requires SectionsOk(s) && AllTriedAgain(s) && t < |s.attempts|
    requires forall u :: 0 <= u < |s.attempts| ==> !Unfinished(s.attempts[u], s.pcs[u])
    ensures Ended(s, s.attempts[t].req)
    decreases |s.attempts| - t
  {
    assert !Unfinished(s.attempts[t], s.pcs[t]);
    if s.attempts[t].stage.Restarted? {
      assert TriedAgain(s, t);
      var u :| t < u < |s.attempts| && s.attempts[u].req == s.attempts[t].req;
      RequestEnded(s, u);
    }
  }

  lemma EndedHoldsNone(a: M.Attempt, pc: Pc, k: Key)
    requires StageOk(a, pc) && !Unfinished(a, pc)
    ensures pc.i <= |a.req.writeset| && !HeldBy(a.req.writeset, pc, k)
  {
  }

  /** And all mutexes are free. */
  lemma MutexesFree(s: State)
    requires SectionsOk(s) && forall u :: 0 <= u < |s.attempts| ==> !Unfinished(s.attempts[u], s.pcs[u])
    ensures s.held == map[]
  {
    hide HeldBy, Unfinished, StageOk;
    forall k
      ensures k !in s.held
    {
      assert HolderOk(s, k);
      if k in s.held {
        assert OwnerOk(s, k, s.held[k]);
        EndedHoldsNone(s.attempts[s.held[k]], s.pcs[s.held[k]], k);
      }
    }
    assert s.held.Keys == {};
  }

  lemma {:induction false} BelowCount(n: nat, ts: set<TxnId>)
    requires forall t :: t in ts ==> t < n
    ensures |ts| <= n
  {
    if 0 < n {
      BelowCount(n - 1, ts - {n - 1});
    } else {
      assert ts == {};
    }
  }

  lemma ReachedGood(init: Store, es: seq<Event>)
    requires Legal(Start(init), es) && InOrder(Run(Start(init), es))
    ensures Good(Run(Start(init), es)) && AllTriedAgain(Run(Start(init), es))
  {
    StartStands(init);
    RunsRefine(Start(init), es);
    RunKeepsRequests(Start(init), es);
    C.StartMarked(init);
    C.RunKeepsMarks(Abs(Start(init)), Meanings(Start(init), es));
  }

  /**
   * From every state of a run with ordered write sets, whoever holds which mutexes, the workers
   * can go on, restarting no attempt more than once, until every request made so far has been
   * committed or aborted by its own vote and all mutexes are free, or the process has died.
   */
  lemma CanComplete(init: Store, es: seq<Event>) returns (more: seq<Event>)
    requires Legal(Start(init), es) && !Run(Start(init), es).died && InOrder(Run(Start(init), es))
    ensures Legal(Run(Start(init), es), more) && forall e :: e in more ==> !e.NewRequest?
    ensures var s, s' := Run(Start(init), es), Run(Run(Start(init), es), more);
            && |s.attempts| <= |s'.attempts| <= 2 * |s.attempts|
            && (s'.died ||
                (s'.held == map[] && forall t :: 0 <= t < |s.attempts| ==> Ended(s', s.attempts[t].req)))
  {
    hide Good, Enabled, Step, Quiet, AllTriedAgain, InOrder, M.Inv, Abs;
    var s := Run(Start(init), es);
    ReachedGood(init, es);
    more := GoOn(s);
    var s1 := Run(s, more);
    if !s1.died {
      BelowCount(|s.attempts|, ToRestart(s1));
      var rest := RestartAll(s1);
      RunInTurn(s, more, rest);
      more := more + rest;
    }
    var s' := Run(s, more);
    GoodInv(s);
    RunKeepsRequests(s, more);
    if !s'.died {
      AllEnded(s');
      MutexesFree(s');
      forall t | 0 <= t < |s.attempts|
        ensures Ended(s', s.attempts[t].req)
      {
        RequestEnded(s', t);
      }
    }
  }

  lemma GoodInv(s: State)
    requires Good(s)
    ensures Inv(s) && |s.pcs| == |s.attempts|
  {
  }

  lemma AllEnded(s: State)
    requires |s.attempts| == |s.pcs| && Quiet(s, |s.attempts|) && ToRestart(s) == {}
    ensures forall t :: 0 <= t < |s.attempts| ==> !Unfinished(s.attempts[t], s.pcs[t])
  {
    forall t | 0 <= t < |s.attempts|
      ensures !Unfinished(s.attempts[t], s.pcs[t])
    {
      assert t !in ToRestart(s);
    }
  }

  lemma RunKeys(init: Store, es: seq<Event>)
    requires Legal(Start(init), es)
    ensures Run(Start(init), es).versions.Keys == init.Keys
    ensures |Run(Start(init), es).pcs| == |Run(Start(init), es).attempts|
  {
    StartStands(init);
    RunsRefine(Start(init), es);
    M.RunAllKeepsInv(Abs(Start(init)), Meanings(Start(init), es));
    assert Abs(Run(Start(init), es)).versions.Keys == Run(Start(init), es).versions.Keys;
  }

  lemma RequestMade(s: State, req: Request)
    requires |s.pcs| == |s.attempts| && !s.died && InOrder(s) && M.Usable(req, s.versions.Keys)
    requires forall i, j :: 0 <= i < j < |req.writeset| ==> req.writeset[i] < req.writeset[j]
    ensures Legal(s, [NewRequest(req)])
    ensures var s1 := Run(s, [NewRequest(req)]);
            && |s1.pcs| == |s1.attempts| == |s.attempts| + 1 && !s1.died && InOrder(s1)
            && s1.attempts[|s.attempts|].req == req
  {
    var made := [NewRequest(req)];
    assert made[1..] == [];
    assert Run(s, made) == Step(s, NewRequest(req));
  }

  /** So a request made at any time, with its write set in order, can be brought to its end. */
  lemma CanServe(init: Store, es: seq<Event>, req: Request) returns (more: seq<Event>)
    requires Legal(Start(init), es) && !Run(Start(init), es).died && InOrder(Run(Start(init), es))
    requires AreSets(req) && (forall k :: k in Keys(req) ==> k in init)
    requires forall i, j :: 0 <= i < j < |req.writeset| ==> req.writeset[i] < req.writeset[j]
    ensures Legal(Run(Start(init), es), [NewRequest(req)] + more)
    ensures var s' := Run(Run(Start(init), es), [NewRequest(req)] + more);
            s'.died || Ended(s', req)
  {
    hide Run, Legal, InOrder, Ended, Start;
    var s, made := Run(Start(init), es), [NewRequest(req)];
    RunKeys(init, es);
    RequestMade(s, req);
    RunInTurn(Start(init), es, made);
    more := CanComplete(init, es + made);
    RunInTurn(s, made, more);
  }
}

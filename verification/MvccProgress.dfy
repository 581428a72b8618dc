/** How much the workers of the multiversion scheduler have to do. */
module MvccProgress {
  import opened Transactions
  import M = MvccScheduler
  import opened MvccLocking

  /** The steps an attempt has left: its reads, its run, and its section or what is left of it. */
  function Rank(a: M.Attempt, pc: Pc): nat {
    var n := |a.req.writeset|;
    match a.stage
    case Reading(todo) => |todo| + 4 * n + 5
    case Aborted => 0
    case Restarted => 0
    case _ =>
      match pc
      case Acquiring(i) => 3 * n + 4 + (if i <= n then n - i else 0)
      case CheckingKey(i) => 2 * n + 3 + (if i <= n then n - i else 0)
      case Writing(i) => n + 2 + (if i <= n then n - i else 0)
      case Releasing(i) => 1 + (if i <= n then n - i else 0)
  }

  /** All the steps of an attempt at the request. */
  function Cost(r: Request): nat {
    |Keys(r)| + 4 * |r.writeset| + 5
  }

  function Work(attempts: seq<M.Attempt>, pcs: seq<Pc>): nat
    requires |pcs| == |attempts|
  {
    if attempts == [] then 0
    else
      var n := |attempts| - 1;
      Work(attempts[..n], pcs[..n]) + Rank(attempts[n], pcs[n])
  }

  lemma {:induction false} WorkUpdate(attempts: seq<M.Attempt>, pcs: seq<Pc>, t: TxnId, a: M.Attempt, pc: Pc)
    requires |pcs| == |attempts| && t < |attempts|
    ensures Work(attempts[t := a], pcs[t := pc]) + Rank(attempts[t], pcs[t]) == Work(attempts, pcs) + Rank(a, pc)
  {
    var n := |attempts| - 1;
    if t < n {
      WorkUpdate(attempts[..n], pcs[..n], t, a, pc);
      assert attempts[t := a][..n] == attempts[..n][t := a] && pcs[t := pc][..n] == pcs[..n][t := pc];
    } else {
      assert attempts[t := a][..n] == attempts[..n] && pcs[t := pc][..n] == pcs[..n];
    }
  }

  lemma WorkAppend(attempts: seq<M.Attempt>, pcs: seq<Pc>, r: Request)
    requires |pcs| == |attempts|
    ensures Work(attempts + [M.NewAttempt(r)], pcs + [Acquiring(0)]) == Work(attempts, pcs) + Cost(r)
  {
    assert (attempts + [M.NewAttempt(r)])[..|attempts|] == attempts && (pcs + [Acquiring(0)])[..|pcs|] == pcs;
  }

  /** What an event brings in: a new request, or a failed one once more. */
  function Brings(s: State, e: Event): nat {
    if e.NewRequest? then Cost(e.req)
    else if Restarts(s, e) then Cost(s.attempts[e.txn].req)
    else 0
  }

  /** A section step is one step less for its attempt. */
  lemma SectionRank(s: State, t: TxnId)
    requires Enabled(s, SectionStep(t)) && StageOk(s.attempts[t], s.pcs[t])
    ensures var s' := AfterSection(s, t);
            && t < |s'.attempts| && t < |s'.pcs|
            && Rank(s'.attempts[t], s'.pcs[t]) + 1 <= Rank(s.attempts[t], s.pcs[t])
  {
    hide WriteKey;
  }

  /** It changes that attempt, and adds another if it is a restart. */
  lemma SectionShape(s: State, t: TxnId)
    requires Enabled(s, SectionStep(t))
    ensures var s' := AfterSection(s, t);
            && t < |s'.attempts| && t < |s'.pcs|
            && var attempts, pcs := s.attempts[t := s'.attempts[t]], s.pcs[t := s'.pcs[t]];
               if Restarts(s, SectionStep(t))
               then s'.attempts == attempts + [M.NewAttempt(s.attempts[t].req)] && s'.pcs == pcs + [Acquiring(0)]
               else s'.attempts == attempts && s'.pcs == pcs
  {
  }

  lemma SectionWork(s: State, t: TxnId)
    requires SectionsOk(s) && Enabled(s, SectionStep(t))
    ensures var s' := AfterSection(s, t);
            |s'.pcs| == |s'.attempts| &&
            Work(s'.attempts, s'.pcs) + 1 <= Work(s.attempts, s.pcs) + Brings(s, SectionStep(t))
  {
    assert StageOk(s.attempts[t], s.pcs[t]);
    SectionRank(s, t);
    SectionShape(s, t);
    hide Rank, Cost, SectionsOk, AfterSection, Work;
    var s' := AfterSection(s, t);
    WorkUpdate(s.attempts, s.pcs, t, s'.attempts[t], s'.pcs[t]);
    if Restarts(s, SectionStep(t)) {
      WorkAppend(s.attempts[t := s'.attempts[t]], s.pcs[t := s'.pcs[t]], s.attempts[t].req);
    }
  }

  lemma ReadWork(s: State, t: TxnId)
    requires Enabled(s, ReadKey(t))
    ensures var s' := AfterRead(s, t);
            |s'.pcs| == |s'.attempts| && Work(s'.attempts, s'.pcs) + 1 == Work(s.attempts, s.pcs)
  {
    hide Work;
    var s' := AfterRead(s, t);
    WorkUpdate(s.attempts, s.pcs, t, s'.attempts[t], s.pcs[t]);
    assert s.pcs[t := s.pcs[t]] == s.pcs;
  }

  lemma RunWork(s: State, t: TxnId)
    requires SectionsOk(s) && Enabled(s, RunProgram(t)) && !AfterRun(s, t).died
    ensures var s' := AfterRun(s, t);
            |s'.pcs| == |s'.attempts| && Work(s'.attempts, s'.pcs) + 1 <= Work(s.attempts, s.pcs)
  {
    hide Work, OwnerOk, HolderOk, PassedOk, M.OutcomeOf;
    assert StageOk(s.attempts[t], s.pcs[t]);
    var s' := AfterRun(s, t);
    WorkUpdate(s.attempts, s.pcs, t, s'.attempts[t], s.pcs[t]);
    assert s.pcs[t := s.pcs[t]] == s.pcs;
  }

  /** Each step but a new request's uses up some of the work, apart from what a restart brings. */
  lemma StepWorks(s: State, e: Event)
    requires SectionsOk(s) && Enabled(s, e)
    ensures var s' := Step(s, e);
            s'.died || (|s'.pcs| == |s'.attempts| &&
              Work(s'.attempts, s'.pcs) + (if e.NewRequest? then 0 else 1) <= Work(s.attempts, s.pcs) + Brings(s, e))
  {
    hide Work, Rank, Cost, SectionsOk, AfterSection, AfterRead;
    match e
    case NewRequest(req) => WorkAppend(s.attempts, s.pcs, req);
    case ReadKey(t) => ReadWork(s, t);
    case RunProgram(t) =>
      if !AfterRun(s, t).died {
        RunWork(s, t);
      }
    case SectionStep(t) => SectionWork(s, t);
  }

  /** The workers' steps in a run. */
  function WorkerSteps(es: seq<Event>): nat {
    if es == [] then 0 else (if es[0].NewRequest? then 0 else 1) + WorkerSteps(es[1..])
  }

  /** What the requests and the restarts of a run bring in. */
  function Brought(s: State, es: seq<Event>): nat
    requires Legal(s, es)
    decreases |es|
  {
    if es == [] then 0 else Brings(s, es[0]) + Brought(Step(s, es[0]), es[1..])
  }

  lemma DeathIsLast(s: State, es: seq<Event>)
    requires s.died && Legal(s, es)
    ensures es == []
  {
  }

  lemma {:induction false} RunWorks(s: State, es: seq<Event>)
    requires Inv(s) && Legal(s, es)
    ensures WorkerSteps(es) <= Work(s.attempts, s.pcs) + Brought(s, es) + if Run(s, es).died then 1 else 0
    decreases |es|
  {
    hide M.Inv, Abs, SectionsOk, Work, Brings, Enabled, Step;
    if es != [] {
      StepRefines(s, es[0]);
      StepWorks(s, es[0]);
      if Step(s, es[0]).died {
        DeathIsLast(Step(s, es[0]), es[1..]);
      } else {
        RunWorks(Step(s, es[0]), es[1..]);
      }
    }
  }

  /**
   * The workers can only go on for ever by restarting: in every run they take no more steps
   * than each request and each restart brings in, which is one for each declared key, four for
   * each key of the write set and five more; and one if the process dies.
   */
  lemma StepsAreBounded(init: Store, es: seq<Event>)
    requires Legal(Start(init), es)
    ensures WorkerSteps(es) <= Brought(Start(init), es) + if Run(Start(init), es).died then 1 else 0
  {
    StartStands(init);
    RunWorks(Start(init), es);
  }
}

/** Exactly when the multiversion check refuses a write, over every run. */
module MvccChecks {
  import opened Base
  import opened Transactions
  import opened MvccVersions
  import opened MvccScheduler

  /** The mark on a version is its own id, or the id of an attempt that has read the key. */
  ghost predicate MarkOk(v: Version, k: Key, attempts: seq<Attempt>) {
    v.maxReadId == v.versionId || (0 < v.maxReadId <= |attempts| && k in Seen(attempts[v.maxReadId - 1]))
  }

  ghost predicate MarksOk(vs: Versions, k: Key, attempts: seq<Attempt>) {
    forall i :: 0 <= i < |vs| ==> MarkOk(vs[i], k, attempts)
  }

  ghost predicate MarksAt(s: State, k: Key) {
    k in s.versions ==> MarksOk(s.versions[k], k, s.attempts)
  }

  ghost predicate Marked(s: State) {
    forall k {:trigger MarksAt(s, k)} :: MarksAt(s, k)
  }

  /***** Every step keeps it *****/

  /** What has been read stays read. */
  ghost predicate SeenKept(attempts: seq<Attempt>, attempts': seq<Attempt>) {
    |attempts| <= |attempts'| && forall u, k :: 0 <= u < |attempts| && k in Seen(attempts[u]) ==> k in Seen(attempts'[u])
  }

  /** One attempt changes, and has seen no less, and perhaps there are new ones. */
  lemma SeenFrame(attempts: seq<Attempt>, attempts': seq<Attempt>, t: TxnId)
    requires t < |attempts| <= |attempts'|
    requires forall u :: 0 <= u < |attempts| && u != t ==> attempts'[u] == attempts[u]
    requires Seen(attempts[t]) <= Seen(attempts'[t])
    ensures SeenKept(attempts, attempts')
  {
  }

  lemma StepKeepsSeen(s: State, e: Event)
    requires AttemptsOk(s) && Enabled(s, e)
    ensures SeenKept(s.attempts, Step(s, e).attempts)
  {
    if !e.NewRequest? {
      var a := s.attempts[e.txn];
      assert AttemptAt(s, e.txn);
      if e.ReadKey? {
        SeenNext(a, a.stage.todo[0], ValueAt(s.versions[a.stage.todo[0]], e.txn + 1));
      } else if e.RunProgram? {
        assert Seen(a) == Keys(a.req);
      }
      hide AllPass, MarkRead, ValueAt, OutcomeOf, AttemptOk, SeenKept, AttemptsOk;
      SeenFrame(s.attempts, Step(s, e).attempts, e.txn);
    }
  }

  lemma MarksFrame(vs: Versions, k: Key, attempts: seq<Attempt>, attempts': seq<Attempt>)
    requires MarksOk(vs, k, attempts) && SeenKept(attempts, attempts')
    ensures MarksOk(vs, k, attempts')
  {
    hide Seen;
    forall i | 0 <= i < |vs|
      ensures MarkOk(vs[i], k, attempts')
    {
      assert MarkOk(vs[i], k, attempts);
    }
  }

  lemma MarkReadMarks(vs: Versions, k: Key, attempts: seq<Attempt>, t: TxnId)
    requires MarksOk(vs, k, attempts) && t < |attempts| && k in Seen(attempts[t])
    ensures MarksOk(MarkRead(vs, t + 1), k, attempts)
  {
    hide Seen;
    var vs' := MarkRead(vs, t + 1);
    forall i | 0 <= i < |vs'|
      ensures MarkOk(vs'[i], k, attempts)
    {
      assert MarkOk(vs[i], k, attempts);
    }
  }

  lemma AddVersionMarks(vs: Versions, k: Key, attempts: seq<Attempt>, value: Value, id: nat)
    requires MarksOk(vs, k, attempts)
    ensures MarksOk(AddVersion(vs, value, id), k, attempts)
  {
    hide Seen;
    var vs', p := AddVersion(vs, value, id), FirstAtMost(vs, id);
    forall i | 0 <= i < |vs'|
      ensures MarkOk(vs'[i], k, attempts)
    {
      assert i != p ==> vs'[i] == vs[if i < p then i else i - 1];
    }
  }

  lemma ReadMarks(s: State, t: TxnId, k: Key)
    requires AttemptsOk(s) && Marked(s) && Enabled(s, ReadKey(t))
    ensures MarksAt(AfterRead(s, t), k)
  {
    StepKeepsSeen(s, ReadKey(t));
    assert AttemptAt(s, t);
    var a, x := s.attempts[t], s.attempts[t].stage.todo[0];
    SeenNext(a, x, ValueAt(s.versions[x], t + 1));
    var s' := AfterRead(s, t);
    hide Seen, MarkRead, MarksOk, SeenKept, Fetched;
    assert MarksAt(s, k);
    if k in s.versions {
      MarksFrame(s.versions[k], k, s.attempts, s'.attempts);
      if k == x {
        MarkReadMarks(s.versions[k], k, s'.attempts, t);
      }
    }
  }

  lemma StepKeepsMarks(s: State, e: Event)
    requires Inv(s) && Marked(s) && Enabled(s, e)
    ensures Marked(Step(s, e))
  {
    StepKeepsSeen(s, e);
    var s' := Step(s, e);
    hide Seen, MarksOk, SeenKept, AddVersion, AllPass, AfterRead, NewAttempt, AttemptsOk, ListsOk, OutcomesOk;
    forall k
      ensures MarksAt(s', k)
    {
      assert MarksAt(s, k);
      if e.ReadKey? {
        ReadMarks(s, e.txn, k);
      } else if k in s.versions {
        MarksFrame(s.versions[k], k, s.attempts, s'.attempts);
        if e.CheckAndWrite? && k in s.attempts[e.txn].outcome.writeBuf {
          AddVersionMarks(s.versions[k], k, s'.attempts, s.attempts[e.txn].outcome.writeBuf[k], e.txn + 1);
        }
      }
    }
  }

  lemma {:induction false} RunKeepsMarks(s: State, es: seq<Event>)
    requires Inv(s) && Marked(s) && Legal(s, es)
    ensures Inv(Run(s, es)) && Marked(Run(s, es)) && Run(s, es).init == s.init
    decreases |es|
  {
    hide Inv, Marked, Step, Enabled;
    if es != [] {
      StepKeepsInv(s, es[0]);
      StepKeepsMarks(s, es[0]);
      RunKeepsMarks(Step(s, es[0]), es[1..]);
    }
  }

  lemma StartMarked(init: Store)
    ensures Inv(Start(init)) && Marked(Start(init))
  {
    StartInv(init);
  }

  /***** The check *****/

  /** Some attempt with an id between the two has committed a write of k. */
  ghost predicate WrittenBetween(attempts: seq<Attempt>, k: Key, t: TxnId, u: TxnId) {
    exists w :: t < w < u && w < |attempts| && Wrote(attempts[w], k)
  }

  /** u, younger than t, has read a version of k older than t, which t's write would have replaced. */
  ghost predicate HasReadPast(attempts: seq<Attempt>, k: Key, t: TxnId, u: TxnId) {
    t < u < |attempts| && k in Seen(attempts[u]) && !WrittenBetween(attempts, k, t, u)
  }

  /** With no committed write between t and u, both see the same version of k. */
  lemma SameVersionSeen(vs: Versions, k: Key, init: Store, attempts: seq<Attempt>, t: TxnId, u: TxnId)
    requires ListOk(vs, k, init, attempts) && t < u < |attempts|
    ensures WrittenBetween(attempts, k, t, u) || FirstAtMost(vs, u) == FirstAtMost(vs, t + 1)
  {
    hide FirstAtMost;
    var f := FirstAtMost(vs, t + 1);
    if j :| 0 <= j < f && vs[j].versionId <= u {
      assert Genuine(vs[j], k, init, attempts);
      assert Wrote(attempts[vs[j].versionId - 1], k);
    } else {
      assert IsFirst(vs, u, f);
      FirstUnique(vs, u, f);
    }
  }

  /** Nothing is marked across a younger write. */
  lemma MarkBelowWriter(vs: Versions, k: Key, init: Store, attempts: seq<Attempt>, t: TxnId, w: TxnId)
    requires ListOk(vs, k, init, attempts) && t < w < |attempts| && Wrote(attempts[w], k)
    requires FirstAtMost(vs, t + 1) < |vs|
    ensures vs[FirstAtMost(vs, t + 1)].maxReadId <= w + 1
  {
    hide Genuine, FirstAtMost;
    assert Has(vs, w + 1);
    var j :| 0 <= j < |vs| && vs[j].versionId == w + 1;
    assert j < FirstAtMost(vs, t + 1);
  }

  /** A reader whose mark is on the version that t sees has read past t. */
  lemma MarkReadsPast(vs: Versions, k: Key, init: Store, attempts: seq<Attempt>, t: TxnId)
    requires ListOk(vs, k, init, attempts) && MarksOk(vs, k, attempts) && !Passes(vs, t + 1)
    ensures exists u :: HasReadPast(attempts, k, t, u)
  {
    hide ListOk, Seen, FirstAtMost;
    var f := FirstAtMost(vs, t + 1);
    assert MarkOk(vs[f], k, attempts);
    var u := vs[f].maxReadId - 1;
    forall w | t < w < u && w < |attempts| && Wrote(attempts[w], k)
      ensures false
    {
      MarkBelowWriter(vs, k, init, attempts, t, w);
    }
    assert HasReadPast(attempts, k, t, u);
  }

  /**
   * A key passes the check exactly if no younger attempt has read past it: each that has read
   * the key found a write committed by one younger than the writer.
   */
  lemma PassesIff(s: State, t: TxnId, k: Key)
    requires Inv(s) && Marked(s) && t < |s.attempts| && k in s.versions
    ensures Passes(s.versions[k], t + 1) <==> forall u :: !HasReadPast(s.attempts, k, t, u)
  {
    hide Genuine, IntervalsFree, Decreasing;
    assert ListAt(s, k) && MarksAt(s, k);
    var vs := s.versions[k];
    if !Passes(vs, t + 1) {
      MarkReadsPast(vs, k, s.init, s.attempts, t);
    }
    if u: TxnId :| HasReadPast(s.attempts, k, t, u) {
      assert AttemptAt(s, u);
      assert ReadAt(s.attempts[u], u, s.versions, k);
      SameVersionSeen(vs, k, s.init, s.attempts, t, u);
    }
  }

  /**
   * In every run: an attempt that checks its write set commits exactly if no younger attempt
   * has read past it on one of those keys, and fails otherwise.
   */
  lemma CommitsIff(init: Store, es: seq<Event>, t: TxnId)
    requires Legal(Start(init), es) && Enabled(Run(Start(init), es), CheckAndWrite(t))
    ensures var s := Run(Start(init), es);
            var stage := Step(s, CheckAndWrite(t)).attempts[t].stage;
            && (stage.Committed? <==> forall k, u :: k in s.attempts[t].req.writeset ==> !HasReadPast(s.attempts, k, t, u))
            && (stage.Failed? <==> !stage.Committed?)
  {
    StartMarked(init);
    RunKeepsMarks(Start(init), es);
    hide Inv, Marked, HasReadPast, Passes;
    var s := Run(Start(init), es);
    forall k | k in s.attempts[t].req.writeset
      ensures Passes(s.versions[k], t + 1) <==> forall u :: !HasReadPast(s.attempts, k, t, u)
    {
      PassesIff(s, t, k);
    }
  }

  /** So the youngest attempt always commits, whatever has been read and written. */
  lemma YoungestCommits(init: Store, es: seq<Event>, t: TxnId)
    requires Legal(Start(init), es) && Enabled(Run(Start(init), es), CheckAndWrite(t))
    requires t + 1 == |Run(Start(init), es).attempts|
    ensures Step(Run(Start(init), es), CheckAndWrite(t)).attempts[t].stage.Committed?
  {
    hide Step;
    CommitsIff(init, es, t);
  }
}

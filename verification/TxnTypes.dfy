/** The concrete transactions: Noop, Put, Expect and RMW. */
module TxnTypes {
  import opened Base
  import opened Transactions
  import LockingScheduler
  import opened LockingTheorems

  function Noop(): Request {
    Request([], [], Program(0, (h: History) => Commit))
  }

  /** Writes every pair of m, whose keys are ks in order. */
  function Put(ks: seq<Key>, m: Store): Request
    requires forall k :: k in ks ==> k in m
  {
    Request([], ks, Program(|ks|, (h: History) =>
      if |h| < |ks| then Write(ks[|h|], m[ks[|h|]]) else Commit))
  }

  /** Reads every key of m in turn and aborts at the first that is absent or differs. */
  function Expect(ks: seq<Key>, m: Store): Request
    requires forall k :: k in ks ==> k in m
  {
    Request(ks, [], Program(|ks|, (h: History) =>
      if 0 < |h| <= |ks| && h[|h| - 1] != Some(m[ks[|h| - 1]]) then Abort
      else if |h| < |ks| then Read(ks[|h|]) else Commit))
  }

  /** Reads the read set, then adds one to each key of the write set, an absent one being zero. */
  function RMW(readset: seq<Key>, writeset: seq<Key>): Request {
    Request(readset, writeset, Program(|readset| + 2 * |writeset|, (h: History) => RMWStep(readset, writeset, h)))
  }

  function RMWStep(readset: seq<Key>, writeset: seq<Key>, h: History): Action {
    if |h| < |readset| then Read(readset[|h|])
    else
      var j := |h| - |readset|;
      if j >= 2 * |writeset| then Commit
      else if j % 2 == 0 then Read(writeset[j / 2])
      else Write(writeset[j / 2], AddWord(OrZero(h[|h| - 1]), 1))
  }

  function OrZero(v: Option<Value>): Value {
    if v.Some? then v.value else 0
  }

  /***** What they do *****/

  /** Noop commits on every store and leaves it alone. */
  lemma NoopDoesNothing(store: Store)
    ensures var o := Execute(Noop(), store);
            o.status == CompletedC && !o.died && StoreAfter(Noop(), store) == store
  {
    assert store + map[] == store;
  }

  lemma {:induction false} PutFrom(ks: seq<Key>, m: Store, h: History, readBuf: Store, writeBuf: Store)
    requires forall k :: k in ks ==> k in m
    requires |h| <= |ks| && writeBuf == Fetch(m, ks[..|h|])
    ensures var o := RunBuffered(Put(ks, m), h, readBuf, writeBuf);
            o.status == CompletedC && !o.died && o.writeBuf == Fetch(m, ks)
    decreases |ks| - |h|
  {
    if |h| < |ks| {
      var k := ks[|h|];
      assert ks[..|h| + 1] == ks[..|h|] + [k];
      PutFrom(ks, m, h + [None], readBuf[k := m[k]], writeBuf[k := m[k]]);
    } else {
      assert ks[..|h|] == ks;
    }
  }

  /** Put commits on every store, and leaves each of its keys with its value. */
  lemma PutInserts(ks: seq<Key>, m: Store, store: Store)
    requires forall k :: k in ks ==> k in m
    ensures var o := Execute(Put(ks, m), store);
            && o.status == CompletedC && !o.died
            && StoreAfter(Put(ks, m), store) == store + Fetch(m, ks)
    ensures forall k :: Lookup(StoreAfter(Put(ks, m), store), k) == if k in ks then Some(m[k]) else Lookup(store, k)
  {
    PutFrom(ks, m, [], Fetch(store, Keys(Put(ks, m))), map[]);
  }

  lemma {:induction false} ExpectFrom(ks: seq<Key>, m: Store, h: History, readBuf: Store)
    requires forall k :: k in ks ==> k in m
    requires |h| <= |ks| && forall i :: 0 <= i < |h| ==> h[i] == Lookup(readBuf, ks[i])
    requires forall i :: 0 <= i < |h| - 1 ==> h[i] == Some(m[ks[i]])
    ensures var o := RunBuffered(Expect(ks, m), h, readBuf, map[]);
            && !o.died && o.writeBuf == map[]
            && o.status == if (forall k :: k in ks ==> Lookup(readBuf, k) == Some(m[k])) then CompletedC else CompletedA
    decreases |ks| - |h|
  {
    if 0 < |h| && h[|h| - 1] != Some(m[ks[|h| - 1]]) {
      assert ks[|h| - 1] in ks;
    } else if |h| < |ks| {
      ExpectFrom(ks, m, h + [Lookup(readBuf, ks[|h|])], readBuf);
    }
  }

  /** Expect commits exactly when the store holds every pair it expects, and changes nothing. */
  lemma ExpectChecks(ks: seq<Key>, m: Store, store: Store)
    requires forall k :: k in ks ==> k in m
    ensures var o := Execute(Expect(ks, m), store);
            && !o.died && StoreAfter(Expect(ks, m), store) == store
            && (o.status == CompletedC <==> forall k :: k in ks ==> Lookup(store, k) == Some(m[k]))
            && (o.status == CompletedC || o.status == CompletedA)
  {
    var readBuf := Fetch(store, Keys(Expect(ks, m)));
    assert forall k :: k in ks ==> Lookup(readBuf, k) == Lookup(store, k);
    ExpectFrom(ks, m, [], readBuf);
  }

  /** The given keys of the store, each one greater. */
  function Incremented(store: Store, ks: seq<Key>): Store {
    map k | k in ks :: AddWord(OrZero(Lookup(store, k)), 1)
  }

  /** The first loop only reads. */
  lemma {:induction false} RMWReads(r: Request, h: History, readBuf: Store)
    requires r == RMW(r.readset, r.writeset) && |h| <= |r.readset|
    ensures exists h' :: |h'| == |r.readset| && RunBuffered(r, h, readBuf, map[]) == RunBuffered(r, h', readBuf, map[])
    decreases |r.readset| - |h|
  {
    if |h| < |r.readset| {
      RMWReads(r, h + [Lookup(readBuf, r.readset[|h|])], readBuf);
    }
  }

  lemma RMWActions(readset: seq<Key>, writeset: seq<Key>, h: History, n: nat)
    requires n < |writeset|
    ensures |h| == |readset| + 2 * n ==> RMWStep(readset, writeset, h) == Read(writeset[n])
    ensures |h| == |readset| + 2 * n + 1 ==>
              RMWStep(readset, writeset, h) == Write(writeset[n], AddWord(OrZero(h[|h| - 1]), 1))
  {
    assert (2 * n) / 2 == n && (2 * n + 1) / 2 == n;
  }

  /** One round of the second loop reads a key and writes it back one greater. */
  lemma RMWRound(r: Request, h: History, n: nat, readBuf: Store, writeBuf: Store)
    requires r == RMW(r.readset, r.writeset) && n < |r.writeset| && |h| == |r.readset| + 2 * n
    ensures var k := r.writeset[n];
            var v := AddWord(OrZero(Lookup(readBuf, k)), 1);
            RunBuffered(r, h, readBuf, writeBuf) ==
            RunBuffered(r, h + [Lookup(readBuf, k)] + [None], readBuf[k := v], writeBuf[k := v])
  {
    RMWActions(r.readset, r.writeset, h, n);
    RMWActions(r.readset, r.writeset, h + [Lookup(readBuf, r.writeset[n])], n);
  }

  lemma IncrementedNext(base: Store, ks: seq<Key>, n: nat)
    requires n < |ks|
    ensures Incremented(base, ks[..n + 1]) == Incremented(base, ks[..n])[ks[n] := AddWord(OrZero(Lookup(base, ks[n])), 1)]
  {
    assert ks[..n + 1] == ks[..n] + [ks[n]];
  }

  /** The write buffer holds the first n keys incremented, and the others are still as fetched. */
  ghost predicate RMWProgress(r: Request, n: nat, base: Store, readBuf: Store, writeBuf: Store) {
    && n <= |r.writeset|
    && writeBuf == Incremented(base, r.writeset[..n])
    && (forall j :: n <= j < |r.writeset| ==> Lookup(readBuf, r.writeset[j]) == Lookup(base, r.writeset[j]))
  }

  lemma RMWProgressNext(r: Request, n: nat, base: Store, readBuf: Store, writeBuf: Store)
    requires NoDup(r.writeset) && n < |r.writeset| && RMWProgress(r, n, base, readBuf, writeBuf)
    ensures var v := AddWord(OrZero(Lookup(readBuf, r.writeset[n])), 1);
            RMWProgress(r, n + 1, base, readBuf[r.writeset[n] := v], writeBuf[r.writeset[n] := v])
  {
    IncrementedNext(base, r.writeset, n);
  }

  lemma {:induction false} RMWWrites(r: Request, h: History, n: nat, base: Store, readBuf: Store, writeBuf: Store)
    requires r == RMW(r.readset, r.writeset) && NoDup(r.writeset)
    requires |h| == |r.readset| + 2 * n && RMWProgress(r, n, base, readBuf, writeBuf)
    ensures var o := RunBuffered(r, h, readBuf, writeBuf);
            o.status == CompletedC && !o.died && o.writeBuf == Incremented(base, r.writeset)
    decreases |r.writeset| - n
  {
    if n < |r.writeset| {
      var k := r.writeset[n];
      var v := AddWord(OrZero(Lookup(readBuf, k)), 1);
      RMWRound(r, h, n, readBuf, writeBuf);
      RMWProgressNext(r, n, base, readBuf, writeBuf);
      RMWWrites(r, h + [Lookup(readBuf, k)] + [None], n + 1, base, readBuf[k := v], writeBuf[k := v]);
    } else {
      assert r.writeset[..n] == r.writeset;
    }
  }

  lemma IncrementedAt(store: Store, ks: seq<Key>, k: Key)
    ensures var now := Lookup(store + Incremented(store, ks), k);
            && (k !in ks ==> now == Lookup(store, k))
            && (k in ks && k !in store ==> now == Some(1))
            && (k in ks && k in store ==> now == Some((store[k] + 1) % TWO64))
  {
  }

  /** RMW commits on every store, and adds one to each key of its write set. */
  lemma RMWIncrements(r: Request, store: Store)
    requires r == RMW(r.readset, r.writeset) && NoDup(r.writeset)
    ensures var o := Execute(r, store);
            o.status == CompletedC && !o.died && StoreAfter(r, store) == store + Incremented(store, r.writeset)
    ensures forall k ::
              && (k !in r.writeset ==> Lookup(StoreAfter(r, store), k) == Lookup(store, k))
              && (k in r.writeset && k !in store ==> Lookup(StoreAfter(r, store), k) == Some(1))
              && (k in r.writeset && k in store ==> Lookup(StoreAfter(r, store), k) == Some((store[k] + 1) % TWO64))
  {
    var readBuf := Fetch(store, Keys(r));
    RMWReads(r, [], readBuf);
    var h :| |h| == |r.readset| && RunBuffered(r, [], readBuf, map[]) == RunBuffered(r, h, readBuf, map[]);
    forall j | 0 <= j < |r.writeset|
      ensures Lookup(readBuf, r.writeset[j]) == Lookup(store, r.writeset[j])
    {
      assert r.writeset[j] in Keys(r);
    }
    RMWWrites(r, h, 0, store, readBuf, map[]);
    forall k
      ensures && (k !in r.writeset ==> Lookup(StoreAfter(r, store), k) == Lookup(store, k))
              && (k in r.writeset && k !in store ==> Lookup(StoreAfter(r, store), k) == Some(1))
              && (k in r.writeset && k in store ==> Lookup(StoreAfter(r, store), k) == Some((store[k] + 1) % TWO64))
    {
      IncrementedAt(store, r.writeset, k);
    }
  }

  /***** Counting *****/

  /** How many of the first i requests write k. */
  function Writers(log: seq<Request>, i: nat, k: Key): (n: nat)
    requires i <= |log|
    ensures n <= i
  {
    if i == 0 then 0 else Writers(log, i - 1, k) + if k in log[i - 1].writeset then 1 else 0
  }

  /** A key's first value, and one more for every writer, mod 2^64. */
  function Counted(v: Option<Value>, n: nat): Option<Value> {
    if n == 0 then v else Some((OrZero(v) + n) % TWO64)
  }

  ghost predicate IsRMW(r: Request) {
    r == RMW(r.readset, r.writeset) && AreSets(r)
  }

  /** On this store, r adds one to k if it is in its write set, and else leaves it alone. */
  ghost predicate AddsOneAt(r: Request, store: Store, k: Key) {
    Lookup(StoreAfter(r, store), k) ==
      if k in r.writeset then Some(AddWord(OrZero(Lookup(store, k)), 1)) else Lookup(store, k)
  }

  ghost predicate AddsOne(r: Request) {
    forall store, k :: AddsOneAt(r, store, k)
  }

  lemma RMWAddsOneAt(r: Request, store: Store, k: Key)
    requires IsRMW(r)
    ensures AddsOneAt(r, store, k)
  {
    RMWIncrements(r, store);
  }

  lemma RMWAddsOne(r: Request)
    requires IsRMW(r)
    ensures AddsOne(r)
  {
    forall store, k
      ensures AddsOneAt(r, store, k)
    {
      RMWAddsOneAt(r, store, k);
    }
  }

  lemma AddOne(v: Value, n: nat)
    ensures AddWord((v + n) % TWO64, 1) == (v + n + 1) % TWO64
  {
  }

  lemma CountedNext(v: Option<Value>, n: nat)
    ensures Counted(v, n + 1) == Some(AddWord(OrZero(Counted(v, n)), 1))
  {
    AddOne(OrZero(v), n);
  }

  lemma {:induction false} SerialCounts(init: Store, log: seq<Request>, i: nat, k: Key)
    requires i <= |log|
    requires forall t :: 0 <= t < i ==> AddsOne(log[t])
    ensures Lookup(SerialStore(init, log, i), k) == Counted(Lookup(init, k), Writers(log, i, k))
  {
    hide StoreAfter;
    if 0 < i {
      SerialCounts(init, log, i - 1, k);
      assert AddsOneAt(log[i - 1], SerialStore(init, log, i - 1), k) by {
        assert AddsOne(log[i - 1]);
      }
      CountedNext(Lookup(init, k), Writers(log, i - 1, k));
    }
  }

  lemma CountedMeans(v: Option<Value>, n: nat)
    ensures v.None? ==> Counted(v, n) == if n == 0 then None else Some(n % TWO64)
    ensures v.Some? ==> Counted(v, n) == Some((v.value + n) % TWO64)
  {
  }

  /** In the serial run, written out. */
  lemma SerialCountsAt(init: Store, log: seq<Request>, k: Key)
    requires forall t :: 0 <= t < |log| ==> AddsOne(log[t])
    ensures var n, now := Writers(log, |log|, k), Lookup(SerialStore(init, log, |log|), k);
            && (k !in init ==> now == if n == 0 then None else Some(n % TWO64))
            && (k in init ==> now == Some((init[k] + n) % TWO64))
  {
    hide SerialStore, Writers, AddsOne, Counted;
    SerialCounts(init, log, |log|, k);
    CountedMeans(Lookup(init, k), Writers(log, |log|, k));
  }

  /**
   * In every finished run of RMW transactions under the locking scheduler every one has
   * committed, and every key holds its first value plus, mod 2^64, the number of transactions
   * with the key in their write set, or just that number if it was absent; a key nobody writes
   * is as it was.
   */
  lemma RunCounts(exclusiveOnly: bool, init: Store, es: seq<LockingScheduler.Event>, s: LockingScheduler.State)
    requires Reaches(exclusiveOnly, init, es, s) && AllFinished(s)
    requires forall r :: r in Requests(es) ==> r == RMW(r.readset, r.writeset)
    ensures forall t :: 0 <= t < |s.txns| ==> s.txns[t].status == Committed
    ensures forall k ::
              var n := Writers(Requests(es), |Requests(es)|, k);
              && (k !in init ==> Lookup(s.store, k) == if n == 0 then None else Some(n % TWO64))
              && (k in init ==> Lookup(s.store, k) == Some((init[k] + n) % TWO64))
  {
    hide Execute, SerialStore, Writers, Reaches, Fatal;
    var log := Requests(es);
    SerialEquivalence(exclusiveOnly, init, es, s);
    forall t | 0 <= t < |log|
      ensures AddsOne(log[t]) && Execute(log[t], SerialStore(init, log, t)).status == CompletedC
    {
      assert log[t] in log;
      FinishedValid(exclusiveOnly, init, es, s, t);
      ValidIff(log[t]);
      RMWAddsOne(log[t]);
      RMWIncrements(log[t], SerialStore(init, log, t));
    }
    forall k
      ensures var n := Writers(log, |log|, k);
              && (k !in init ==> Lookup(s.store, k) == if n == 0 then None else Some(n % TWO64))
              && (k in init ==> Lookup(s.store, k) == Some((init[k] + n) % TWO64))
    {
      SerialCountsAt(init, log, k);
    }
  }
}

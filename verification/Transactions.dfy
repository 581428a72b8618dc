/**
 * Transactions: their declared keys, their program logic, how `ExecuteTxn` runs it on
 * prefetched reads and buffered writes, and the serial scheduler.
 */
module Transactions {
  import opened Base

  type Key = Word
  type Value = Word
  type Store = map<Key, Value>

  datatype TxnStatus = Incomplete | CompletedC | CompletedA | Committed | Aborted

  /***** Programs *****/

  /** What `Run` does next. Leave is returning without a vote. */
  datatype Action = Read(key: Key) | Write(key: Key, value: Value) | Commit | Abort | Leave

  /** What `Run` has seen so far: the result of each read, and None for each write. */
  type History = seq<Option<Value>>

  /**
   * An arbitrary deterministic `Run`: its next action is a function of what it has seen.
   * A program that always stops has a bound on its number of actions, since it branches
   * only on words.
   */
  datatype AnyProgram = Program(bound: nat, act: History -> Action)

  predicate Stops(a: Action) {
    a.Commit? || a.Abort? || a.Leave?
  }

  ghost predicate Terminates(p: AnyProgram) {
    forall h: History :: p.bound <= |h| ==> Stops(p.act(h))
  }

  type Program = p: AnyProgram | Terminates(p) witness Program(0, (h: History) => Commit)

  /** A request: its key sets in iteration order, and its logic. */
  datatype Request = Request(readset: seq<Key>, writeset: seq<Key>, program: Program)

  /** All the keys `ExecuteTxn` prefetches, in order. */
  function Keys(r: Request): seq<Key> {
    r.readset + r.writeset
  }

  /** The read set and the write set are sets. */
  predicate AreSets(r: Request) {
    NoDup(r.readset) && NoDup(r.writeset)
  }

  /** The two sets have no repetitions and are disjoint, which CheckReadWriteSets demands. */
  predicate Valid(r: Request) {
    NoDup(Keys(r))
  }

  /** Valid requests are those whose sets are disjoint. */
  lemma ValidIff(r: Request)
    ensures Valid(r) <==> AreSets(r) && forall k :: k in r.readset ==> k !in r.writeset
  {
    var n := |r.readset|;
    assert forall i :: 0 <= i < n ==> r.readset[i] == Keys(r)[i] && r.readset[i] in r.readset;
    assert forall i :: 0 <= i < |r.writeset| ==> r.writeset[i] == Keys(r)[n + i] && r.writeset[i] in r.writeset;
  }

  /***** Buffered execution *****/

  /** Died stands for `DIE`: an access to an undeclared key ends the process. */
  datatype Outcome = Outcome(readBuf: Store, writeBuf: Store, status: TxnStatus, died: bool)

  /** `Run` through `Txn::Read` and `Txn::Write`, from history h on. */
  function RunBuffered(r: Request, h: History, readBuf: Store, writeBuf: Store): Outcome
    decreases r.program.bound - |h|
  {
    match r.program.act(h)
    case Commit => Outcome(readBuf, writeBuf, CompletedC, false)
    case Abort => Outcome(readBuf, writeBuf, CompletedA, false)
    case Leave => Outcome(readBuf, writeBuf, Incomplete, false)
    case Read(k) =>
      if k !in Keys(r) then Outcome(readBuf, writeBuf, Incomplete, true)
      else RunBuffered(r, h + [Lookup(readBuf, k)], readBuf, writeBuf)
    case Write(k, v) =>
      if k !in r.writeset then Outcome(readBuf, writeBuf, Incomplete, true)
      else RunBuffered(r, h + [None], readBuf[k := v], writeBuf[k := v])
  }

  /** The part of the store under the given keys. */
  function Fetch(store: Store, keys: seq<Key>): Store {
    map k | k in keys && k in store :: store[k]
  }

  /** `ExecuteTxn` on a store that stands still. */
  function Execute(r: Request, store: Store): Outcome {
    RunBuffered(r, [], Fetch(store, Keys(r)), map[])
  }

  /** The scheduler dies on a completed transaction that did not vote. */
  predicate Fatal(o: Outcome) {
    o.died || o.status == Incomplete
  }

  /** The writes a completed transaction puts in the store. */
  function Effects(o: Outcome): Store {
    if o.status == CompletedC then o.writeBuf else map[]
  }

  function Final(status: TxnStatus): TxnStatus {
    if status == CompletedC then Committed else Aborted
  }

  /***** Direct execution *****/

  datatype Direct = Direct(store: Store, status: TxnStatus, died: bool)

  /** The same logic run straight on the store. */
  function RunDirect(r: Request, h: History, store: Store): Direct
    decreases r.program.bound - |h|
  {
    match r.program.act(h)
    case Commit => Direct(store, CompletedC, false)
    case Abort => Direct(store, CompletedA, false)
    case Leave => Direct(store, Incomplete, false)
    case Read(k) =>
      if k !in Keys(r) then Direct(store, Incomplete, true)
      else RunDirect(r, h + [Lookup(store, k)], store)
    case Write(k, v) =>
      if k !in r.writeset then Direct(store, Incomplete, true)
      else RunDirect(r, h + [None], store[k := v])
  }

  lemma {:induction false} BufferedRefinesDirectFrom(r: Request, h: History, base: Store, readBuf: Store, writeBuf: Store)
    requires readBuf == Fetch(base + writeBuf, Keys(r))
    ensures var b, d := RunBuffered(r, h, readBuf, writeBuf), RunDirect(r, h, base + writeBuf);
            && b.died == d.died && b.status == d.status
            && d.store == base + b.writeBuf
            && b.readBuf == Fetch(d.store, Keys(r))
    decreases r.program.bound - |h|
  {
    match r.program.act(h)
    case Read(k) =>
      if k in Keys(r) {
        BufferedRefinesDirectFrom(r, h + [Lookup(readBuf, k)], base, readBuf, writeBuf);
      }
    case Write(k, v) =>
      if k in r.writeset {
        assert (base + writeBuf)[k := v] == base + writeBuf[k := v];
        BufferedRefinesDirectFrom(r, h + [None], base, readBuf[k := v], writeBuf[k := v]);
      }
    case _ =>
  }

  /**
   * Buffered execution refines direct execution: for every program, prefetching, running on
   * the buffers and applying the writes gives the vote, the death and the store of running
   * directly on the store, own writes being read back; an abort leaves the store alone.
   */
  lemma BufferedRefinesDirect(r: Request, store: Store)
    ensures var b, d := Execute(r, store), RunDirect(r, [], store);
            && b.died == d.died && b.status == d.status
            && (b.status == CompletedC ==> store + Effects(b) == d.store)
            && (b.status != CompletedC ==> store + Effects(b) == store)
            && b.readBuf == Fetch(d.store, Keys(r)) && d.store == store + b.writeBuf
  {
    assert store + map[] == store;
    BufferedRefinesDirectFrom(r, [], store, Fetch(store, Keys(r)), map[]);
  }

  /** Only declared keys are ever written. */
  lemma {:induction false} WritesDeclaredFrom(r: Request, h: History, readBuf: Store, writeBuf: Store)
    requires forall k :: k in writeBuf ==> k in r.writeset
    ensures forall k :: k in RunBuffered(r, h, readBuf, writeBuf).writeBuf ==> k in r.writeset
    decreases r.program.bound - |h|
  {
    match r.program.act(h)
    case Read(k) =>
      if k in Keys(r) {
        WritesDeclaredFrom(r, h + [Lookup(readBuf, k)], readBuf, writeBuf);
      }
    case Write(k, v) =>
      if k in r.writeset {
        WritesDeclaredFrom(r, h + [None], readBuf[k := v], writeBuf[k := v]);
      }
    case _ =>
  }

  /** A program that returns has voted, or left without a vote. */
  lemma {:induction false} OutcomeStatus(r: Request, h: History, readBuf: Store, writeBuf: Store)
    ensures RunBuffered(r, h, readBuf, writeBuf).status in {CompletedC, CompletedA, Incomplete}
    decreases r.program.bound - |h|
  {
    match r.program.act(h)
    case Read(k) =>
      if k in Keys(r) {
        OutcomeStatus(r, h + [Lookup(readBuf, k)], readBuf, writeBuf);
      }
    case Write(k, v) =>
      if k in r.writeset {
        OutcomeStatus(r, h + [None], readBuf[k := v], writeBuf[k := v]);
      }
    case _ =>
  }

  /***** The serial scheduler *****/

  function StoreAfter(r: Request, store: Store): Store {
    store + Effects(Execute(r, store))
  }

  /** The store after the first i requests, run one after the other. */
  function SerialStore(init: Store, log: seq<Request>, i: nat): Store
    requires i <= |log|
  {
    if i == 0 then init else StoreAfter(log[i - 1], SerialStore(init, log, i - 1))
  }

  /** What the serial scheduler computes for request i. */
  function SerialOutcome(init: Store, log: seq<Request>, i: nat): Outcome
    requires i < |log|
  {
    Execute(log[i], SerialStore(init, log, i))
  }

  /** Later requests do not change earlier stores. */
  lemma {:induction false} SerialStorePrefix(init: Store, log: seq<Request>, more: seq<Request>, i: nat)
    requires i <= |log|
    ensures SerialStore(init, log + more, i) == SerialStore(init, log, i)
  {
    if i > 0 {
      SerialStorePrefix(init, log, more, i - 1);
      assert (log + more)[i - 1] == log[i - 1];
    }
  }

  /** A key keeps its value over requests that do not declare to write it. */
  lemma {:induction false} SerialStoreUnchanged(init: Store, log: seq<Request>, i: nat, j: nat, k: Key)
    requires i <= j <= |log|
    requires forall t :: i <= t < j ==> k !in log[t].writeset
    ensures Lookup(SerialStore(init, log, i), k) == Lookup(SerialStore(init, log, j), k)
    decreases j
  {
    hide StoreAfter;
    if i < j {
      SerialStoreUnchanged(init, log, i, j - 1, k);
      StoreAfterUnchanged(log[j - 1], SerialStore(init, log, j - 1), k);
    }
  }

  /** The store after the first i requests, each run straight on it; only a commit keeps its writes. */
  function DirectStore(init: Store, log: seq<Request>, i: nat): Store
    requires i <= |log|
  {
    if i == 0 then init
    else
      var before := DirectStore(init, log, i - 1);
      var d := RunDirect(log[i - 1], [], before);
      if d.status == CompletedC then d.store else before
  }

  /** The serial scheduler's buffers make no difference to its store. */
  lemma {:induction false} SerialIsDirect(init: Store, log: seq<Request>, i: nat)
    requires i <= |log|
    ensures SerialStore(init, log, i) == DirectStore(init, log, i)
  {
    hide RunDirect, Execute, Effects;
    if 0 < i {
      SerialIsDirect(init, log, i - 1);
      BufferedRefinesDirect(log[i - 1], SerialStore(init, log, i - 1));
    }
  }

  lemma StoreAfterUnchanged(r: Request, store: Store, k: Key)
    requires k !in r.writeset
    ensures Lookup(StoreAfter(r, store), k) == Lookup(store, k)
  {
    WritesDeclaredFrom(r, [], Fetch(store, Keys(r)), map[]);
  }
}

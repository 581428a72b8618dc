/**
 * Records and the updates of a request, run alone: RECORD_SIZE bytes, in which a word stands
 * at every multiple of FIELD_SIZE.
 */
module Records {
  import opened Base
  import opened Bytes

  const RECORD_SIZE: nat := 1000
  const FIELD_SIZE: nat := 100
  const FIELDS: nat := RECORD_SIZE / FIELD_SIZE

  type Key = Word
  type Field = f: nat | f < FIELDS
  type Record = r: seq<Byte> | |r| == RECORD_SIZE witness seq(RECORD_SIZE, i => 0)
  type Updates = u: seq<Word> | |u| == FIELDS witness seq(FIELDS, i => 0)

  /** `num_records_` has 32 bits. */
  type Database = d: seq<Record> | |d| < 0x1_0000_0000

  function Load(rec: Record, f: Field): Word {
    DecodeWord(rec[FIELD_SIZE * f..FIELD_SIZE * f + 8])
  }

  function Store(rec: Record, f: Field, v: Word): Record {
    rec[..FIELD_SIZE * f] + EncodeWord(v) + rec[FIELD_SIZE * f + 8..]
  }

  predicate InField(b: nat, f: Field) {
    FIELD_SIZE * f <= b < FIELD_SIZE * f + 8
  }

  predicate InSomeField(b: nat) {
    exists f: Field :: InField(b, f)
  }

  /** The two records agree on every byte outside the fields. */
  ghost predicate SameOutside(a: Record, b: Record) {
    forall i :: 0 <= i < RECORD_SIZE && !InSomeField(i) ==> a[i] == b[i]
  }

  /** A store changes its own field and no other byte. */
  lemma LoadStore(rec: Record, f: Field, v: Word, g: Field)
    ensures Load(Store(rec, f, v), g) == if g == f then v else Load(rec, g)
    ensures SameOutside(rec, Store(rec, f, v))
  {
    var rec' := Store(rec, f, v);
    assert forall i :: 0 <= i < RECORD_SIZE && !InField(i, f) ==> rec'[i] == rec[i];
    if g == f {
      assert rec'[FIELD_SIZE * f..FIELD_SIZE * f + 8] == EncodeWord(v);
      WordRoundTrip(v);
    } else {
      assert rec'[FIELD_SIZE * g..FIELD_SIZE * g + 8] == rec[FIELD_SIZE * g..FIELD_SIZE * g + 8];
    }
  }

  /** A record of 1000 bytes has ten fields, the word of field f at the bytes from 100 f on. */
  lemma FieldBytes(rec: Record, f: Field, v: Word)
    ensures FIELDS == 10 && |rec| == 1000
    ensures Load(rec, f) == DecodeWord(rec[100 * f..100 * f + 8])
    ensures Store(rec, f, v)[100 * f..100 * f + 8] == EncodeWord(v)
    ensures forall b :: 0 <= b < 100 * f || 100 * f + 8 <= b < 1000 ==> Store(rec, f, v)[b] == rec[b]
  {
  }

  /** A record is its fields and the bytes outside them. */
  lemma RecordsEqual(a: Record, b: Record)
    requires SameOutside(a, b)
    requires forall f: Field :: Load(a, f) == Load(b, f)
    ensures a == b
  {
    forall i | 0 <= i < RECORD_SIZE
      ensures a[i] == b[i]
    {
      if f: Field :| InField(i, f) {
        BytesOfWord(a[FIELD_SIZE * f..FIELD_SIZE * f + 8]);
        BytesOfWord(b[FIELD_SIZE * f..FIELD_SIZE * f + 8]);
        assert Load(a, f) == Load(b, f);
        var o := FIELD_SIZE * f;
        assert a[i] == a[o..o + 8][i - o] && b[i] == b[o..o + 8][i - o];
      }
    }
  }

  /***** One request on its own *****/

  datatype Request = Request(writeset: seq<Key>, updates: Updates)

  /** What run_test's generator guarantees: distinct keys of existing records. */
  predicate Valid(r: Request, numRecords: nat) {
    NoDup(r.writeset) && forall k :: k in r.writeset ==> k < numRecords
  }

  /** The record after DoWrite's first n additions. */
  function AddFields(rec: Record, updates: Updates, n: nat): Record
    requires n <= FIELDS
  {
    if n == 0 then rec
    else
      var before := AddFields(rec, updates, n - 1);
      Store(before, n - 1, AddWord(Load(before, n - 1), updates[n - 1]))
  }

  lemma {:induction false} AddFieldsLoad(rec: Record, updates: Updates, n: nat, f: Field)
    requires n <= FIELDS
    ensures Load(AddFields(rec, updates, n), f) == if f < n then AddWord(Load(rec, f), updates[f]) else Load(rec, f)
    ensures SameOutside(rec, AddFields(rec, updates, n))
  {
    if 0 < n {
      var before := AddFields(rec, updates, n - 1);
      AddFieldsLoad(rec, updates, n - 1, f);
      AddFieldsLoad(rec, updates, n - 1, n - 1);
      LoadStore(before, n - 1, AddWord(Load(before, n - 1), updates[n - 1]), f);
    }
  }

  /** The database after the first i records of the list have been updated. */
  function UpdateRecords(db: Database, keys: seq<Key>, updates: Updates, i: nat): (db': Database)
    requires i <= |keys| && forall k :: k in keys ==> k < |db|
    ensures |db'| == |db|
  {
    if i == 0 then db
    else
      var before := UpdateRecords(db, keys, updates, i - 1);
      assert keys[i - 1] in keys;
      before[keys[i - 1] := AddFields(before[keys[i - 1]], updates, FIELDS)]
  }

  lemma {:induction false} UpdateRecordsAt(db: Database, keys: seq<Key>, updates: Updates, i: nat, k: Key)
    requires i <= |keys| && NoDup(keys) && (forall x :: x in keys ==> x < |db|) && k < |db|
    ensures UpdateRecords(db, keys, updates, i)[k] ==
            if k in keys[..i] then AddFields(db[k], updates, FIELDS) else db[k]
  {
    if 0 < i {
      UpdateRecordsAt(db, keys, updates, i - 1, k);
      assert keys[..i] == keys[..i - 1] + [keys[i - 1]];
      assert keys[i - 1] !in keys[..i - 1];
    }
  }

  /***** Sorting the write set *****/

  ghost predicate Increasing(s: seq<Key>) {
    forall i, j :: 0 <= i < j < |s| ==> s[i] < s[j]
  }

  function Insert(s: seq<Key>, k: Key): seq<Key> {
    if s == [] || k <= s[0] then [k] + s else [s[0]] + Insert(s[1..], k)
  }

  /** What std::sort makes of the write set. */
  function Sort(s: seq<Key>): seq<Key> {
    if s == [] then [] else Insert(Sort(s[1..]), s[0])
  }

  lemma {:induction false} InsertElements(s: seq<Key>, k: Key)
    ensures |Insert(s, k)| == |s| + 1
    ensures forall x :: x in Insert(s, k) <==> x == k || x in s
    ensures Increasing(s) && k !in s ==> Increasing(Insert(s, k))
  {
    if s != [] && k > s[0] {
      InsertElements(s[1..], k);
      assert forall x :: x in s <==> x == s[0] || x in s[1..];
      var tail := Insert(s[1..], k);
      assert Increasing(s) ==> Increasing(s[1..]);
      if Increasing(s) && k !in s {
        assert Increasing(tail);
        forall x | x in tail
          ensures s[0] < x
        {
          if x in s[1..] {
            var j :| 0 <= j < |s[1..]| && s[1..][j] == x;
            assert s[j + 1] == x;
          }
        }
        assert forall j :: 0 <= j < |tail| ==> tail[j] in tail;
      }
    }
  }

  /** Of distinct keys, sorting keeps each and makes them increase. */
  lemma {:induction false} SortElements(s: seq<Key>)
    requires NoDup(s)
    ensures |Sort(s)| == |s|
    ensures forall x :: x in Sort(s) <==> x in s
    ensures Increasing(Sort(s))
  {
    if s != [] {
      SortElements(s[1..]);
      InsertElements(Sort(s[1..]), s[0]);
      assert forall x :: x in s <==> x == s[0] || x in s[1..];
    }
  }

  /** Sorting again, as the second Execute of a request does, changes nothing. */
  lemma {:induction false} SortAgain(s: seq<Key>)
    requires Increasing(s)
    ensures Sort(s) == s
  {
    if s != [] {
      SortAgain(s[1..]);
    }
  }

  /***** Requests one after the other *****/

  function Execute(db: Database, r: Request): (db': Database)
    requires Valid(r, |db|)
    ensures |db'| == |db|
  {
    SortElements(r.writeset);
    UpdateRecords(db, Sort(r.writeset), r.updates, |Sort(r.writeset)|)
  }

  function Sequential(db: Database, reqs: seq<Request>): (db': Database)
    requires forall r :: r in reqs ==> Valid(r, |db|)
    ensures |db'| == |db|
  {
    if reqs == [] then db
    else Execute(Sequential(db, reqs[..|reqs| - 1]), reqs[|reqs| - 1])
  }

  /** What the requests add up to at one field of one record. */
  function Sum(reqs: seq<Request>, k: Key, f: Field): nat {
    if reqs == [] then 0
    else
      var last := reqs[|reqs| - 1];
      Sum(reqs[..|reqs| - 1], k, f) + if k in last.writeset then last.updates[f] else 0
  }

  lemma ExecuteAt(db: Database, r: Request, k: Key, f: Field)
    requires Valid(r, |db|) && k < |db|
    ensures Load(Execute(db, r)[k], f) ==
            if k in r.writeset then AddWord(Load(db[k], f), r.updates[f]) else Load(db[k], f)
    ensures SameOutside(db[k], Execute(db, r)[k])
  {
    SortElements(r.writeset);
    var keys := Sort(r.writeset);
    IncreasingNoDup(keys);
    UpdateRecordsAt(db, keys, r.updates, |keys|, k);
    assert keys[..|keys|] == keys;
    AddFieldsLoad(db[k], r.updates, FIELDS, f);
  }

  lemma IncreasingNoDup(s: seq<Key>)
    requires Increasing(s)
    ensures NoDup(s)
  {
  }

  lemma AddToSum(v: nat, a: nat, b: Word)
    ensures AddWord((v + a) % TWO64, b) == (v + (a + b)) % TWO64
  {
  }

  /** One after the other, the requests add their updates to their records' fields. */
  lemma {:induction false} SequentialAdds(db: Database, reqs: seq<Request>, k: Key, f: Field)
    requires (forall r :: r in reqs ==> Valid(r, |db|)) && k < |db|
    ensures Load(Sequential(db, reqs)[k], f) == (Load(db[k], f) + Sum(reqs, k, f)) % TWO64
    ensures SameOutside(db[k], Sequential(db, reqs)[k])
  {
    if reqs != [] {
      var before, last := reqs[..|reqs| - 1], reqs[|reqs| - 1];
      SequentialAdds(db, before, k, f);
      assert last in reqs;
      ExecuteAt(Sequential(db, before), last, k, f);
      AddToSum(Load(db[k], f), Sum(before, k, f), last.updates[f]);
    }
  }
}

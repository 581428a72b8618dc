/**
 * The objects a request works on: the record array, the record mutexes and the request with
 * its two arrays. Each method is what one request does when nobody else is at work, proved
 * against the functions of Records.
 */
module RequestObjects {
  import opened Base
  import R = Records

  class Database {
    const records: array<R.Record>
    const locks: array<bool>

    constructor (n: nat)
      requires n < 0x1_0000_0000
      ensures Valid() && fresh(records) && fresh(locks) && records.Length == n
      ensures forall k :: 0 <= k < n ==> !locks[k]
    {
      records := new R.Record[n];
      locks := new bool[n](_ => false);
    }

    predicate Valid() {
      records.Length == locks.Length < 0x1_0000_0000
    }

    ghost function Contents(): R.Database
      requires Valid()
      reads records
    {
      records[..]
    }

    /** Locks the record's mutex, or finds that it has to wait for it. */
    method LockRecord(key: R.Key) returns (waits: bool)
      requires Valid() && key < locks.Length
      modifies locks
      ensures waits <==> old(locks[key])
      ensures locks[..] == old(locks[..])[key := true]
    {
      waits := locks[key];
      if !waits {
        locks[key] := true;
      }
      assert locks[..] == old(locks[..])[key := true];
    }

    method UnlockRecord(key: R.Key)
      requires Valid() && key < locks.Length
      modifies locks
      ensures locks[..] == old(locks[..])[key := false]
    {
      locks[key] := false;
    }
  }

  class Request {
    var db: Database
    const writeset: array<Word>
    const updates: array<Word>

    constructor (db: Database, writeset: array<Word>, updates: array<Word>)
      ensures this.db == db && this.writeset == writeset && this.updates == updates
    {
      this.db, this.writeset, this.updates := db, writeset, updates;
    }

    method SetDatabase(db: Database)
      modifies this
      ensures this.db == db
    {
      this.db := db;
    }

    /** The arrays are two, there is an update for each field, and the keys are distinct record numbers. */
    predicate Valid()
      reads this, writeset, updates
      ensures Valid() ==> forall i :: 0 <= i < writeset.Length ==> writeset[i] < db.locks.Length
    {
      assert forall i :: 0 <= i < writeset.Length ==> writeset[i] in writeset[..];
      && db.Valid() && writeset != updates && updates.Length == R.FIELDS
      && R.Valid(Value(), db.records.Length)
    }

    function Value(): R.Request
      requires updates.Length == R.FIELDS
      reads this, writeset, updates
    {
      R.Request(writeset[..], updates[..])
    }

    /** `DoWrite` on the record of one key. */
    static method DoWrite(db: Database, key: R.Key, updates: array<Word>)
      requires key < db.records.Length && updates.Length == R.FIELDS
      modifies db.records
      ensures db.records[..] == old(db.records[..])[key := R.AddFields(old(db.records[key]), updates[..], R.FIELDS)]
    {
      for i := 0 to R.FIELDS
        invariant db.records[..] == old(db.records[..])[key := R.AddFields(old(db.records[key]), updates[..], i)]
      {
        var rec := db.records[key];
        db.records[key] := R.Store(rec, i, AddWord(R.Load(rec, i), updates[i]));
      }
    }

    /**
     * Sorts the write set, and locks its records in that order: the first n of them, up to
     * the first whose mutex somebody has, for which it waits.
     */
    method LockRecords() returns (n: nat)
      requires Valid()
      modifies writeset, db.locks
      ensures writeset[..] == R.Sort(old(writeset[..])) && Valid()
      ensures R.Increasing(writeset[..]) && forall k :: k in writeset[..] <==> k in old(writeset[..])
      ensures n <= writeset.Length
      ensures forall i :: 0 <= i < n ==> !old(db.locks[..])[writeset[i]]
      ensures n < writeset.Length ==> old(db.locks[..])[writeset[n]]
      ensures forall k :: 0 <= k < db.locks.Length ==> db.locks[k] == (old(db.locks[k]) || k in writeset[..n])
    {
      hide R.Sort;
      R.SortElements(writeset[..]);
      ghost var before := writeset[..];
      var sorted := R.Sort(writeset[..]);
      forall i | 0 <= i < writeset.Length {
        writeset[i] := sorted[i];
      }
      assert writeset[..] == sorted;
      R.IncreasingNoDup(sorted);
      forall i | 0 <= i < |sorted|
        ensures sorted[i] < db.locks.Length
      {
        assert sorted[i] in sorted;
      }
      n := 0;
      while n < writeset.Length
        invariant n <= writeset.Length && writeset[..] == sorted
        invariant forall i :: 0 <= i < n ==> !old(db.locks[..])[sorted[i]]
        invariant forall k :: 0 <= k < db.locks.Length ==> db.locks[k] == (old(db.locks[k]) || k in sorted[..n])
      {
        assert sorted[..n + 1] == sorted[..n] + [sorted[n]];
        assert sorted[n] !in sorted[..n];
        var waits := db.LockRecord(writeset[n]);
        if waits {
          return;
        }
        n := n + 1;
      }
    }

    /** Adds the updates to each record of the write set in turn. */
    method Txn()
      requires Valid()
      modifies db.records
      ensures Valid()
      ensures db.Contents() == R.UpdateRecords(old(db.Contents()), writeset[..], updates[..], writeset.Length)
    {
      for i := 0 to writeset.Length
        invariant db.Contents() == R.UpdateRecords(old(db.Contents()), writeset[..], updates[..], i)
      {
        assert writeset[..][i] in writeset[..];
        DoWrite(db, writeset[i], updates);
      }
    }

    method UnlockRecords()
      requires Valid()
      modifies db.locks
      ensures forall k :: 0 <= k < db.locks.Length ==> db.locks[k] == (old(db.locks[k]) && k !in writeset[..])
    {
      for i := 0 to writeset.Length
        invariant forall k :: 0 <= k < db.locks.Length ==> db.locks[k] == (old(db.locks[k]) && k !in writeset[..i])
      {
        assert writeset[..][i] in writeset[..];
        assert writeset[..i + 1] == writeset[..i] + [writeset[i]];
        db.UnlockRecord(writeset[i]);
      }
      assert writeset[..writeset.Length] == writeset[..];
    }

    /**
     * `Execute`, with nobody else at work: it waits exactly if a mutex of its write set is
     * taken, having touched no record; and otherwise updates the records and gives back all
     * the mutexes it took.
     */
    method Execute() returns (waits: bool)
      requires Valid()
      modifies writeset, db.locks, db.records
      ensures Valid() && Value() == R.Request(R.Sort(old(writeset[..])), old(updates[..]))
      ensures waits <==> exists k :: k in old(writeset[..]) && k < db.locks.Length && old(db.locks[..])[k]
      ensures !waits ==> db.Contents() == R.Execute(old(db.Contents()), old(Value()))
      ensures !waits ==> forall k :: 0 <= k < db.locks.Length ==> db.locks[k] == old(db.locks[k])
      ensures waits ==> db.Contents() == old(db.Contents())
      ensures waits ==> exists n :: 0 <= n < writeset.Length && old(db.locks[..])[writeset[n]] &&
                          forall k :: 0 <= k < db.locks.Length ==> db.locks[k] == (old(db.locks[k]) || k in writeset[..n])
    {
      var n := LockRecords();
      if n < writeset.Length {
        assert writeset[n] in writeset[..];
        return true;
      }
      assert writeset[..n] == writeset[..];
      assert forall k :: k in writeset[..] ==> !old(db.locks[..])[k];
      Txn();
      UnlockRecords();
      return false;
    }
  }
}

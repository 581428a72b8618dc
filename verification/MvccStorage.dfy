/**
 * The multiversion storage object, written to its contract: each method is proved against
 * the version-list functions that MvccScheduler's steps use.
 */
module MvccStorage {
  import opened Base
  import opened Transactions
  import opened MvccVersions

  class MVCCStorage {
    var data: map<Key, Versions>

    /** `InitStorage` for the keys below n: each gets the value 0 from the id 0. */
    constructor InitStorage(n: nat)
      requires n <= TWO64
      ensures forall k: Key :: k in data <==> k < n
      ensures forall k: Key :: k in data ==> data[k] == [Version(0, 0, 0)]
    {
      data := map[];
      new;
      for i := 0 to n
        invariant forall k: Key :: k in data <==> k < i
        invariant forall k: Key :: k in data ==> data[k] == [Version(0, 0, 0)]
      {
        Write(i, 0, 0);
      }
    }

    function VersionsOf(key: Key): Versions
      reads this
    {
      if key in data then data[key] else []
    }

    /** Goes through a version list to the first version that the id may see. */
    static method Search(vs: Versions, id: nat) returns (i: nat)
      ensures i == FirstAtMost(vs, id)
    {
      i := 0;
      while i < |vs| && id < vs[i].versionId
        invariant i <= |vs|
        invariant forall j :: 0 <= j < i ==> id < vs[j].versionId
      {
        i := i + 1;
      }
      FirstUnique(vs, id, i);
    }

    /** Returns the version the id may see, and leaves the id's mark on it. */
    method Read(key: Key, id: nat) returns (result: Option<Value>)
      modifies this
      ensures result == ValueAt(old(VersionsOf(key)), id)
      ensures data == if key in old(data) then old(data)[key := MarkRead(old(data[key]), id)] else old(data)
    {
      var vs := VersionsOf(key);
      var i := Search(vs, id);
      if i == |vs| {
        assert key in data ==> data[key := data[key]] == data;
        return None;
      }
      var v := vs[i];
      if v.maxReadId < id {
        data := data[key := vs[i := v.(maxReadId := id)]];
      } else {
        assert vs[i := v.(maxReadId := v.maxReadId)] == vs;
        assert data[key := vs] == data;
      }
      return Some(v.value);
    }

    /** Whether the write can be applied: no later reader has seen the version it would follow. */
    method CheckWrite(key: Key, id: nat) returns (ok: bool)
      ensures ok <==> Passes(VersionsOf(key), id)
    {
      var vs := VersionsOf(key);
      var i := Search(vs, id);
      ok := i == |vs| || vs[i].maxReadId <= id;
    }

    /** Puts a new version in its place in the decreasing order. */
    method Write(key: Key, value: Value, id: nat)
      modifies this
      ensures data == old(data)[key := AddVersion(old(VersionsOf(key)), value, id)]
    {
      var vs := VersionsOf(key);
      var i := Search(vs, id);
      data := data[key := vs[..i] + [Version(value, id, id)] + vs[i..]];
    }
  }
}

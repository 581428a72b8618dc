/**
 * The version list of a key in the multiversion storage, as its written contract has it:
 * versions in strictly decreasing order of the id of the transaction that wrote them.
 */
module MvccVersions {
  import opened Base
  import opened Transactions

  datatype Version = Version(value: Value, maxReadId: nat, versionId: nat)

  type Versions = seq<Version>

  ghost predicate Decreasing(vs: Versions) {
    forall i, j :: 0 <= i < j < |vs| ==> vs[j].versionId < vs[i].versionId
  }

  /** The position of the first version whose id is at most ts, or the length. */
  function FirstAtMost(vs: Versions, ts: nat): (i: nat)
    ensures i <= |vs|
    ensures i < |vs| ==> vs[i].versionId <= ts
    ensures forall j :: 0 <= j < i ==> ts < vs[j].versionId
  {
    if vs == [] || vs[0].versionId <= ts then 0 else 1 + FirstAtMost(vs[1..], ts)
  }

  /** In a decreasing list that is the greatest id at most ts. */
  lemma FirstIsGreatest(vs: Versions, ts: nat)
    requires Decreasing(vs)
    ensures var i := FirstAtMost(vs, ts);
            forall j :: 0 <= j < |vs| ==>
              (vs[j].versionId <= ts <==> i <= j) && (i <= j ==> vs[j].versionId <= vs[i].versionId)
  {
  }

  function Max(a: nat, b: nat): nat {
    if a < b then b else a
  }

  /** The list after a read at ts, which leaves its mark on the version it returns. */
  function MarkRead(vs: Versions, ts: nat): Versions {
    var i := FirstAtMost(vs, ts);
    if i == |vs| then vs else vs[i := vs[i].(maxReadId := Max(vs[i].maxReadId, ts))]
  }

  function ValueAt(vs: Versions, ts: nat): Option<Value> {
    var i := FirstAtMost(vs, ts);
    if i == |vs| then None else Some(vs[i].value)
  }

  /** A write at ts would not change what a later transaction has read. */
  predicate Passes(vs: Versions, ts: nat) {
    var i := FirstAtMost(vs, ts);
    i == |vs| || vs[i].maxReadId <= ts
  }

  /** The list with ts's version in its place. */
  function AddVersion(vs: Versions, value: Value, ts: nat): Versions {
    var i := FirstAtMost(vs, ts);
    vs[..i] + [Version(value, ts, ts)] + vs[i..]
  }

  /** f is the position FirstAtMost looks for. */
  ghost predicate IsFirst(vs: Versions, at: nat, f: nat) {
    f <= |vs| && (f < |vs| ==> vs[f].versionId <= at) && forall j :: 0 <= j < f ==> at < vs[j].versionId
  }

  lemma FirstUnique(vs: Versions, at: nat, f: nat)
    requires IsFirst(vs, at, f)
    ensures f == FirstAtMost(vs, at)
  {
  }

  predicate Has(vs: Versions, id: nat) {
    exists i :: 0 <= i < |vs| && vs[i].versionId == id
  }

  lemma MarkKeeps(vs: Versions, ts: nat, at: nat)
    requires Decreasing(vs)
    ensures Decreasing(MarkRead(vs, ts)) && |MarkRead(vs, ts)| == |vs|
    ensures FirstAtMost(MarkRead(vs, ts), at) == FirstAtMost(vs, at)
    ensures ValueAt(MarkRead(vs, ts), at) == ValueAt(vs, at)
    ensures forall i :: 0 <= i < |vs| ==>
              && MarkRead(vs, ts)[i].versionId == vs[i].versionId && MarkRead(vs, ts)[i].value == vs[i].value
              && vs[i].maxReadId <= MarkRead(vs, ts)[i].maxReadId
  {
    var vs' := MarkRead(vs, ts);
    assert forall i :: 0 <= i < |vs| ==> vs'[i].versionId == vs[i].versionId && vs'[i].value == vs[i].value;
    assert IsFirst(vs', at, FirstAtMost(vs, at));
    FirstUnique(vs', at, FirstAtMost(vs, at));
  }

  /** The list after a version has been added. */
  lemma AddShape(vs: Versions, value: Value, ts: nat)
    requires Decreasing(vs) && !Has(vs, ts)
    ensures var vs', i := AddVersion(vs, value, ts), FirstAtMost(vs, ts);
            && Decreasing(vs') && |vs'| == |vs| + 1
            && vs'[i] == Version(value, ts, ts)
            && (forall j :: 0 <= j < i ==> vs'[j] == vs[j])
            && (forall j :: i < j <= |vs| ==> vs'[j] == vs[j - 1])
  {
    hide FirstAtMost;
    var vs', i := AddVersion(vs, value, ts), FirstAtMost(vs, ts);
    assert forall j :: i <= j < |vs| ==> vs[j].versionId < ts by {
      forall j | i <= j < |vs|
        ensures vs[j].versionId < ts
      {
        assert vs[j].versionId != ts;
      }
    }
    assert forall j :: i < j <= |vs| ==> vs'[j] == vs[j - 1];
  }

  lemma AddPositions(vs: Versions, value: Value, ts: nat, at: nat)
    requires Decreasing(vs) && !Has(vs, ts)
    ensures FirstAtMost(AddVersion(vs, value, ts), at) == FirstAtMost(vs, at) + if at < ts then 1 else 0
  {
    AddShape(vs, value, ts);
    var vs', i, f := AddVersion(vs, value, ts), FirstAtMost(vs, ts), FirstAtMost(vs, at);
    if at < ts {
      assert i <= f;
      assert IsFirst(vs', at, f + 1);
      FirstUnique(vs', at, f + 1);
    } else {
      assert f <= i;
      assert IsFirst(vs', at, f);
      FirstUnique(vs', at, f);
    }
  }

  /** No version stands strictly between another's id and the last id that read it. */
  ghost predicate IntervalsFree(vs: Versions) {
    forall i, j :: 0 <= j < i < |vs| ==> vs[i].maxReadId <= vs[j].versionId
  }

  /** Reads keep the intervals free. */
  lemma ReadKeepsIntervals(vs: Versions, ts: nat)
    requires Decreasing(vs) && IntervalsFree(vs)
    ensures IntervalsFree(MarkRead(vs, ts))
  {
  }

  /** So does check-then-write, whatever id it writes at. */
  lemma CheckedWriteKeepsIntervals(vs: Versions, value: Value, ts: nat)
    requires Decreasing(vs) && IntervalsFree(vs) && !Has(vs, ts) && Passes(vs, ts)
    ensures IntervalsFree(AddVersion(vs, value, ts))
  {
    AddShape(vs, value, ts);
    var vs', p := AddVersion(vs, value, ts), FirstAtMost(vs, ts);
    forall i, j | 0 <= j < i < |vs'|
      ensures vs'[i].maxReadId <= vs'[j].versionId
    {
      assert vs'[i] == if i < p then vs[i] else if i == p then Version(value, ts, ts) else vs[i - 1];
      assert vs'[j] == if j < p then vs[j] else if j == p then Version(value, ts, ts) else vs[j - 1];
      if j == p && p < i - 1 {
        assert vs[i - 1].maxReadId <= vs[p].versionId;
      }
    }
  }

  /**
   * A write that passes the check leaves alone what any reader saw that has left its mark,
   * and what is below it.
   */
  lemma WriteUnseen(vs: Versions, value: Value, ts: nat, at: nat)
    requires Decreasing(vs) && !Has(vs, ts) && Passes(vs, ts)
    requires FirstAtMost(vs, at) < |vs| && at != ts
    requires ts < at ==> at <= vs[FirstAtMost(vs, at)].maxReadId
    ensures var vs' := AddVersion(vs, value, ts);
            && FirstAtMost(vs', at) < |vs'| && vs'[FirstAtMost(vs', at)] == vs[FirstAtMost(vs, at)]
  {
    AddShape(vs, value, ts);
    AddPositions(vs, value, ts, at);
  }
}

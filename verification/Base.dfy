/** Words, optional values and duplicate-free sequences, shared by every module. */
module Base {

  const TWO64: nat := 0x1_0000_0000_0000_0000

  /** The 64-bit unsigned integers of both systems (keys, values, fields, pointers). */
  type Word = x: nat | x < TWO64

  function AddWord(a: Word, b: Word): Word {
    (a + b) % TWO64
  }

  datatype Option<+T> = None | Some(value: T)

  function Lookup<K, V>(m: map<K, V>, k: K): Option<V> {
    if k in m then Some(m[k]) else None
  }

  predicate NoDup<T(==)>(s: seq<T>) {
    forall i, j :: 0 <= i < j < |s| ==> s[i] != s[j]
  }

  /** A duplicate-free sequence is no longer than a set that holds all its elements. */
  lemma {:induction false} NoDupLength<T>(s: seq<T>, c: set<T>)
    requires NoDup(s)
    requires forall x :: x in s ==> x in c
    ensures |s| <= |c|
  {
    if s != [] {
      var last := s[|s| - 1];
      NoDupLength(s[..|s| - 1], c - {last});
      assert |c - {last}| == |c| - 1;
    }
  }
}

/** Python's insertion-ordered `dict`, as a sequence of (key, value) pairs
    without repeated keys: assigning to a present key keeps its place, a new
    key goes last, and `del` closes the gap. */
module Assoc {
  import opened Wrappers

  predicate NoDupKeys<K(==), V>(m: seq<(K, V)>)
  {
    forall i, j :: 0 <= i < j < |m| ==> m[i].0 != m[j].0
  }

  /** The position of `k`, if present. */
  function IndexOf<K(==), V>(m: seq<(K, V)>, k: K): (r: Option<nat>)
    ensures r.Some? ==> r.value < |m| && m[r.value].0 == k
    ensures r.Some? ==> forall j :: 0 <= j < r.value ==> m[j].0 != k
    ensures r.None? ==> forall j :: 0 <= j < |m| ==> m[j].0 != k
  {
    if |m| == 0 then None
    else if m[0].0 == k then Some(0)
    else match IndexOf(m[1..], k)
      case None => None
      case Some(i) => Some(i + 1)
  }

  /** `k in m`. */
  predicate HasKey<K(==), V>(m: seq<(K, V)>, k: K)
  {
    IndexOf(m, k).Some?
  }

  /** `m.get(k, default)`. */
  function Get<K(==), V>(m: seq<(K, V)>, k: K, default: V): V
  {
    match IndexOf(m, k)
    case Some(i) => m[i].1
    case None => default
  }

  /** `m[k] = v`. */
  function Put<K(==), V>(m: seq<(K, V)>, k: K, v: V): (r: seq<(K, V)>)
    ensures HasKey(m, k) ==> |r| == |m|
    ensures !HasKey(m, k) ==> r == m + [(k, v)]
  {
    match IndexOf(m, k)
    case Some(i) => m[i := (k, v)]
    case None => m + [(k, v)]
  }

  /** `del m[k]` when `k` is present; nothing otherwise. */
  function Remove<K(==), V>(m: seq<(K, V)>, k: K): (r: seq<(K, V)>)
  {
    match IndexOf(m, k)
    case Some(i) => m[..i] + m[i + 1..]
    case None => m
  }

  /** Without repeated keys a key's position is the one holding it. */
  lemma IndexOfUnique<K, V>(m: seq<(K, V)>, i: nat)
    requires NoDupKeys(m) && i < |m|
    ensures IndexOf(m, m[i].0) == Some(i)
  {
  }

  lemma PutNoDup<K, V>(m: seq<(K, V)>, k: K, v: V)
    requires NoDupKeys(m)
    ensures NoDupKeys(Put(m, k, v))
  {
  }

  /** Assigning one key leaves every other key's value as it was. */
  lemma GetPut<K, V>(m: seq<(K, V)>, k: K, v: V, k2: K, default: V)
    requires NoDupKeys(m)
    ensures Get(Put(m, k, v), k2, default) == if k2 == k then v else Get(m, k2, default)
  {
    PutNoDup(m, k, v);
    var r := Put(m, k, v);
    if k2 == k {
      var i := if HasKey(m, k) then IndexOf(m, k).value else |m|;
      assert r[i] == (k, v);
      IndexOfUnique(r, i);
    } else {
      match IndexOf(m, k2)
      case Some(i) =>
        assert r[i] == m[i];
        IndexOfUnique(r, i);
      case None =>
        assert forall j :: 0 <= j < |r| ==> r[j].0 != k2;
    }
  }

  lemma AppendFinds<K, V>(m: seq<(K, V)>, k: K, v: V)
    requires !HasKey(m, k)
    ensures IndexOf(m + [(k, v)], k) == Some(|m|)
  {
    var r := m + [(k, v)];
    assert r[|m|].0 == k;
    assert forall j :: 0 <= j < |m| ==> r[j].0 == m[j].0;
  }

  /** Assigning a key makes it findable where it was, or last when new;
      this needs no uniqueness. */
  lemma PutFinds<K, V>(m: seq<(K, V)>, k: K, v: V)
    ensures IndexOf(Put(m, k, v), k) == Some(if HasKey(m, k) then IndexOf(m, k).value else |m|)
  {
    if HasKey(m, k) {
      var i := IndexOf(m, k).value;
      IndexOfSameKeys(m[i := (k, v)], m, k);
    } else {
      AppendFinds(m, k, v);
    }
  }

  /** Reading back the key just assigned gives the assigned value. */
  lemma GetPutSame<K, V>(m: seq<(K, V)>, k: K, v: V, default: V)
    ensures Get(Put(m, k, v), k, default) == v
  {
    PutFinds(m, k, v);
  }

  /** A second assignment to the same key overrides the first. */
  lemma PutPut<K, V>(m: seq<(K, V)>, k: K, v1: V, v2: V)
    ensures Put(Put(m, k, v1), k, v2) == Put(m, k, v2)
  {
    PutFinds(m, k, v1);
  }

  /** `setdefault`: creating a missing key with the default changes neither
      what the key reads nor what a later assignment to it leaves. */
  lemma SetDefault<K, V>(m: seq<(K, V)>, k: K, default: V, v: V)
    ensures Get(if HasKey(m, k) then m else Put(m, k, default), k, default) == Get(m, k, default)
    ensures Put(if HasKey(m, k) then m else Put(m, k, default), k, v) == Put(m, k, v)
  {
    if !HasKey(m, k) {
      GetPutSame(m, k, default, default);
      PutPut(m, k, default, v);
    }
  }

  lemma RemoveNoDup<K, V>(m: seq<(K, V)>, k: K)
    requires NoDupKeys(m)
    ensures NoDupKeys(Remove(m, k))
  {
    match IndexOf(m, k)
    case None =>
    case Some(i) =>
      var r := m[..i] + m[i + 1..];
      assert forall a :: 0 <= a < |r| ==> r[a] == if a < i then m[a] else m[a + 1];
  }

  /** Deleting one key removes it and leaves every other key's value as it
      was. */
  lemma GetRemove<K, V>(m: seq<(K, V)>, k: K, k2: K, default: V)
    requires NoDupKeys(m)
    ensures !HasKey(Remove(m, k), k)
    ensures k2 != k ==> Get(Remove(m, k), k2, default) == Get(m, k2, default)
    ensures k2 != k ==> (HasKey(Remove(m, k), k2) <==> HasKey(m, k2))
  {
    RemoveNoDup(m, k);
    match IndexOf(m, k)
    case None =>
    case Some(i) =>
      var r := m[..i] + m[i + 1..];
      assert forall a :: 0 <= a < |r| ==> r[a] == if a < i then m[a] else m[a + 1];
      assert forall j :: 0 <= j < |r| ==> r[j].0 != k;
      if k2 != k {
        match IndexOf(m, k2)
        case Some(j) =>
          var a := if j < i then j else j - 1;
          assert r[a] == m[j];
          IndexOfUnique(r, a);
        case None =>
          assert forall j :: 0 <= j < |r| ==> r[j].0 != k2;
      }
  }

  /** Two lists with the same keys in the same places find every key at the
      same place. */
  lemma {:induction false} IndexOfSameKeys<K, V>(m1: seq<(K, V)>, m2: seq<(K, V)>, k: K)
    requires |m1| == |m2| && forall i :: 0 <= i < |m1| ==> m1[i].0 == m2[i].0
    ensures IndexOf(m1, k) == IndexOf(m2, k)
    decreases |m1|
  {
    if |m1| > 0 && m1[0].0 != k {
      IndexOfSameKeys(m1[1..], m2[1..], k);
    }
  }
}

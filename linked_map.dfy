/** Kotlin's `linkedMapOf()` (a `LinkedHashMap`): a map that remembers the
    order in which keys were first inserted. Writing an existing key replaces
    its value in place; writing a new key appends it. It is represented by
    its entries in iteration order, with no key twice. */
module LinkedMaps {
  import opened Base

  type LinkedMap<K, V> = seq<(K, V)>

  ghost predicate Distinct<K, V>(m: LinkedMap<K, V>) {
    forall i, j :: 0 <= i < j < |m| ==> m[i].0 != m[j].0
  }

  /** The keys in iteration order. */
  function Keys<K, V>(m: LinkedMap<K, V>): (ks: seq<K>)
    ensures |ks| == |m| && forall i :: 0 <= i < |m| ==> ks[i] == m[i].0
  {
    seq(|m|, i requires 0 <= i < |m| => m[i].0)
  }

  /** Position of the first entry for `k`. */
  function IndexOf<K(==,!new), V>(m: LinkedMap<K, V>, k: K): (r: Option<nat>)
    ensures r.Some? ==> r.value < |m| && m[r.value].0 == k
    ensures r.Some? ==> forall j :: 0 <= j < r.value ==> m[j].0 != k
    ensures r.None? ==> forall j :: 0 <= j < |m| ==> m[j].0 != k
    decreases |m|
  {
    if m == [] then None
    else if m[|m| - 1].0 == k then
      match IndexOf(m[..|m| - 1], k)
      case Some(i) => Some(i)
      case None => Some(|m| - 1)
    else IndexOf(m[..|m| - 1], k)
  }

  /** `m[k]`: the value stored for `k`, if any. */
  function Get<K(==,!new), V>(m: LinkedMap<K, V>, k: K): (r: Option<V>)
    ensures r.Some? <==> exists i :: 0 <= i < |m| && m[i].0 == k
    ensures Distinct(m) ==> forall i :: 0 <= i < |m| && m[i].0 == k ==> r == Some(m[i].1)
  {
    match IndexOf(m, k)
    case Some(i) => Some(m[i].1)
    case None => None
  }

  /** Reading a map through its last entry: that entry's value for its own
      key, otherwise whatever the entries before it hold. */
  lemma GetLast<K(!new), V>(m: LinkedMap<K, V>, k: K)
    requires Distinct(m) && m != []
    ensures Distinct(m[..|m| - 1])
    ensures Get(m, k) == if m[|m| - 1].0 == k then Some(m[|m| - 1].1) else Get(m[..|m| - 1], k)
  {
    var init := m[..|m| - 1];
    assert forall i :: 0 <= i < |init| ==> init[i] == m[i];
  }

  /** `m[k] = v`. */
  function Put<K(==,!new), V>(m: LinkedMap<K, V>, k: K, v: V): (r: LinkedMap<K, V>)
    requires Distinct(m)
    ensures Distinct(r)
    ensures Get(r, k) == Some(v)
    ensures forall j :: j != k ==> Get(r, j) == Get(m, j)
    // an existing key keeps its position and the size does not change
    ensures Get(m, k).Some? ==> |r| == |m| && Keys(r) == Keys(m)
    // a new key goes to the end of the iteration order
    ensures Get(m, k).None? ==> r == m + [(k, v)]
  {
    match IndexOf(m, k)
    case Some(i) =>
      var r := m[i := (k, v)];
      assert Keys(r) == Keys(m);
      r
    case None => m + [(k, v)]
  }

  /** `m.putAll(other)`: every entry of `other`, in its order, written into `m`. */
  function PutAll<K(==,!new), V>(m: LinkedMap<K, V>, other: LinkedMap<K, V>): (r: LinkedMap<K, V>)
    requires Distinct(m)
    ensures Distinct(r)
    decreases |other|
  {
    if other == [] then m
    else PutAll(Put(m, other[0].0, other[0].1), other[1..])
  }

  /** After `putAll`, a key of `other` has its value there; every other key is untouched. */
  lemma {:induction false} PutAllGet<K(!new), V>(m: LinkedMap<K, V>, other: LinkedMap<K, V>, k: K)
    requires Distinct(m) && Distinct(other)
    ensures Get(PutAll(m, other), k) == if Get(other, k).Some? then Get(other, k) else Get(m, k)
    decreases |other|
  {
    if other != [] {
      var rest := other[1..];
      assert Distinct(rest) by {
        forall i, j | 0 <= i < j < |rest| ensures rest[i].0 != rest[j].0 {
          assert rest[i] == other[i + 1] && rest[j] == other[j + 1];
        }
      }
      PutAllGet(Put(m, other[0].0, other[0].1), rest, k);
      if k == other[0].0 {
        assert Get(rest, k).None? by {
          forall i | 0 <= i < |rest| ensures rest[i].0 != k {
            assert rest[i] == other[i + 1];
          }
        }
      } else {
        assert Get(other, k) == Get(rest, k) by {
          forall i | 0 <= i < |rest| && rest[i].0 == k ensures Get(other, k) == Some(rest[i].1) {
            assert rest[i] == other[i + 1];
          }
          if Get(other, k).Some? {
            var i :| 0 <= i < |other| && other[i].0 == k;
            assert i > 0 && rest[i - 1] == other[i];
          }
        }
      }
    }
  }

  /** `putAll` never reorders or drops the keys already present. */
  lemma {:induction false} PutAllKeepsOrder<K(!new), V>(m: LinkedMap<K, V>, other: LinkedMap<K, V>)
    requires Distinct(m)
    ensures |PutAll(m, other)| >= |m|
    ensures Keys(PutAll(m, other))[..|m|] == Keys(m)
    decreases |other|
  {
    if other != [] {
      var m' := Put(m, other[0].0, other[0].1);
      PutAllKeepsOrder(m', other[1..]);
      assert Keys(m')[..|m|] == Keys(m);
      assert Keys(PutAll(m, other))[..|m|] == Keys(PutAll(m, other))[..|m'|][..|m|];
    }
  }

  /** Writing one more entry after `putAll` is `putAll` of the longer list. */
  lemma {:induction false} PutAllSnoc<K(!new), V>(m: LinkedMap<K, V>, a: LinkedMap<K, V>, k: K, v: V)
    requires Distinct(m)
    ensures PutAll(m, a + [(k, v)]) == Put(PutAll(m, a), k, v)
    decreases |a|
  {
    if a == [] {
      assert [] + [(k, v)] == [(k, v)];
    } else {
      assert (a + [(k, v)])[1..] == a[1..] + [(k, v)];
      PutAllSnoc(Put(m, a[0].0, a[0].1), a[1..], k, v);
    }
  }
}

/**
 * PHP arrays used as dictionaries: an ordered list of (key, value) entries in
 * which every key occurs once. Assigning `$a[k] = v` replaces the value of an
 * existing key where it stands and appends a new key at the end.
 */
module OrderedMap {
  import opened Wrappers

  function Keys<K, V>(m: seq<(K, V)>): (ks: seq<K>)
    ensures |ks| == |m|
    ensures forall i :: 0 <= i < |m| ==> ks[i] == m[i].0
  {
    seq(|m|, i requires 0 <= i < |m| => m[i].0)
  }

  predicate Distinct<K(==)>(ks: seq<K>) {
    forall i, j :: 0 <= i < j < |ks| ==> ks[i] != ks[j]
  }

  /** The position of the first occurrence of `k` in `ks`. */
  function IndexOf<K(==)>(ks: seq<K>, k: K): (i: nat)
    requires k in ks
    ensures i < |ks| && ks[i] == k
    ensures forall j :: 0 <= j < i ==> ks[j] != k
  {
    if ks[0] == k then 0 else 1 + IndexOf(ks[1..], k)
  }

  /** Any position that holds `k` and has no earlier `k` is the one IndexOf finds. */
  lemma IndexOfUnique<K>(ks: seq<K>, k: K, i: nat)
    requires i < |ks| && ks[i] == k
    requires forall j :: 0 <= j < i ==> ks[j] != k
    ensures IndexOf(ks, k) == i
  {
  }

  /** `$m[k]`: the value stored under `k`, or None when `k` is not a key. */
  function Get<K(==), V>(m: seq<(K, V)>, k: K): Option<V> {
    if k in Keys(m) then Some(m[IndexOf(Keys(m), k)].1) else None
  }

  /** `$m[k] = v`. */
  function Put<K(==), V>(m: seq<(K, V)>, k: K, v: V): (r: seq<(K, V)>)
    ensures Keys(r) == if k in Keys(m) then Keys(m) else Keys(m) + [k]
  {
    if k in Keys(m) then m[IndexOf(Keys(m), k) := (k, v)] else m + [(k, v)]
  }

  /** After `$m[k] = v`, `k` holds `v` and every other key keeps its value. */
  lemma PutGet<K, V>(m: seq<(K, V)>, k: K, v: V, k': K)
    ensures Get(Put(m, k, v), k') == if k' == k then Some(v) else Get(m, k')
  {
    var r := Put(m, k, v);
    if k' in Keys(m) {
      IndexOfUnique(Keys(r), k', IndexOf(Keys(m), k'));
    } else if k' == k {
      IndexOfUnique(Keys(r), k, |m|);
    }
  }

  /**
   * The reference meaning of the flattening loop: the entries assigned one
   * after the other, in list order, into an initially empty array.
   */
  function Flattened<K(==), V>(fs: seq<(K, V)>): seq<(K, V)> {
    if |fs| == 0 then [] else
      var n := |fs| - 1;
      Put(Flattened(fs[..n]), fs[n].0, fs[n].1)
  }

  /** The value of the last entry of `fs` whose key is `k`, if any. */
  function LastGet<K(==), V>(fs: seq<(K, V)>, k: K): Option<V> {
    if |fs| == 0 then None
    else if fs[|fs| - 1].0 == k then Some(fs[|fs| - 1].1)
    else LastGet(fs[..|fs| - 1], k)
  }

  /** Splits `Keys` over a prefix and the element that follows it. */
  lemma KeysPrefix<K, V>(fs: seq<(K, V)>, n: nat)
    requires n < |fs|
    ensures Keys(fs) == Keys(fs[..n]) + Keys(fs[n..])
    ensures Keys(fs[..n + 1]) == Keys(fs[..n]) + [fs[n].0]
  {
  }

  /**
   * The flattened map has one entry per distinct declared key, and no other:
   * in particular it is empty when nothing was declared.
   */
  lemma {:induction false} FlattenedKeys<K, V>(fs: seq<(K, V)>)
    ensures Distinct(Keys(Flattened(fs)))
    ensures forall k :: k in Keys(Flattened(fs)) <==> k in Keys(fs)
  {
    if |fs| > 0 {
      var n := |fs| - 1;
      FlattenedKeys(fs[..n]);
      KeysPrefix(fs, n);
      assert fs[..n + 1] == fs;
    }
  }

  /** Last write wins: the value under `k` is that of the last declaration of `k`. */
  lemma {:induction false} FlattenedLastWins<K, V>(fs: seq<(K, V)>, k: K)
    ensures Get(Flattened(fs), k) == LastGet(fs, k)
  {
    if |fs| > 0 {
      var n := |fs| - 1;
      FlattenedLastWins(fs[..n], k);
      PutGet(Flattened(fs[..n]), fs[n].0, fs[n].1, k);
    }
  }

  /** Every key of `m` occurs in `ks`, and `m` lists its keys in the order of their first occurrence in `ks`. */
  ghost predicate OrderedBy<K, V>(m: seq<(K, V)>, ks: seq<K>) {
    (forall i :: 0 <= i < |m| ==> m[i].0 in ks) &&
    forall i, j :: 0 <= i < j < |m| ==> IndexOf(ks, m[i].0) < IndexOf(ks, m[j].0)
  }

  lemma IndexOfAppend<K>(ks: seq<K>, k: K, x: K)
    requires x in ks
    ensures IndexOf(ks + [k], x) == IndexOf(ks, x)
  {
    IndexOfUnique(ks + [k], x, IndexOf(ks, x));
  }

  /** One assignment keeps the entries in first-declaration order. */
  lemma PutOrdered<K, V>(p: seq<(K, V)>, ks: seq<K>, k: K, v: V)
    requires OrderedBy(p, ks)
    requires k in Keys(p) <==> k in ks
    ensures OrderedBy(Put(p, k, v), ks + [k])
  {
    var r, ks' := Put(p, k, v), ks + [k];
    forall i | 0 <= i < |p| ensures IndexOf(ks', p[i].0) == IndexOf(ks, p[i].0) {
      IndexOfAppend(ks, k, p[i].0);
    }
    if k in Keys(p) {
      forall i | 0 <= i < |r| ensures r[i].0 == p[i].0 {
        assert Keys(r)[i] == Keys(p)[i];
      }
    } else {
      IndexOfUnique(ks', k, |ks|);
      assert r == p + [(k, v)];
    }
  }

  /**
   * A key keeps the position of its first declaration: the entries of the
   * flattened map are ordered by where their key first occurs in `fs`.
   */
  lemma {:induction false} FlattenedFirstPosition<K, V>(fs: seq<(K, V)>)
    ensures forall k :: k in Keys(Flattened(fs)) ==> k in Keys(fs)
    ensures var r := Flattened(fs);
      forall i, j :: 0 <= i < j < |r| ==> IndexOf(Keys(fs), r[i].0) < IndexOf(Keys(fs), r[j].0)
  {
    FlattenedOrdered(fs);
    FlattenedKeys(fs);
  }

  lemma {:induction false} FlattenedOrdered<K, V>(fs: seq<(K, V)>)
    ensures OrderedBy(Flattened(fs), Keys(fs))
  {
    if |fs| > 0 {
      var n := |fs| - 1;
      FlattenedOrdered(fs[..n]);
      FlattenedKeys(fs[..n]);
      KeysPrefix(fs, n);
      assert fs[..n + 1] == fs;
      PutOrdered(Flattened(fs[..n]), Keys(fs[..n]), fs[n].0, fs[n].1);
    }
  }

  /** Every entry of the flattened map is one of the declared entries. */
  lemma {:induction false} FlattenedEntriesDeclared<K, V>(fs: seq<(K, V)>)
    ensures forall e :: e in Flattened(fs) ==> e in fs
  {
    if |fs| > 0 {
      var n := |fs| - 1;
      var p := Flattened(fs[..n]);
      FlattenedEntriesDeclared(fs[..n]);
      assert fs[..n + 1] == fs;
      forall e | e in Flattened(fs) ensures e in fs {
        if e != fs[n] {
          var i :| 0 <= i < |Flattened(fs)| && Flattened(fs)[i] == e;
          if fs[n].0 in Keys(p) {
            assert e == p[i];
          } else {
            assert e == (p + [fs[n]])[i];
            assert i < |p|;
          }
          assert e in fs[..n];
        }
      }
    }
  }

  /** Without repeated keys, flattening changes nothing: same entries, same order. */
  lemma {:induction false} FlattenedDistinct<K, V>(fs: seq<(K, V)>)
    requires Distinct(Keys(fs))
    ensures Flattened(fs) == fs
  {
    if |fs| > 0 {
      var n := |fs| - 1;
      KeysPrefix(fs, n);
      assert Distinct(Keys(fs[..n]));
      FlattenedDistinct(fs[..n]);
      assert fs[n].0 !in Keys(fs[..n]);
      assert fs[..n] + [fs[n]] == fs;
    }
  }
}

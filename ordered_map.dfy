/**
 * PHP arrays as insertion-ordered association lists.
 *
 * A PHP array is a sequence of (key, value) entries whose keys are distinct.
 * Writing `$a[$k] = $v` replaces the value in place when `$k` is present and
 * appends a new entry otherwise; `unset($a[$k])` removes the entry.
 */
module OrderedMap {
  import opened Wrappers

  function Keys<K, V>(m: seq<(K, V)>): (ks: seq<K>)
    ensures |ks| == |m|
    ensures forall i :: 0 <= i < |m| ==> ks[i] == m[i].0
  {
    seq(|m|, i requires 0 <= i < |m| => m[i].0)
  }

  function Values<K, V>(m: seq<(K, V)>): (vs: seq<V>)
    ensures |vs| == |m|
    ensures forall i :: 0 <= i < |m| ==> vs[i] == m[i].1
  {
    seq(|m|, i requires 0 <= i < |m| => m[i].1)
  }

  /** The keys of an array are pairwise distinct. */
  ghost predicate Distinct<K, V>(m: seq<(K, V)>)
  {
    forall i, j :: 0 <= i < j < |m| ==> m[i].0 != m[j].0
  }

  /** The position of key `k`, if present. */
  function IndexOf<K(==), V>(m: seq<(K, V)>, k: K): (r: Option<nat>)
    ensures r.Some? ==> r.value < |m| && m[r.value].0 == k
    ensures r.Some? ==> forall j :: 0 <= j < r.value ==> m[j].0 != k
    ensures r.None? <==> k !in Keys(m)
  {
    if |m| == 0 then None
    else if m[0].0 == k then Some(0)
    else match IndexOf(m[1..], k)
      case None => None
      case Some(i) => Some(i + 1)
  }

  /** `$m[$k]` when the key is present, None otherwise. */
  function Get<K(==), V>(m: seq<(K, V)>, k: K): (r: Option<V>)
    ensures r.None? <==> k !in Keys(m)
    ensures r.Some? ==> (k, r.value) in m
  {
    match IndexOf(m, k)
    case None => None
    case Some(i) => Some(m[i].1)
  }

  /** `$m[$k] = $v`: overwrite in place, or append a new entry. */
  function Put<K(==), V>(m: seq<(K, V)>, k: K, v: V): (r: seq<(K, V)>)
    ensures k in Keys(m) ==> Keys(r) == Keys(m)
    ensures k !in Keys(m) ==> Keys(r) == Keys(m) + [k]
  {
    match IndexOf(m, k)
    case None => m + [(k, v)]
    case Some(i) => m[i := (k, v)]
  }

  /** `unset($m[$k])`. */
  function Remove<K(==), V>(m: seq<(K, V)>, k: K): (r: seq<(K, V)>)
    ensures |r| <= |m|
  {
    match IndexOf(m, k)
    case None => m
    case Some(i) => m[..i] + m[i + 1..]
  }

  lemma GetAt<K, V>(m: seq<(K, V)>, i: nat)
    requires Distinct(m) && i < |m|
    ensures Get(m, m[i].0) == Some(m[i].1)
  {
    var j := IndexOf(m, m[i].0);
    assert j.Some?;
  }

  /** The first position holding `k` is what IndexOf finds. */
  lemma {:induction false} IndexOfFirst<K, V>(m: seq<(K, V)>, k: K, i: nat)
    requires i < |m| && m[i].0 == k
    requires forall j :: 0 <= j < i ==> m[j].0 != k
    ensures IndexOf(m, k) == Some(i)
  {
    if i > 0 {
      IndexOfFirst(m[1..], k, i - 1);
    }
  }

  lemma GetPut<K, V>(m: seq<(K, V)>, k: K, v: V, k': K)
    ensures Get(Put(m, k, v), k') == if k' == k then Some(v) else Get(m, k')
  {
    var r := Put(m, k, v);
    assert |r| >= |m|;
    assert forall j :: 0 <= j < |m| && m[j].0 != k ==> r[j] == m[j];
    if k' == k {
      var i :| IndexOf(r, k) == Some(i);
      assert r[i] == (k, v);
    } else {
      match IndexOf(m, k')
      case None =>
        assert k' !in Keys(r);
      case Some(j) =>
        IndexOfFirst(r, k', j);
    }
  }

  /** Writing the value a key already holds changes nothing. */
  lemma PutSame<K, V>(m: seq<(K, V)>, k: K, v: V)
    requires Get(m, k) == Some(v)
    ensures Put(m, k, v) == m
  {
    var i :| IndexOf(m, k) == Some(i);
    assert m[i] == (k, v);
  }

  lemma DistinctPut<K, V>(m: seq<(K, V)>, k: K, v: V)
    requires Distinct(m)
    ensures Distinct(Put(m, k, v))
  {
    var r := Put(m, k, v);
    assert Keys(r) == Keys(m) || Keys(r) == Keys(m) + [k];
    forall i, j | 0 <= i < j < |r| ensures r[i].0 != r[j].0 {
      assert Keys(r)[i] == r[i].0 && Keys(r)[j] == r[j].0;
    }
  }

  lemma GetRemove<K, V>(m: seq<(K, V)>, k: K, k': K)
    requires Distinct(m)
    ensures Get(Remove(m, k), k') == if k' == k then None else Get(m, k')
  {
    var o := IndexOf(m, k);
    if o.Some? {
      RemoveAt(m, o.value, k');
    }
  }

  lemma RemoveDistinct<K, V>(m: seq<(K, V)>, k: K)
    requires Distinct(m)
    ensures Distinct(Remove(m, k))
  {
    match IndexOf(m, k)
    case None =>
    case Some(i) =>
      var r := m[..i] + m[i + 1..];
      forall a, b | 0 <= a < b < |r| ensures r[a].0 != r[b].0 {
        assert r[a] == m[if a < i then a else a + 1];
        assert r[b] == m[if b < i then b else b + 1];
      }
  }

  lemma RemoveAt<K, V>(m: seq<(K, V)>, i: nat, k': K)
    requires Distinct(m) && i < |m|
    ensures Get(m[..i] + m[i + 1..], k') == if k' == m[i].0 then None else Get(m, k')
  {
    var r := m[..i] + m[i + 1..];
    var ks := Keys(r);
    if k' == m[i].0 || k' !in Keys(m) {
      forall j | 0 <= j < |r| ensures ks[j] != k' {
        var src := if j < i then j else j + 1;
        assert r[j] == m[src];
        assert Keys(m)[src] == m[src].0;
        if k' == m[i].0 {
          assert src != i;
        }
      }
    } else {
      var j := IndexOf(m, k').value;
      var j' := if j < i then j else j - 1;
      assert j != i;
      assert r[j'] == m[j];
      forall l | 0 <= l < j' ensures r[l].0 != k' {
        assert r[l] == m[if l < i then l else l + 1];
      }
      IndexOfFirst(r, k', j');
    }
  }

  lemma GetAppend<K, V>(m: seq<(K, V)>, e: (K, V), k: K)
    ensures Get(m + [e], k) ==
      if k in Keys(m) then Get(m, k) else if e.0 == k then Some(e.1) else None
  {
    var r := m + [e];
    assert forall j :: 0 <= j < |m| ==> r[j] == m[j];
    match IndexOf(m, k)
    case Some(j) =>
      IndexOfFirst(r, k, j);
    case None =>
      if e.0 == k {
        IndexOfFirst(r, k, |m|);
      } else {
        assert k !in Keys(r);
      }
  }

  /** Two arrays with the same keys in the same order and the same value at
      every key are the same array. */
  lemma Extensionality<K, V>(a: seq<(K, V)>, b: seq<(K, V)>)
    requires Distinct(a) && Distinct(b) && Keys(a) == Keys(b)
    requires forall k :: Get(a, k) == Get(b, k)
    ensures a == b
  {
    forall i | 0 <= i < |a| ensures a[i] == b[i] {
      assert Keys(a)[i] == Keys(b)[i];
      GetAt(a, i);
      GetAt(b, i);
      assert Get(a, a[i].0) == Get(b, a[i].0);
    }
  }

  lemma PrefixDistinct<K, V>(m: seq<(K, V)>, n: nat)
    requires Distinct(m) && n <= |m|
    ensures Distinct(m[..n])
    ensures n < |m| ==> m[n].0 !in Keys(m[..n])
  {
    if n < |m| {
      forall j | 0 <= j < n ensures Keys(m[..n])[j] != m[n].0 {
        assert Keys(m[..n])[j] == m[j].0;
      }
    }
  }

  /** Growing a prefix by one entry. */
  lemma TakeNext<K, V>(m: seq<(K, V)>, n: nat)
    requires n < |m|
    ensures m[..n + 1] == m[..n] + [m[n]]
    ensures Keys(m[..n + 1]) == Keys(m[..n]) + [m[n].0]
  {
    assert m[..n + 1] == m[..n] + [m[n]];
  }

  /** Later writes win: the array built by writing `es` in order, starting from `m`. */
  function PutAll<K(==), V>(m: seq<(K, V)>, es: seq<(K, V)>): seq<(K, V)>
    decreases |es|
  {
    if |es| == 0 then m else PutAll(Put(m, es[0].0, es[0].1), es[1..])
  }

  /** Writing entries with fresh, distinct keys just appends them. */
  lemma {:induction false} PutAllFresh<K, V>(m: seq<(K, V)>, es: seq<(K, V)>)
    requires Distinct(es)
    requires forall i :: 0 <= i < |es| ==> es[i].0 !in Keys(m)
    ensures PutAll(m, es) == m + es
    decreases |es|
  {
    if |es| > 0 {
      var m' := Put(m, es[0].0, es[0].1);
      var rest := es[1..];
      assert m' == m + [es[0]] by {
        assert es[0].0 !in Keys(m);
      }
      assert Distinct(rest) by {
        forall i, j | 0 <= i < j < |rest| ensures rest[i].0 != rest[j].0 {
          assert rest[i] == es[i + 1] && rest[j] == es[j + 1];
        }
      }
      assert forall i :: 0 <= i < |rest| ==> rest[i].0 !in Keys(m') by {
        assert Keys(m') == Keys(m) + [es[0].0];
        forall i | 0 <= i < |rest| ensures rest[i].0 !in Keys(m') {
          assert rest[i] == es[i + 1];
          assert es[i + 1].0 != es[0].0;
        }
      }
      assert PutAll(m', rest) == m' + rest by {
        PutAllFresh(m', rest);
      }
      assert m' + rest == m + es;
    }
  }

  /** The keys of `ks` that `base` does not have, in order. */
  function Fresh<K(==, !new), V>(ks: seq<K>, base: seq<(K, V)>): (r: seq<K>)
    ensures forall k :: k in r <==> k in ks && k !in Keys(base)
  {
    if |ks| == 0 then []
    else Fresh(ks[..|ks| - 1], base) + (if ks[|ks| - 1] in Keys(base) then [] else [ks[|ks| - 1]])
  }

  lemma {:induction false} FreshAppend<K(!new), V>(a: seq<K>, b: seq<K>, base: seq<(K, V)>)
    ensures Fresh(a + b, base) == Fresh(a, base) + Fresh(b, base)
    decreases |b|
  {
    if |b| > 0 {
      assert (a + b)[..|a + b| - 1] == a + b[..|b| - 1];
      FreshAppend(a, b[..|b| - 1], base);
    } else {
      assert a + b == a;
    }
  }

  lemma {:induction false} FreshOfFresh<K(!new), V>(ks: seq<K>, base: seq<(K, V)>)
    ensures Fresh(Fresh(ks, base), base) == Fresh(ks, base)
    decreases |ks|
  {
    if |ks| > 0 {
      var p := ks[..|ks| - 1];
      var x := ks[|ks| - 1];
      FreshOfFresh(p, base);
      FreshAppend(Fresh(p, base), if x in Keys(base) then [] else [x], base);
      if x !in Keys(base) {
        assert Fresh([x], base) == Fresh([], base) + [x];
      }
    }
  }

  lemma {:induction false} FreshOfOwnKeys<K(!new), V>(ks: seq<K>, base: seq<(K, V)>)
    requires forall k :: k in ks ==> k in Keys(base)
    ensures Fresh(ks, base) == []
    decreases |ks|
  {
    if |ks| > 0 {
      FreshOfOwnKeys(ks[..|ks| - 1], base);
    }
  }

  /** Writing a key that is not among the fresh keys already appended to
      `base` keeps the shape "keys of `base`, then fresh keys". */
  lemma PutFreshKeys<K(!new), V>(acc: seq<(K, V)>, base: seq<(K, V)>, ks: seq<K>, k: K, v: V)
    requires Keys(acc) == Keys(base) + Fresh(ks, base)
    requires k !in ks
    ensures Keys(Put(acc, k, v)) == Keys(base) + Fresh(ks + [k], base)
  {
    var f := Fresh(ks, base);
    var g := if k in Keys(base) then [] else [k];
    assert Fresh(ks + [k], base) == f + g by {
      assert (ks + [k])[..|ks|] == ks;
    }
    if k in Keys(base) {
      assert Keys(Put(acc, k, v)) == Keys(acc) by {
        assert k in Keys(acc);
      }
      assert f + g == f;
    } else {
      assert Keys(Put(acc, k, v)) == Keys(acc) + [k] by {
        assert k !in f;
      }
      assert Keys(base) + (f + g) == (Keys(base) + f) + [k];
    }
  }


  /** Fresh keys computed against `base` a second time add nothing new. */
  lemma FreshTwice<K(!new), V>(base: seq<(K, V)>, ks: seq<K>)
    ensures Fresh(Keys(base) + Fresh(ks, base), base) == Fresh(ks, base)
  {
    FreshAppend(Keys(base), Fresh(ks, base), base);
    FreshOfOwnKeys(Keys(base), base);
    FreshOfFresh(ks, base);
  }

  /** The value of the last entry with key `k`, if any. */
  function LastValue<K(==), V>(es: seq<(K, V)>, k: K): (r: Option<V>)
    ensures r.None? <==> k !in Keys(es)
    ensures r.Some? ==> (k, r.value) in es
    decreases |es|
  {
    if |es| == 0 then None
    else match LastValue(es[1..], k)
      case Some(v) => Some(v)
      case None => if es[0].0 == k then Some(es[0].1) else None
  }

  lemma {:induction false} LastValueAppend<K, V>(a: seq<(K, V)>, b: seq<(K, V)>, k: K)
    ensures LastValue(a + b, k) == if k in Keys(b) then LastValue(b, k) else LastValue(a, k)
    decreases |a|
  {
    if |a| > 0 {
      assert (a + b)[1..] == a[1..] + b;
      LastValueAppend(a[1..], b, k);
    } else {
      assert a + b == b;
    }
  }

  /** In an array with distinct keys the last entry for a key is its only one. */
  lemma {:induction false} LastValueDistinct<K, V>(m: seq<(K, V)>, k: K)
    requires Distinct(m)
    ensures LastValue(m, k) == Get(m, k)
    decreases |m|
  {
    if |m| > 0 {
      LastValueDistinct(m[1..], k);
      if m[0].0 == k {
        IndexOfFirst(m, k, 0);
        assert k !in Keys(m[1..]);
      } else {
        match IndexOf(m[1..], k)
        case None =>
          assert k !in Keys(m);
        case Some(j) =>
          IndexOfFirst(m, k, j + 1);
      }
    }
  }

  /** After writing `es` in order, a key holds its last written value, or
      its old value when `es` does not write it. */
  lemma {:induction false} GetPutAll<K, V>(m: seq<(K, V)>, es: seq<(K, V)>, k: K)
    ensures Get(PutAll(m, es), k) == match LastValue(es, k) case Some(v) => Some(v) case None => Get(m, k)
    decreases |es|
  {
    if |es| > 0 {
      GetPutAll(Put(m, es[0].0, es[0].1), es[1..], k);
      GetPut(m, es[0].0, es[0].1, k);
    }
  }

  /** Writing never moves or drops a key: old keys keep their places. */
  lemma {:induction false} PutAllKeys<K, V>(m: seq<(K, V)>, es: seq<(K, V)>)
    ensures Keys(m) <= Keys(PutAll(m, es))
    ensures forall k :: k in Keys(PutAll(m, es)) <==> k in Keys(m) || k in Keys(es)
    ensures Distinct(m) ==> Distinct(PutAll(m, es))
    decreases |es|
  {
    if |es| > 0 {
      var m' := Put(m, es[0].0, es[0].1);
      var r := PutAll(m', es[1..]);
      assert r == PutAll(m, es);
      assert Keys(m') <= Keys(r) && (Distinct(m') ==> Distinct(r)) &&
        forall k :: k in Keys(r) <==> k in Keys(m') || k in Keys(es[1..]) by {
        PutAllKeys(m', es[1..]);
      }
      assert Keys(m) <= Keys(m') by {
        if es[0].0 !in Keys(m) {
          assert Keys(m') == Keys(m) + [es[0].0];
        }
      }
      assert Distinct(m) ==> Distinct(m') by {
        if Distinct(m) {
          DistinctPut(m, es[0].0, es[0].1);
        }
      }
      assert Keys(es) == [es[0].0] + Keys(es[1..]);
      forall k ensures k in Keys(r) <==> k in Keys(m) || k in Keys(es) {
        assert k in Keys(m') <==> k in Keys(m) || k == es[0].0;
      }
    }
  }

  /** Writing only keys that are already present keeps the key order. */
  lemma {:induction false} PutAllExisting<K, V>(m: seq<(K, V)>, es: seq<(K, V)>)
    requires forall i :: 0 <= i < |es| ==> es[i].0 in Keys(m)
    ensures Keys(PutAll(m, es)) == Keys(m)
    decreases |es|
  {
    if |es| > 0 {
      var m' := Put(m, es[0].0, es[0].1);
      assert Keys(m') == Keys(m);
      forall i | 0 <= i < |es[1..]| ensures es[1..][i].0 in Keys(m') {
        assert es[1..][i] == es[i + 1];
      }
      PutAllExisting(m', es[1..]);
    }
  }

  /** Writing an array's entries back into itself changes nothing. */
  lemma PutAllSelf<K, V>(m: seq<(K, V)>)
    requires Distinct(m)
    ensures PutAll(m, m) == m
  {
    var r := PutAll(m, m);
    forall i | 0 <= i < |m| ensures m[i].0 in Keys(m) {
      assert Keys(m)[i] == m[i].0;
    }
    PutAllExisting(m, m);
    PutAllKeys(m, m);
    forall k ensures Get(r, k) == Get(m, k) {
      GetPutAll(m, m, k);
      LastValueDistinct(m, k);
    }
    Extensionality(r, m);
  }

  /** Writing the entries of an array with distinct keys: a key it holds
      takes its value, every other key keeps the old one. */
  lemma GetPutAllDistinct<K, V>(m: seq<(K, V)>, es: seq<(K, V)>, k: K)
    requires Distinct(es)
    ensures Get(PutAll(m, es), k) == match Get(es, k) case Some(v) => Some(v) case None => Get(m, k)
  {
    GetPutAll(m, es, k);
    LastValueDistinct(es, k);
  }

  /** The value of the last entry for a key that no later entry repeats. */
  lemma {:induction false} LastValueAt<K, V>(es: seq<(K, V)>, i: nat)
    requires i < |es|
    requires forall j :: i < j < |es| ==> es[j].0 != es[i].0
    ensures LastValue(es, es[i].0) == Some(es[i].1)
    decreases |es|
  {
    if i == 0 {
      assert es[0].0 !in Keys(es[1..]) by {
        forall j | 0 <= j < |es[1..]| ensures es[1..][j].0 != es[0].0 {
          assert es[1..][j] == es[j + 1];
        }
      }
    } else {
      forall j | i - 1 < j < |es[1..]| ensures es[1..][j].0 != es[1..][i - 1].0 {
        assert es[1..][j] == es[j + 1];
      }
      LastValueAt(es[1..], i - 1);
    }
  }

  /** A second write to a key replaces the first one in place. */
  lemma PutPut<K, V>(m: seq<(K, V)>, k: K, a: V, b: V)
    ensures Put(Put(m, k, a), k, b) == Put(m, k, b)
  {
    match IndexOf(m, k)
    case None =>
      IndexOfFirst(m + [(k, a)], k, |m|);
      assert (m + [(k, a)])[|m| := (k, b)] == m + [(k, b)];
    case Some(i) =>
      IndexOfFirst(m[i := (k, a)], k, i);
      assert m[i := (k, a)][i := (k, b)] == m[i := (k, b)];
  }

  lemma {:induction false} PutAllSnoc<K, V>(m: seq<(K, V)>, es: seq<(K, V)>, e: (K, V))
    ensures PutAll(m, es + [e]) == Put(PutAll(m, es), e.0, e.1)
    decreases |es|
  {
    if |es| == 0 {
      assert es + [e] == [e];
    } else {
      assert (es + [e])[1..] == es[1..] + [e];
      PutAllSnoc(Put(m, es[0].0, es[0].1), es[1..], e);
    }
  }

  /** Writing entries with distinct keys keeps the old keys in place and
      appends the new ones in the order they are written. */
  lemma {:induction false} PutAllKeysDistinct<K(!new), V>(m: seq<(K, V)>, es: seq<(K, V)>)
    requires Distinct(es)
    ensures Keys(PutAll(m, es)) == Keys(m) + Fresh(Keys(es), m)
    decreases |es|
  {
    if |es| == 0 {
      assert Keys(m) + Fresh([], m) == Keys(m);
    } else {
      var init := es[..|es| - 1];
      var e := es[|es| - 1];
      assert es == init + [e];
      assert Distinct(init);
      PutAllKeysDistinct(m, init);
      PutAllSnoc(m, init, e);
      assert e.0 !in Keys(init);
      PutFreshKeys(PutAll(m, init), m, Keys(init), e.0, e.1);
      assert Keys(es) == Keys(init) + [e.0];
    }
  }
}

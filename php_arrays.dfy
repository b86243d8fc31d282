/**
 * PHP's array library functions used by the plugins:
 * `array_replace_recursive`, `array_merge` and `array_unique`.
 */
module PhpArrays {
  import opened Wrappers
  import opened PhpValues
  import opened OrderedMap

  /** A value as PHP builds it: every array, at every depth, has distinct keys. */
  ghost predicate WellFormed(v: Value)
    decreases v
  {
    v.Arr? ==>
      Distinct(v.a) &&
      forall i :: 0 <= i < |v.a| ==> WellFormed(v.a[i].1)
  }

  /** The value `array_replace_recursive` leaves at a key that the
      replacement holds: both arrays merge recursively, otherwise the
      replacement wins. */
  function Combine(cur: Option<Value>, v: Value): Value
    decreases v, 1
  {
    if cur.Some? && cur.value.Arr? && v.Arr? then Arr(ReplaceN(cur.value.a, v, |v.a|))
    else v
  }

  /** `array_replace_recursive($base, $repl)` after the first `n` entries of
      the replacement have been applied. */
  function ReplaceN(base: seq<(Key, Value)>, repl: Value, n: nat): seq<(Key, Value)>
    requires repl.Arr? && n <= |repl.a|
    decreases repl, 0, n
  {
    if n == 0 then base
    else
      var acc := ReplaceN(base, repl, n - 1);
      var e := repl.a[n - 1];
      assert e in repl.a;
      Put(acc, e.0, Combine(Get(acc, e.0), e.1))
  }

  function ReplaceRecursive(base: seq<(Key, Value)>, repl: seq<(Key, Value)>): seq<(Key, Value)>
  {
    ReplaceN(base, Arr(repl), |repl|)
  }

  /** What `array_replace_recursive($base, $repl)` holds at `k`. */
  function Replaced(base: seq<(Key, Value)>, repl: seq<(Key, Value)>, k: Key): Option<Value>
  {
    match Get(repl, k)
    case None => Get(base, k)
    case Some(v) => Some(Combine(Get(base, k), v))
  }

  /** Keys of the base keep their places and new keys follow in
      replacement order. */
  lemma {:induction false} ReplaceNKeys(base: seq<(Key, Value)>, repl: Value, n: nat)
    requires repl.Arr? && n <= |repl.a|
    requires Distinct(base) && Distinct(repl.a)
    ensures Distinct(ReplaceN(base, repl, n))
    ensures Keys(ReplaceN(base, repl, n)) == Keys(base) + Fresh(Keys(repl.a[..n]), base)
  {
    if n == 0 {
      assert repl.a[..0] == [];
    } else {
      ReplaceNKeys(base, repl, n - 1);
      var acc := ReplaceN(base, repl, n - 1);
      var e := repl.a[n - 1];
      var nv := Combine(Get(acc, e.0), e.1);
      DistinctPut(acc, e.0, nv);
      assert ReplaceN(base, repl, n) == Put(acc, e.0, nv);
      TakeNext(repl.a, n - 1);
      PrefixDistinct(repl.a, n - 1);
      PutFreshKeys(acc, base, Keys(repl.a[..n - 1]), e.0, nv);
    }
  }

  /** A key of the replacement takes its combined value, any other key
      keeps the base's. */
  lemma {:induction false} ReplaceNGet(base: seq<(Key, Value)>, repl: Value, n: nat, k: Key)
    requires repl.Arr? && n <= |repl.a|
    requires Distinct(repl.a)
    ensures Get(ReplaceN(base, repl, n), k) == Replaced(base, repl.a[..n], k)
  {
    if n == 0 {
      assert repl.a[..0] == [];
    } else {
      var pre := repl.a[..n - 1];
      var acc := ReplaceN(base, repl, n - 1);
      var e := repl.a[n - 1];
      var nv := Combine(Get(acc, e.0), e.1);
      assert repl.a[..n] == pre + [e] by {
        TakeNext(repl.a, n - 1);
      }
      assert Get(pre, e.0) == None by {
        PrefixDistinct(repl.a, n - 1);
        TakeNext(repl.a, n - 1);
      }
      assert Get(acc, e.0) == Get(base, e.0) by {
        ReplaceNGet(base, repl, n - 1, e.0);
      }
      assert Get(acc, k) == Replaced(base, pre, k) by {
        ReplaceNGet(base, repl, n - 1, k);
      }
      assert ReplaceN(base, repl, n) == Put(acc, e.0, nv);
      GetPut(acc, e.0, nv, k);
      GetAppend(pre, e, k);
    }
  }

  lemma ReplaceAt(base: seq<(Key, Value)>, repl: seq<(Key, Value)>)
    requires Distinct(base) && Distinct(repl)
    ensures Distinct(ReplaceRecursive(base, repl))
    ensures Keys(ReplaceRecursive(base, repl)) == Keys(base) + Fresh(Keys(repl), base)
    ensures forall k :: Get(ReplaceRecursive(base, repl), k) == Replaced(base, repl, k)
  {
    ReplaceNKeys(base, Arr(repl), |repl|);
    assert repl[..|repl|] == repl;
    forall k ensures Get(ReplaceRecursive(base, repl), k) == Replaced(base, repl, k) {
      ReplaceNGet(base, Arr(repl), |repl|, k);
    }
  }

  /** An element an array holds under `k` is itself well formed and
      smaller than the array. */
  lemma ElementAt(x: Value, k: Key) returns (v: Value)
    requires x.Arr? && WellFormed(x) && k in Keys(x.a)
    ensures Get(x.a, k) == Some(v)
    ensures WellFormed(v) && v < x
  {
    var i := IndexOf(x.a, k).value;
    GetAt(x.a, i);
    assert x.a[i] in x.a;
    v := x.a[i].1;
  }

  /** Replacing an array with itself changes nothing. */
  lemma {:induction false} ReplaceSelf(x: Value)
    requires x.Arr? && WellFormed(x)
    ensures ReplaceRecursive(x.a, x.a) == x.a
    decreases x
  {
    var r := ReplaceRecursive(x.a, x.a);
    ReplaceAt(x.a, x.a);
    FreshOfOwnKeys(Keys(x.a), x.a);
    forall k ensures Get(r, k) == Get(x.a, k) {
      if k in Keys(x.a) {
        var v := ElementAt(x, k);
        if v.Arr? {
          ReplaceSelf(v);
          assert ReplaceN(v.a, v, |v.a|) == v.a;
        }
      }
    }
    Extensionality(r, x.a);
  }

  /** Replacing the defaults twice with the same stored values is the same
      as replacing them once. */
  lemma {:induction false} ReplaceTwice(d: Value, s: Value)
    requires d.Arr? && s.Arr? && WellFormed(d) && WellFormed(s)
    ensures ReplaceRecursive(d.a, ReplaceRecursive(d.a, s.a)) == ReplaceRecursive(d.a, s.a)
    decreases s, 1
  {
    var x := ReplaceRecursive(d.a, s.a);
    var y := ReplaceRecursive(d.a, x);
    ReplaceTwiceKeys(d.a, s.a);
    forall k ensures Get(y, k) == Get(x, k) {
      ReplaceTwiceAt(d, s, k);
      ReplaceAt(d.a, x);
    }
    Extensionality(y, x);
  }

  lemma ReplaceTwiceKeys(d: seq<(Key, Value)>, s: seq<(Key, Value)>)
    requires Distinct(d) && Distinct(s)
    ensures Distinct(ReplaceRecursive(d, s))
    ensures Distinct(ReplaceRecursive(d, ReplaceRecursive(d, s)))
    ensures Keys(ReplaceRecursive(d, ReplaceRecursive(d, s))) == Keys(ReplaceRecursive(d, s))
  {
    var x := ReplaceRecursive(d, s);
    ReplaceAt(d, s);
    ReplaceAt(d, x);
    FreshTwice(d, Keys(s));
  }

  lemma {:induction false} ReplaceTwiceAt(d: Value, s: Value, k: Key)
    requires d.Arr? && s.Arr? && WellFormed(d) && WellFormed(s)
    requires Distinct(ReplaceRecursive(d.a, s.a))
    ensures Replaced(d.a, ReplaceRecursive(d.a, s.a), k) == Get(ReplaceRecursive(d.a, s.a), k)
    decreases s, 0
  {
    var x := ReplaceRecursive(d.a, s.a);
    ReplaceAt(d.a, s.a);
    match Get(x, k)
    case None =>
      assert k !in Keys(d.a);
    case Some(xv) =>
      if k in Keys(d.a) {
        var dv := ElementAt(d, k);
        if dv.Arr? && xv.Arr? {
          if k in Keys(s.a) {
            var sv := ElementAt(s, k);
            ReplaceTwice(dv, sv);
          } else {
            ReplaceSelf(dv);
          }
        }
      }
  }

  /** Replacing keeps every array well formed. */
  lemma {:induction false} ReplaceWellFormed(d: Value, s: Value)
    requires d.Arr? && s.Arr? && WellFormed(d) && WellFormed(s)
    ensures WellFormed(Arr(ReplaceRecursive(d.a, s.a)))
    decreases s
  {
    var r := ReplaceRecursive(d.a, s.a);
    ReplaceAt(d.a, s.a);
    forall i | 0 <= i < |r| ensures WellFormed(r[i].1) {
      GetAt(r, i);
      var k := r[i].0;
      assert Get(r, k) == Replaced(d.a, s.a, k);
      if k in Keys(s.a) {
        var sv := ElementAt(s, k);
        if k in Keys(d.a) {
          var dv := ElementAt(d, k);
          if dv.Arr? && sv.Arr? {
            ReplaceWellFormed(dv, sv);
          }
        }
      } else {
        var dv := ElementAt(d, k);
      }
    }
  }

  /** Writing well-formed values into a well-formed array keeps it well formed. */
  lemma PutAllWellFormed(m: seq<(Key, Value)>, es: seq<(Key, Value)>)
    requires WellFormed(Arr(m))
    requires forall i :: 0 <= i < |es| ==> WellFormed(es[i].1)
    ensures WellFormed(Arr(PutAll(m, es)))
  {
    var r := PutAll(m, es);
    PutAllKeys(m, es);
    forall i | 0 <= i < |r| ensures WellFormed(r[i].1) {
      GetAt(r, i);
      GetPutAll(m, es, r[i].0);
      match LastValue(es, r[i].0)
      case Some(v) =>
        var j :| 0 <= j < |es| && es[j] == (r[i].0, v);
      case None =>
        var j :| 0 <= j < |m| && m[j] == (r[i].0, r[i].1);
    }
  }

  /** `array_merge($a, $b)`: string keys are written in order (later wins,
      in place); integer keys are renumbered and appended. */
  function MergeInto(acc: seq<(Key, Value)>, next: nat, es: seq<(Key, Value)>): seq<(Key, Value)>
    decreases |es|
  {
    if |es| == 0 then acc
    else if es[0].0.IKey? then MergeInto(acc + [(IKey(next), es[0].1)], next + 1, es[1..])
    else MergeInto(Put(acc, es[0].0, es[0].1), next, es[1..])
  }

  function ArrayMerge(a: seq<(Key, Value)>, b: seq<(Key, Value)>): seq<(Key, Value)>
  {
    MergeInto([], 0, a + b)
  }

  lemma {:induction false} MergeIntoString(acc: seq<(Key, Value)>, next: nat, es: seq<(Key, Value)>, s: string)
    ensures Get(MergeInto(acc, next, es), SKey(s)) ==
      match LastValue(es, SKey(s)) case Some(v) => Some(v) case None => Get(acc, SKey(s))
    decreases |es|
  {
    if |es| > 0 {
      if es[0].0.IKey? {
        MergeIntoString(acc + [(IKey(next), es[0].1)], next + 1, es[1..], s);
        GetAppend(acc, (IKey(next), es[0].1), SKey(s));
      } else {
        MergeIntoString(Put(acc, es[0].0, es[0].1), next, es[1..], s);
        GetPut(acc, es[0].0, es[0].1, SKey(s));
      }
    }
  }

  /** Under a string key, `array_merge` holds the second array's value
      when it has one and the first array's otherwise. */
  lemma ArrayMergeString(a: seq<(Key, Value)>, b: seq<(Key, Value)>, s: string)
    requires Distinct(a) && Distinct(b)
    ensures Get(ArrayMerge(a, b), SKey(s)) ==
      match Get(b, SKey(s)) case Some(v) => Some(v) case None => Get(a, SKey(s))
  {
    MergeIntoString([], 0, a + b, s);
    LastValueAppend(a, b, SKey(s));
    LastValueDistinct(a, SKey(s));
    LastValueDistinct(b, SKey(s));
  }

  lemma {:induction false} MergeIntoDistinct(acc: seq<(Key, Value)>, next: nat, es: seq<(Key, Value)>)
    requires Distinct(acc)
    requires forall k :: k in Keys(acc) && k.IKey? ==> k.n < next
    ensures Distinct(MergeInto(acc, next, es))
    decreases |es|
  {
    if |es| > 0 {
      if es[0].0.IKey? {
        var acc' := acc + [(IKey(next), es[0].1)];
        assert Keys(acc') == Keys(acc) + [IKey(next)];
        MergeIntoDistinct(acc', next + 1, es[1..]);
      } else {
        DistinctPut(acc, es[0].0, es[0].1);
        MergeIntoDistinct(Put(acc, es[0].0, es[0].1), next, es[1..]);
      }
    }
  }

  /** `array_merge` never repeats a key: string keys are overwritten in
      place and integer keys are numbered afresh. */
  lemma ArrayMergeDistinct(a: seq<(Key, Value)>, b: seq<(Key, Value)>)
    ensures Distinct(ArrayMerge(a, b))
  {
    MergeIntoDistinct([], 0, a + b);
  }

  /** The position where `x` first occurs. */
  function FirstIndex(ns: seq<int>, x: int): (i: nat)
    requires x in ns
    ensures i < |ns| && ns[i] == x && x !in ns[..i]
  {
    if x in ns[..|ns| - 1] then FirstIndex(ns[..|ns| - 1], x) else |ns| - 1
  }

  /** `array_unique` on integers: the first occurrence of each value, in
      order (comparing the values' decimal strings, which for integers is
      integer equality). */
  function Unique(ns: seq<int>): (r: seq<int>)
    ensures forall x :: x in r <==> x in ns
    ensures forall i, j :: 0 <= i < j < |r| ==> r[i] != r[j]
    ensures forall i, j :: 0 <= i < j < |r| ==> FirstIndex(ns, r[i]) < FirstIndex(ns, r[j])
  {
    if |ns| == 0 then []
    else
      var p := ns[..|ns| - 1];
      var d := Unique(p);
      assert forall y :: y in p ==> FirstIndex(ns, y) == FirstIndex(p, y);
      if ns[|ns| - 1] in d then d else d + [ns[|ns| - 1]]
  }

  /** A list without repetitions is its own `array_unique`. */
  lemma {:induction false} UniqueOfDistinct(ns: seq<int>)
    requires forall i, j :: 0 <= i < j < |ns| ==> ns[i] != ns[j]
    ensures Unique(ns) == ns
  {
    if |ns| > 0 {
      var p := ns[..|ns| - 1];
      UniqueOfDistinct(p);
      assert ns[|ns| - 1] !in p;
      assert p + [ns[|ns| - 1]] == ns;
    }
  }
}

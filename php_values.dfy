/**
 * PHP values as JSON decoding and WordPress option storage produce them,
 * with the conversions the plugins use: truthiness and `empty`, string and
 * integer casts, array-key coercion and the lookups `isset`, `empty` and
 * `??` perform.
 */
module PhpValues {
  import opened Wrappers
  import opened PhpStrings
  import OrderedMap

  datatype Key = IKey(n: int) | SKey(s: string)

  datatype Value =
    | Null
    | Bool(b: bool)
    | Int(i: int)
    | Str(s: string)
    | Arr(a: seq<(Key, Value)>)

  /** The key a string becomes when used as an array key: a canonical
      decimal integer in the 64-bit range is turned into an integer key. */
  function ArrayKey(s: string): (k: Key)
    ensures k.IKey? <==> IsCanonicalInt(s) && InIntRange(CanonicalValue(s))
    ensures ValidKey(k)
  {
    if IsCanonicalInt(s) && InIntRange(CanonicalValue(s)) then IKey(CanonicalValue(s)) else SKey(s)
  }

  /** A name that starts with a letter is a string key. */
  lemma NameKey(s: string)
    requires |s| > 0 && ('a' <= s[0] <= 'z' || 'A' <= s[0] <= 'Z' || s[0] == '_')
    ensures ArrayKey(s) == SKey(s)
  {
  }

  /** A key converted back to a string, as `foreach` keys are when concatenated. */
  function KeyString(k: Key): string
  {
    match k
    case IKey(n) => Decimal(n)
    case SKey(s) => s
  }

  lemma KeyStringOfArrayKey(s: string)
    ensures KeyString(ArrayKey(s)) == s
  {
    if IsCanonicalInt(s) {
      CanonicalIsDecimal(s);
    }
  }

  /** Distinct strings never collide as array keys. */
  lemma ArrayKeyInjective(s: string, t: string)
    requires ArrayKey(s) == ArrayKey(t)
    ensures s == t
  {
    KeyStringOfArrayKey(s);
    KeyStringOfArrayKey(t);
  }

  /** The keys PHP can produce: an integer key in range, or a string key
      that does not look like one. */
  predicate ValidKey(k: Key)
  {
    match k
    case IKey(n) => InIntRange(n)
    case SKey(s) => !(IsCanonicalInt(s) && InIntRange(CanonicalValue(s)))
  }

  lemma ArrayKeyOfKeyString(k: Key)
    requires ValidKey(k)
    ensures ArrayKey(KeyString(k)) == k
  {
    if k.IKey? {
      DecimalIsCanonical(k.n);
    }
  }

  /** `empty($v)`, and `!$v` in conditions. */
  predicate Empty(v: Value)
  {
    match v
    case Null => true
    case Bool(b) => !b
    case Int(i) => i == 0
    case Str(s) => s == "" || s == "0"
    case Arr(a) => |a| == 0
  }

  predicate Truthy(v: Value)
  {
    !Empty(v)
  }

  /** `(string) $v`; an array converts to "Array" (with a warning). */
  function ToStr(v: Value): string
  {
    match v
    case Null => ""
    case Bool(b) => if b then "1" else ""
    case Int(i) => Decimal(i)
    case Str(s) => s
    case Arr(_) => "Array"
  }

  /** `(int) $v` and `intval($v)`. */
  function IntVal(v: Value): int
  {
    match v
    case Null => 0
    case Bool(b) => if b then 1 else 0
    case Int(i) => i
    case Str(s) => IntValString(s)
    case Arr(a) => if |a| == 0 then 0 else 1
  }

  /** WordPress `absint`: the absolute value of `intval`. */
  function AbsInt(v: Value): nat
  {
    var n := IntVal(v);
    if n < 0 then -n else n
  }

  /** The key `$a[$v] = ...` uses; None when PHP throws "Illegal offset type". */
  function ToKey(v: Value): (k: Option<Key>)
    ensures k.None? <==> v.Arr?
  {
    match v
    case Null => Some(SKey(""))
    case Bool(b) => Some(IKey(if b then 1 else 0))
    case Int(i) => Some(IKey(i))
    case Str(s) => Some(ArrayKey(s))
    case Arr(_) => None
  }

  /** `$v[$k]` as read under `isset`, `empty` and `??`: absent entries, offsets
      into scalars and out-of-range string offsets read as null; a string
      offset reads a one-character string. */
  function Index(v: Value, k: Key): (r: Value)
    ensures v.Arr? && k in OrderedMap.Keys(v.a) ==> (k, r) in v.a
    ensures v.Arr? && k !in OrderedMap.Keys(v.a) ==> r == Null
    ensures !v.Arr? && !v.Str? ==> r == Null
  {
    match v
    case Arr(a) => OrderedMap.Get(a, k).GetOr(Null)
    case Str(s) =>
      if k.IKey? && 0 <= k.n < |s| then Str([s[k.n]])
      else if k.IKey? && -|s| <= k.n < 0 then Str([s[|s| + k.n]])
      else Null
    case _ => Null
  }

  /** `$v['name']` for a literal name. */
  function At(v: Value, name: string): Value
  {
    Index(v, ArrayKey(name))
  }

  /** `$v['name']` for a literal name read outside `isset`, `empty` and
      `??`; None when PHP 8 throws. A string is read at the integer offset
      the name spells, and one whose name is no integer offset throws
      ("Cannot access offset of type string on string"); past either end
      of the string the read gives "" with a warning. Any other container
      reads as `At` does, with a warning where that reads null. */
  function ReadDim(v: Value, name: string): (r: Option<Value>)
    ensures !v.Str? ==> r == Some(At(v, name))
    ensures v.Str? ==> (r.None? <==> OffsetOfString(name).None?)
    ensures v.Str? && r.Some? ==>
      var c := Index(v, IKey(OffsetOfString(name).value));
      r.value == (if c == Null then Str("") else c)
  {
    match v
    case Str(s) =>
      (match OffsetOfString(name)
       case None => None
       case Some(n) =>
         if 0 <= n < |s| then Some(Str([s[n]]))
         else if -|s| <= n < 0 then Some(Str([s[|s| + n]]))
         else Some(Str("")))
    case _ => Some(At(v, name))
  }

  /** A plain read at a name such as `id` throws on a string and is the
      `isset` read on anything else. */
  lemma ReadName(v: Value, name: string)
    requires |name| > 0 && ('a' <= name[0] <= 'z' || 'A' <= name[0] <= 'Z' || name[0] == '_')
    ensures ReadDim(v, name) == if v.Str? then None else Some(Index(v, SKey(name)))
  {
    NameKey(name);
    NameIsNoOffset(name);
  }

  /** `$settings[$key] ?? $default` read from an array: the value, or the default when the key is absent or null. */
  function Lookup(settings: seq<(Key, Value)>, key: string, default: Value): (r: Value)
    ensures OrderedMap.Get(settings, ArrayKey(key)).Some? && OrderedMap.Get(settings, ArrayKey(key)).value != Null ==>
      r == OrderedMap.Get(settings, ArrayKey(key)).value
    ensures OrderedMap.Get(settings, ArrayKey(key)).None? || OrderedMap.Get(settings, ArrayKey(key)).value == Null ==> r == default
  {
    var v := At(Arr(settings), key);
    if v == Null then default else v
  }

  /** Reading a named entry of an array without repeated keys. */
  lemma LookupAt(settings: seq<(Key, Value)>, i: nat, name: string, default: Value)
    requires OrderedMap.Distinct(settings) && i < |settings|
    requires settings[i].0 == SKey(name) && settings[i].1 != Null
    requires |name| > 0 && ('a' <= name[0] <= 'z' || 'A' <= name[0] <= 'Z' || name[0] == '_')
    ensures Lookup(settings, name, default) == settings[i].1
  {
    NameKey(name);
    OrderedMap.GetAt(settings, i);
  }

  /** `isset($v[$k])`. */
  predicate IsSet(v: Value, k: Key)
  {
    Index(v, k) != Null
  }

  /** The entries `foreach ($v as $k => $x)` visits: none for a non-array. */
  function Elements(v: Value): seq<(Key, Value)>
  {
    if v.Arr? then v.a else []
  }

  /** `(array) $v`. */
  function ArrayCast(v: Value): seq<(Key, Value)>
  {
    match v
    case Null => []
    case Arr(a) => a
    case _ => [(IKey(0), v)]
  }

  /** A PHP list: the values, keyed 0, 1, 2, ... */
  function List(vs: seq<Value>): (r: seq<(Key, Value)>)
    ensures |r| == |vs|
    ensures forall i :: 0 <= i < |vs| ==> r[i] == (IKey(i), vs[i])
  {
    seq(|vs|, i requires 0 <= i < |vs| => (IKey(i), vs[i]))
  }

  lemma ListDistinct(vs: seq<Value>)
    ensures OrderedMap.Distinct(List(vs))
  {
  }

  /** A list of integers as a PHP value. */
  function IntList(ns: seq<int>): (v: Value)
    ensures v.Arr? && |v.a| == |ns|
    ensures forall i :: 0 <= i < |ns| ==> v.a[i] == (IKey(i), Int(ns[i]))
  {
    Arr(List(seq(|ns|, i requires 0 <= i < |ns| => Int(ns[i]))))
  }

  /** The offset of a write into a string with key value `k` (PHP 8): an
      integer as it is, a bool or null cast to an integer (with a warning),
      a string as `OffsetOfString` reads it. None when PHP throws: an array,
      or a string that is not an integer. */
  function StringOffset(k: Value): (r: Option<int>)
    ensures k.Int? ==> r == Some(k.i)
    ensures k.Str? ==> r == OffsetOfString(k.s)
    ensures k.Arr? ==> r.None?
    ensures r.Some? && !k.Str? ==> r.value == IntVal(k)
  {
    match k
    case Int(i) => Some(i)
    case Bool(b) => Some(if b then 1 else 0)
    case Null => Some(0)
    case Str(s) => OffsetOfString(s)
    case Arr(_) => None
  }

  /** `$s[$off] = $v` on a string (PHP 8): the first character of
      `(string) $v` replaces the one at `off`, counted from the end when
      `off` is negative; past the end the string is first padded with
      spaces. An offset before the start only warns and writes nothing; an
      empty `(string) $v` throws (None). */
  function WriteOffset(s: string, off: int, v: Value): (r: Option<string>)
    ensures off < -|s| ==> r == Some(s)
    ensures off >= -|s| ==> (r.None? <==> ToStr(v) == "")
    ensures r.Some? && off >= -|s| ==>
      var p := if off < 0 then off + |s| else off;
      |r.value| == (if p < |s| then |s| else p + 1) &&
      r.value[p] == ToStr(v)[0] &&
      (forall j :: 0 <= j < |s| && j != p ==> r.value[j] == s[j]) &&
      (forall j :: |s| <= j < p ==> r.value[j] == ' ')
  {
    if off < -|s| then Some(s)
    else
      var p := if off < 0 then off + |s| else off;
      var t := ToStr(v);
      if t == "" then None
      else if p < |s| then Some(s[p := t[0]])
      else Some(s + Spaces(p - |s|) + [t[0]])
  }

  /** `$a[$k] = $v` on a value `target`, with `key` the value of `$k` as
      written (PHP 8). An array is written at the key `key` becomes, null
      and false become a one-entry array, a string has one character
      written (`WriteOffset`). None when PHP throws: an array as the key,
      `true` or a number as the target ("Cannot use a scalar value as an
      array"), or a failed string write. */
  function SetIndex(target: Value, key: Value, v: Value): (r: Option<Value>)
    ensures key.Arr? ==> r.None?
    ensures target.Int? || target == Bool(true) ==> r.None?
    ensures target.Arr? && !key.Arr? ==> r == Some(Arr(OrderedMap.Put(target.a, ToKey(key).value, v)))
    ensures (target == Null || target == Bool(false)) && !key.Arr? ==> r == Some(Arr([(ToKey(key).value, v)]))
    ensures target.Str? ==>
      (r.Some? <==> StringOffset(key).Some? && WriteOffset(target.s, StringOffset(key).value, v).Some?)
    ensures target.Str? && r.Some? ==> r.value == Str(WriteOffset(target.s, StringOffset(key).value, v).value)
  {
    match target
    case Arr(a) =>
      (match ToKey(key)
       case None => None
       case Some(k) => Some(Arr(OrderedMap.Put(a, k, v))))
    case Null => (match ToKey(key) case None => None case Some(k) => Some(Arr([(k, v)])))
    case Bool(b) =>
      if b then None
      else (match ToKey(key) case None => None case Some(k) => Some(Arr([(k, v)])))
    case Str(s) =>
      (match StringOffset(key)
       case None => None
       case Some(off) => (match WriteOffset(s, off, v) case None => None case Some(w) => Some(Str(w))))
    case Int(_) => None
  }

  /** Writing a named entry into an array. */
  lemma SetIndexName(a: seq<(Key, Value)>, name: string, v: Value)
    requires |name| > 0 && ('a' <= name[0] <= 'z' || 'A' <= name[0] <= 'Z' || name[0] == '_')
    ensures SetIndex(Arr(a), Str(name), v) == Some(Arr(OrderedMap.Put(a, SKey(name), v)))
  {
    NameKey(name);
  }
}

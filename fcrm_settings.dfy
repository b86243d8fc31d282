/**
 * The settings service of the Facebook Leads for FluentCRM plugin
 * (`facebook-leads-fluentcrm/includes/Services/Settings.php`): one option
 * array holding the webhook secret, the default list and tag ids, the
 * field mappings and the logging switch, and the sanitizers every write
 * goes through. The file declares `strict_types`, so a list, tag or
 * mapping field that is neither a string nor an array makes the typed
 * sanitizers throw.
 */
module FcrmSettings {
  import opened Wrappers
  import opened PhpStrings
  import opened PhpValues
  import opened OrderedMap
  import opened PhpArrays
  import opened WordPress

  /** The array `ensure_defaults` writes, around the generated secret. */
  function DefaultsFor(secret: string): seq<(Key, Value)>
  {
    [ (SKey("webhook_secret"), Str(secret)),
      (SKey("default_lists"), Arr([])),
      (SKey("default_tags"), Arr([])),
      (SKey("field_mappings"), Arr([])),
      (SKey("logging_enabled"), Bool(true)) ]
  }

  /** Fresh defaults hold the secret, no lists, tags or mappings, and
      logging switched on. */
  lemma DefaultsDistinct(secret: string)
    ensures Distinct(DefaultsFor(secret))
  {
  }

  lemma DefaultsGet(secret: string)
    ensures Distinct(DefaultsFor(secret))
    ensures Lookup(DefaultsFor(secret), "webhook_secret", Null) == Str(secret)
    ensures Lookup(DefaultsFor(secret), "default_lists", Null) == Arr([])
    ensures Lookup(DefaultsFor(secret), "default_tags", Null) == Arr([])
    ensures Lookup(DefaultsFor(secret), "field_mappings", Null) == Arr([])
    ensures Lookup(DefaultsFor(secret), "logging_enabled", Null) == Bool(true)
  {
    var d := DefaultsFor(secret);
    DefaultsDistinct(secret);
    LookupAt(d, 0, "webhook_secret", Null);
    LookupAt(d, 1, "default_lists", Null);
    LookupAt(d, 2, "default_tags", Null);
    LookupAt(d, 3, "field_mappings", Null);
    LookupAt(d, 4, "logging_enabled", Null);
  }

  /** What `get_option(KEY, [])` gives `get_settings`: the stored array, or
      `[]` when the option is missing or not an array. */
  function StoredOf(option: Option<Value>): seq<(Key, Value)>
  {
    if option.Some? && option.value.Arr? then option.value.a else []
  }

  // ---------------------------------------------------------------- ids

  /** `array_filter(array_map('trim', explode(',', $value)))`: the trimmed
      pieces, without those PHP counts as empty ("" and "0"). */
  function TrimmedPieces(parts: seq<string>): (r: seq<Value>)
    ensures forall j :: 0 <= j < |r| ==> r[j].Str? && Truthy(r[j])
  {
    if |parts| == 0 then []
    else
      var p := Str(Trim(parts[0]));
      (if Truthy(p) then [p] else []) + TrimmedPieces(parts[1..])
  }

  /** The candidates `sanitize_ids` walks: an array's values, or the pieces
      of a comma-separated string. */
  function RawIds(value: Value): seq<Value>
    requires value.Str? || value.Arr?
  {
    if value.Arr? then Values(value.a) else TrimmedPieces(Explode(',', value.s))
  }

  /** `absint((string) $id)`. */
  function IdOf(id: Value): nat
  {
    AbsInt(Str(ToStr(id)))
  }

  /** The `absint` of every candidate. */
  function AllIds(raw: seq<Value>): (ns: seq<nat>)
    ensures |ns| == |raw| && forall j :: 0 <= j < |raw| ==> ns[j] == IdOf(raw[j])
  {
    seq(|raw|, j requires 0 <= j < |raw| => IdOf(raw[j]))
  }

  /** The positive numbers of a list, in order, repeats kept. */
  function Positive(ns: seq<int>): seq<int>
  {
    if |ns| == 0 then []
    else Positive(ns[..|ns| - 1]) + (if ns[|ns| - 1] > 0 then [ns[|ns| - 1]] else [])
  }

  /** The numbers kept are exactly the positive ones of the list. */
  lemma {:induction false} PositiveMembers(ns: seq<int>)
    ensures forall x :: x in Positive(ns) <==> x > 0 && x in ns
  {
    if |ns| > 0 {
      var init := ns[..|ns| - 1];
      PositiveMembers(init);
      assert ns == init + [ns[|ns| - 1]];
    }
  }

  /** A list of positive numbers is kept whole. */
  lemma {:induction false} PositiveOfPositive(ns: seq<int>)
    requires forall i :: 0 <= i < |ns| ==> ns[i] > 0
    ensures Positive(ns) == ns
  {
    if |ns| > 0 {
      PositiveOfPositive(ns[..|ns| - 1]);
      assert ns == ns[..|ns| - 1] + [ns[|ns| - 1]];
    }
  }

  /** The ids `sanitize_ids` keeps: each positive `absint` of a candidate,
      once, in the order it first appears. */
  function IdsOf(value: Value): (ids: seq<int>)
    requires value.Str? || value.Arr?
    ensures forall x :: x in ids <==> x > 0 && x in AllIds(RawIds(value))
    ensures forall i, j :: 0 <= i < j < |ids| ==> ids[i] != ids[j]
  {
    PositiveMembers(AllIds(RawIds(value)));
    Unique(Positive(AllIds(RawIds(value))))
  }

  /** One more number of the list adds it when it is positive. */
  lemma PositiveStep(ns: seq<int>, i: nat)
    requires i < |ns|
    ensures Positive(ns[..i + 1]) == Positive(ns[..i]) + (if ns[i] > 0 then [ns[i]] else [])
  {
    assert ns[..i + 1][..i] == ns[..i];
  }

  /** `sanitize_ids($value)`. */
  method SanitizeIds(value: Value) returns (r: Value)
    requires value.Str? || value.Arr?
    ensures r == IntList(IdsOf(value))
  {
    var raw := RawIds(value);
    ghost var all := AllIds(raw);
    var ids: seq<int> := [];
    var i := 0;
    while i < |raw|
      invariant 0 <= i <= |raw|
      invariant ids == Positive(all[..i])
    {
      var n := IdOf(raw[i]);
      assert ids + (if n > 0 then [n] else []) == Positive(all[..i + 1]) by {
        assert all[i] == n;
        PositiveStep(all, i);
      }
      if n > 0 {
        ids := ids + [n];
      }
      i := i + 1;
    }
    assert all[..|raw|] == all;
    r := IntList(Unique(ids));
  }

  /** The decimal string of a positive id is a non-empty trimmed piece
      without a comma, whose `absint` is the id again. */
  lemma DecimalId(n: int)
    requires 0 < n <= PHP_INT_MAX
    ensures Decimal(n) == NatDecimal(n) && |Decimal(n)| > 0
    ensures ',' !in Decimal(n) && Trimmed(Decimal(n)) && Truthy(Str(Decimal(n)))
    ensures IdOf(Str(Decimal(n))) == n && IdOf(Int(n)) == n
  {
    var d := NatDecimal(n);
    assert Decimal(n) == d;
    assert Trimmed(d) by {
      DigitNotTrim(d[0]);
      DigitNotTrim(d[|d| - 1]);
    }
    assert Truthy(Str(d)) by {
      assert d[0] != '0';
    }
    assert ',' !in d by {
      forall j | 0 <= j < |d| ensures d[j] != ',' {
        DigitNotTrim(d[j]);
      }
    }
    assert IdOf(Str(d)) == n && IdOf(Int(n)) == n by {
      IntValOfDecimal(n);
    }
  }

  /** The decimal strings of a list of ids. */
  function Decimals(ids: seq<int>): (ds: seq<string>)
    ensures |ds| == |ids| && forall i :: 0 <= i < |ids| ==> ds[i] == Decimal(ids[i])
  {
    seq(|ids|, i requires 0 <= i < |ids| => Decimal(ids[i]))
  }

  /** Pieces that are trimmed and non-empty in PHP's sense are kept as
      they are. */
  lemma {:induction false} TrimmedPiecesOfTrimmed(parts: seq<string>)
    requires forall i :: 0 <= i < |parts| ==> Trimmed(parts[i]) && Truthy(Str(parts[i]))
    ensures TrimmedPieces(parts) == seq(|parts|, i requires 0 <= i < |parts| => Str(parts[i]))
  {
    if |parts| > 0 {
      TrimOfTrimmed(parts[0]);
      TrimmedPiecesOfTrimmed(parts[1..]);
      assert TrimmedPieces(parts) == [Str(parts[0])] + TrimmedPieces(parts[1..]);
    }
  }

  /** A list of distinct positive ids, written out comma-separated, reads
      back as the same list. */
  lemma IdsOfDecimals(ids: seq<int>)
    requires forall i :: 0 <= i < |ids| ==> 0 < ids[i] <= PHP_INT_MAX
    requires forall i, j :: 0 <= i < j < |ids| ==> ids[i] != ids[j]
    ensures IdsOf(Str(Implode(",", Decimals(ids)))) == ids
  {
    var raw := RawIds(Str(Implode(",", Decimals(ids))));
    assert AllIds(raw) == ids by {
      RawIdsOfDecimals(ids);
      forall i | 0 <= i < |raw| ensures AllIds(raw)[i] == ids[i] {
        DecimalId(ids[i]);
      }
    }
    assert Positive(ids) == ids by {
      PositiveOfPositive(ids);
    }
    UniqueOfDistinct(ids);
  }

  /** The pieces of a joined list of positive ids are its decimals. */
  lemma RawIdsOfDecimals(ids: seq<int>)
    requires forall i :: 0 <= i < |ids| ==> 0 < ids[i] <= PHP_INT_MAX
    ensures var ds := Decimals(ids);
      RawIds(Str(Implode(",", ds))) == seq(|ds|, i requires 0 <= i < |ds| => Str(ds[i]))
  {
    var ds := Decimals(ids);
    if |ids| == 0 {
      ExplodeWithout(',', "", "");
    } else {
      assert Explode(',', Implode(",", ds)) == ds by {
        forall i | 0 <= i < |ds| ensures ',' !in ds[i] {
          DecimalId(ids[i]);
        }
        ExplodeImplode(',', ds);
      }
      forall i | 0 <= i < |ds| ensures Trimmed(ds[i]) && Truthy(Str(ds[i])) {
        DecimalId(ids[i]);
      }
      TrimmedPiecesOfTrimmed(ds);
    }
  }

  /** Sanitizing a sanitized id list again changes nothing (for ids up to
      `PHP_INT_MAX`). */
  lemma IdsIdempotent(value: Value)
    requires value.Str? || value.Arr?
    requires forall x :: x in IdsOf(value) ==> x <= PHP_INT_MAX
    ensures IdsOf(IntList(IdsOf(value))) == IdsOf(value)
  {
    var ids := IdsOf(value);
    var raw := RawIds(IntList(ids));
    forall i | 0 <= i < |raw| ensures IdOf(raw[i]) == ids[i] && ids[i] > 0 {
      assert ids[i] in ids;
      DecimalId(ids[i]);
    }
    assert AllIds(raw) == ids;
    PositiveOfPositive(ids);
    UniqueOfDistinct(ids);
  }

  // ----------------------------------------------------------- mappings

  /** One line of the textarea form: `source=target` cut at the first '=',
      both sides trimmed and cleaned, both non-empty; a blank line or a
      line without '=' gives nothing. */
  function LineEntry(san: Sanitizers, line: string): (r: Option<(Key, Value)>)
    ensures r.Some? ==> r.value.1.Str? && r.value.1.s != ""
  {
    if Trim(line) == "" then None
    else match SplitFirst('=', line)
      case None => None
      case Some(parts) =>
        var source := san.text(Trim(parts.0));
        var target := san.text(Trim(parts.1));
        if source != "" && target != "" then Some((ArrayKey(source), Str(target))) else None
  }

  /** One `$source => $target` pair of the array form, both cast to string
      and cleaned, both non-empty. */
  function PairEntry(san: Sanitizers, pair: (Key, Value)): (r: Option<(Key, Value)>)
    ensures r.Some? ==> r.value.1.Str? && r.value.1.s != ""
  {
    var s := san.text(KeyString(pair.0));
    var t := san.text(ToStr(pair.1));
    if s != "" && t != "" then Some((ArrayKey(s), Str(t))) else None
  }

  /** What each line or pair gives, in order. */
  function MappingSteps(san: Sanitizers, value: Value): (steps: seq<Option<(Key, Value)>>)
    requires value.Str? || value.Arr?
    ensures value.Str? ==> (|steps| == |SplitLines(value.s)| &&
      forall i :: 0 <= i < |steps| ==> steps[i] == LineEntry(san, SplitLines(value.s)[i]))
    ensures value.Arr? ==> (|steps| == |value.a| &&
      forall i :: 0 <= i < |steps| ==> steps[i] == PairEntry(san, value.a[i]))
  {
    if value.Str? then
      var lines := SplitLines(value.s);
      seq(|lines|, i requires 0 <= i < |lines| => LineEntry(san, lines[i]))
    else
      seq(|value.a|, i requires 0 <= i < |value.a| => PairEntry(san, value.a[i]))
  }

  /** The entries `sanitize_mappings` writes, in order. */
  function MappingEntries(san: Sanitizers, value: Value): (es: seq<(Key, Value)>)
    requires value.Str? || value.Arr?
    ensures forall i :: 0 <= i < |es| ==> es[i].1.Str? && es[i].1.s != ""
  {
    var es := Somes(MappingSteps(san, value));
    assert forall i :: 0 <= i < |es| ==> Some(es[i]) in MappingSteps(san, value);
    es
  }

  /** `sanitize_mappings($value)`: a later mapping of the same source
      overwrites an earlier one in place. */
  function MappingsOf(san: Sanitizers, value: Value): (m: seq<(Key, Value)>)
    requires value.Str? || value.Arr?
    ensures Distinct(m)
    ensures forall k :: Get(m, k) == LastValue(MappingEntries(san, value), k)
    ensures forall i :: 0 <= i < |m| ==> m[i].1.Str? && m[i].1.s != ""
  {
    var es := MappingEntries(san, value);
    PutAllKeys([], es);
    forall k ensures Get(PutAll([], es), k) == LastValue(es, k) {
      GetPutAll([], es, k);
    }
    var m := PutAll([], es);
    forall i | 0 <= i < |m| ensures m[i].1.Str? && m[i].1.s != "" {
      GetAt(m, i);
      GetPutAll([], es, m[i].0);
      var j :| 0 <= j < |es| && es[j] == (m[i].0, LastValue(es, m[i].0).value);
    }
    m
  }

  /** `sanitize_mappings($value)`. */
  method SanitizeMappings(san: Sanitizers, value: Value) returns (maps: seq<(Key, Value)>)
    requires value.Str? || value.Arr?
    ensures maps == MappingsOf(san, value)
  {
    ghost var steps := MappingSteps(san, value);
    maps := [];
    var i := 0;
    if value.Str? {
      var lines := SplitLines(value.s);
      while i < |lines|
        invariant 0 <= i <= |lines|
        invariant PutAll(maps, Somes(steps[i..])) == MappingsOf(san, value)
      {
        var e := LineEntry(san, lines[i]);
        ghost var rest := Somes(steps[i + 1..]);
        assert e == steps[i];
        assert Somes(steps[i..]) == (if e.Some? then [e.value] else []) + rest by {
          assert steps[i..][0] == steps[i] && steps[i..][1..] == steps[i + 1..];
        }
        if e.Some? {
          assert ([e.value] + rest)[0] == e.value && ([e.value] + rest)[1..] == rest;
          maps := Put(maps, e.value.0, e.value.1);
        } else {
          assert [] + rest == rest;
        }
        i := i + 1;
      }
    } else {
      var pairs := value.a;
      while i < |pairs|
        invariant 0 <= i <= |pairs|
        invariant PutAll(maps, Somes(steps[i..])) == MappingsOf(san, value)
      {
        var e := PairEntry(san, pairs[i]);
        ghost var rest := Somes(steps[i + 1..]);
        assert e == steps[i];
        assert Somes(steps[i..]) == (if e.Some? then [e.value] else []) + rest by {
          assert steps[i..][0] == steps[i] && steps[i..][1..] == steps[i + 1..];
        }
        if e.Some? {
          assert ([e.value] + rest)[0] == e.value && ([e.value] + rest)[1..] == rest;
          maps := Put(maps, e.value.0, e.value.1);
        } else {
          assert [] + rest == rest;
        }
        i := i + 1;
      }
    }
    assert steps[i..] == [];
  }

  /** The blank-line test is redundant: a line that trims to "" holds no
      '=' and would give nothing anyway. */
  lemma BlankLineHasNoSeparator(line: string)
    requires Trim(line) == ""
    ensures '=' !in line
  {
    var l := TrimLeft(line);
    assert |l| == 0;
    forall i | 0 <= i < |line| ensures line[i] != '=' {
      assert IsTrimChar(line[i]);
    }
  }

  /** The cleaner, taken to leave its own output alone. */
  ghost predicate Idempotent(san: Sanitizers)
  {
    forall x :: san.text(san.text(x)) == san.text(x)
  }

  /** An entry whose key and target the cleaner leaves alone, with a valid
      non-empty key. */
  predicate CleanEntry(san: Sanitizers, e: (Key, Value))
  {
    e.1.Str? && san.text(e.1.s) == e.1.s &&
    ValidKey(e.0) && KeyString(e.0) != "" && san.text(KeyString(e.0)) == KeyString(e.0)
  }

  lemma LineEntryCleaned(san: Sanitizers, line: string)
    requires Idempotent(san)
    requires LineEntry(san, line).Some?
    ensures CleanEntry(san, LineEntry(san, line).value)
  {
    var parts := SplitFirst('=', line).value;
    KeyStringOfArrayKey(san.text(Trim(parts.0)));
  }

  lemma PairEntryCleaned(san: Sanitizers, pair: (Key, Value))
    requires Idempotent(san)
    requires PairEntry(san, pair).Some?
    ensures CleanEntry(san, PairEntry(san, pair).value)
  {
    KeyStringOfArrayKey(san.text(KeyString(pair.0)));
  }

  /** A clean entry passes the array form unchanged. */
  lemma PairEntryOfClean(san: Sanitizers, e: (Key, Value))
    requires CleanEntry(san, e) && e.1.s != ""
    ensures PairEntry(san, e) == Some(e)
  {
    ArrayKeyOfKeyString(e.0);
  }

  /** Every stored mapping is clean. */
  lemma MappingsCleaned(san: Sanitizers, value: Value, i: nat)
    requires value.Str? || value.Arr?
    requires Idempotent(san)
    requires i < |MappingsOf(san, value)|
    ensures CleanEntry(san, MappingsOf(san, value)[i])
  {
    var m := MappingsOf(san, value);
    var es := MappingEntries(san, value);
    var steps := MappingSteps(san, value);
    var n: nat :| n < |steps| && steps[n] == Some(m[i]) by {
      GetAt(m, i);
      var j :| 0 <= j < |es| && es[j] == (m[i].0, LastValue(es, m[i].0).value);
      assert Some(es[j]) in steps;
    }
    if value.Str? {
      LineEntryCleaned(san, SplitLines(value.s)[n]);
    } else {
      PairEntryCleaned(san, value.a[n]);
    }
  }

  /** Sanitizing the stored mappings again changes nothing, when the
      cleaner leaves its own output alone. */
  lemma MappingsIdempotent(san: Sanitizers, value: Value)
    requires value.Str? || value.Arr?
    requires Idempotent(san)
    ensures MappingsOf(san, Arr(MappingsOf(san, value))) == MappingsOf(san, value)
  {
    var m := MappingsOf(san, value);
    var steps := MappingSteps(san, Arr(m));
    forall i | 0 <= i < |m| ensures steps[i] == Some(m[i]) {
      MappingsCleaned(san, value, i);
      PairEntryOfClean(san, m[i]);
    }
    SomesAllPresent(steps, m);
    PutAllFresh([], m);
  }

  // ----------------------------------------------------------- sanitize

  /** `$data[$name] = $v` when the part is written. */
  function PutOpt(m: seq<(Key, Value)>, name: string, v: Option<Value>): seq<(Key, Value)>
  {
    if v.Some? then Put(m, SKey(name), v.value) else m
  }

  lemma GetPutOpt(m: seq<(Key, Value)>, name: string, v: Option<Value>, k: Key)
    ensures Get(PutOpt(m, name, v), k) == if k == SKey(name) && v.Some? then v else Get(m, k)
    ensures Distinct(m) ==> Distinct(PutOpt(m, name, v))
  {
    if v.Some? {
      GetPut(m, SKey(name), v.value, k);
      if Distinct(m) {
        DistinctPut(m, SKey(name), v.value);
      }
    }
  }

  /** The array `sanitize` builds, from the parts it writes, in the order
      it writes them. */
  function Sanitized(secret: Option<Value>, logging: bool, lists: Option<Value>, tags: Option<Value>,
                     maps: Option<Value>): seq<(Key, Value)>
  {
    var d1 := PutOpt([], "webhook_secret", secret);
    var d2 := Put(d1, SKey("logging_enabled"), Bool(logging));
    PutOpt(PutOpt(PutOpt(d2, "default_lists", lists), "default_tags", tags), "field_mappings", maps)
  }

  /** The five names `sanitize` may write. */
  predicate IsFieldName(s: string)
  {
    s == "webhook_secret" || s == "logging_enabled" || s == "default_lists" ||
    s == "default_tags" || s == "field_mappings"
  }

  /** `Sanitized` holds exactly the parts given, under their names. */
  lemma SanitizedGet(secret: Option<Value>, logging: bool, lists: Option<Value>, tags: Option<Value>,
                     maps: Option<Value>, k: Key)
    ensures Distinct(Sanitized(secret, logging, lists, tags, maps))
    ensures Get(Sanitized(secret, logging, lists, tags, maps), k) ==
      if k == SKey("webhook_secret") then secret
      else if k == SKey("logging_enabled") then Some(Bool(logging))
      else if k == SKey("default_lists") then lists
      else if k == SKey("default_tags") then tags
      else if k == SKey("field_mappings") then maps
      else None
  {
    var d1 := PutOpt([], "webhook_secret", secret);
    var d2 := Put(d1, SKey("logging_enabled"), Bool(logging));
    var d3 := PutOpt(d2, "default_lists", lists);
    var d4 := PutOpt(d3, "default_tags", tags);
    GetPutOpt([], "webhook_secret", secret, k);
    GetPut(d1, SKey("logging_enabled"), Bool(logging), k);
    DistinctPut(d1, SKey("logging_enabled"), Bool(logging));
    GetPutOpt(d2, "default_lists", lists, k);
    GetPutOpt(d3, "default_tags", tags, k);
    GetPutOpt(d4, "field_mappings", maps, k);
  }

  /** A field the typed sanitizers accept: unset, a string or an array. */
  predicate Accepted(v: Value)
  {
    v == Null || v.Str? || v.Arr?
  }

  /** `sanitize($values)`; None when a list, tag or mapping field holds
      neither a string nor an array, so that PHP throws a TypeError. */
  function SanitizeOf(san: Sanitizers, values: seq<(Key, Value)>): (r: Option<seq<(Key, Value)>>)
    ensures r.None? <==>
      !Accepted(At(Arr(values), "default_lists")) || !Accepted(At(Arr(values), "default_tags")) ||
      !Accepted(At(Arr(values), "field_mappings"))
  {
    var v := Arr(values);
    var lists := At(v, "default_lists");
    var tags := At(v, "default_tags");
    var maps := At(v, "field_mappings");
    if !Accepted(lists) || !Accepted(tags) || !Accepted(maps) then None
    else
      Some(Sanitized(SecretPart(san, At(v, "webhook_secret")), Truthy(At(v, "logging_enabled")),
                     IdsPart(lists), IdsPart(tags), MappingsPart(san, maps)))
  }

  /** The cleaned secret `sanitize` writes, when one is given. */
  function SecretPart(san: Sanitizers, secret: Value): Option<Value>
  {
    if secret != Null then Some(Str(san.text(ToStr(secret)))) else None
  }

  /** The id list `sanitize` writes for a list or tag field, when given. */
  function IdsPart(v: Value): Option<Value>
    requires Accepted(v)
  {
    if v != Null then Some(IntList(IdsOf(v))) else None
  }

  /** The mappings `sanitize` writes, when given. */
  function MappingsPart(san: Sanitizers, v: Value): Option<Value>
    requires Accepted(v)
  {
    if v != Null then Some(Arr(MappingsOf(san, v))) else None
  }

  /** What `sanitize` writes under each name: the cleaned secret and the
      sanitized lists, tags and mappings when given, the logging switch
      always, and nothing else. */
  lemma SanitizeGet(san: Sanitizers, values: seq<(Key, Value)>, k: Key)
    requires SanitizeOf(san, values).Some?
    ensures Distinct(SanitizeOf(san, values).value)
    ensures var v := Arr(values);
      Get(SanitizeOf(san, values).value, k) ==
      if k == SKey("webhook_secret") then
        (if At(v, "webhook_secret") != Null then Some(Str(san.text(ToStr(At(v, "webhook_secret"))))) else None)
      else if k == SKey("logging_enabled") then Some(Bool(Truthy(At(v, "logging_enabled"))))
      else if k == SKey("default_lists") then
        (if At(v, "default_lists") != Null then Some(IntList(IdsOf(At(v, "default_lists")))) else None)
      else if k == SKey("default_tags") then
        (if At(v, "default_tags") != Null then Some(IntList(IdsOf(At(v, "default_tags")))) else None)
      else if k == SKey("field_mappings") then
        (if At(v, "field_mappings") != Null then Some(Arr(MappingsOf(san, At(v, "field_mappings")))) else None)
      else None
  {
    var v := Arr(values);
    var secret := At(v, "webhook_secret");
    var lists := At(v, "default_lists");
    var tags := At(v, "default_tags");
    var maps := At(v, "field_mappings");
    SanitizedGet(
      if secret != Null then Some(Str(san.text(ToStr(secret)))) else None,
      Truthy(At(v, "logging_enabled")),
      if lists != Null then Some(IntList(IdsOf(lists))) else None,
      if tags != Null then Some(IntList(IdsOf(tags))) else None,
      if maps != Null then Some(Arr(MappingsOf(san, maps))) else None, k);
  }

  /** The ids of a field that sanitize may emit are at most `PHP_INT_MAX`
      (only `absint(PHP_INT_MIN)` is larger). */
  predicate IdsInRange(v: Value)
  {
    (v.Str? || v.Arr?) ==> forall x :: x in IdsOf(v) ==> x <= PHP_INT_MAX
  }

  /** Reading the built array by name gives back each part (null when
      it was not written). */
  lemma SanitizedAt(S: Option<Value>, L: bool, Li: Option<Value>, T: Option<Value>, M: Option<Value>)
    ensures At(Arr(Sanitized(S, L, Li, T, M)), "webhook_secret") == S.GetOr(Null)
    ensures At(Arr(Sanitized(S, L, Li, T, M)), "logging_enabled") == Bool(L)
    ensures At(Arr(Sanitized(S, L, Li, T, M)), "default_lists") == Li.GetOr(Null)
    ensures At(Arr(Sanitized(S, L, Li, T, M)), "default_tags") == T.GetOr(Null)
    ensures At(Arr(Sanitized(S, L, Li, T, M)), "field_mappings") == M.GetOr(Null)
  {
    NameKey("webhook_secret");
    NameKey("logging_enabled");
    NameKey("default_lists");
    NameKey("default_tags");
    NameKey("field_mappings");
    SanitizedGet(S, L, Li, T, M, SKey("webhook_secret"));
    SanitizedGet(S, L, Li, T, M, SKey("logging_enabled"));
    SanitizedGet(S, L, Li, T, M, SKey("default_lists"));
    SanitizedGet(S, L, Li, T, M, SKey("default_tags"));
    SanitizedGet(S, L, Li, T, M, SKey("field_mappings"));
  }

  /** An array built from parts that are already clean sanitizes to
      itself. */
  lemma SanitizeOfSanitized(san: Sanitizers, S: Option<Value>, L: bool, Li: Option<Value>, T: Option<Value>,
                            M: Option<Value>)
    requires S.Some? ==> S.value.Str? && san.text(S.value.s) == S.value.s
    requires Li.Some? ==> Li.value.Arr? && Li == Some(IntList(IdsOf(Li.value)))
    requires T.Some? ==> T.value.Arr? && T == Some(IntList(IdsOf(T.value)))
    requires M.Some? ==> M.value.Arr? && M == Some(Arr(MappingsOf(san, M.value)))
    ensures SanitizeOf(san, Sanitized(S, L, Li, T, M)) == Some(Sanitized(S, L, Li, T, M))
  {
    var w := Sanitized(S, L, Li, T, M);
    SanitizedAt(S, L, Li, T, M);
    var secret, lists, tags, maps := S.GetOr(Null), Li.GetOr(Null), T.GetOr(Null), M.GetOr(Null);
    assert Accepted(lists) && Accepted(tags) && Accepted(maps);
    assert (if secret != Null then Some(Str(san.text(ToStr(secret)))) else None) == S;
    assert (if lists != Null then Some(IntList(IdsOf(lists))) else None) == Li;
    assert (if tags != Null then Some(IntList(IdsOf(tags))) else None) == T;
    assert (if maps != Null then Some(Arr(MappingsOf(san, maps))) else None) == M;
    assert Truthy(Bool(L)) == L;
  }

  /** Sanitizing a sanitized settings array again gives it back: this is
      what happens when the registered sanitize callback sees the array
      `update` writes. */
  lemma SanitizeIdempotent(san: Sanitizers, values: seq<(Key, Value)>)
    requires Idempotent(san)
    requires SanitizeOf(san, values).Some?
    requires IdsInRange(At(Arr(values), "default_lists")) && IdsInRange(At(Arr(values), "default_tags"))
    ensures SanitizeOf(san, SanitizeOf(san, values).value) == SanitizeOf(san, values)
  {
    var v := Arr(values);
    var secret := At(v, "webhook_secret");
    var lists := At(v, "default_lists");
    var tags := At(v, "default_tags");
    var maps := At(v, "field_mappings");
    if lists != Null {
      IdsIdempotent(lists);
    }
    if tags != Null {
      IdsIdempotent(tags);
    }
    if maps != Null {
      MappingsIdempotent(san, maps);
    }
    SanitizeOfSanitized(san,
      if secret != Null then Some(Str(san.text(ToStr(secret)))) else None,
      Truthy(At(v, "logging_enabled")),
      if lists != Null then Some(IntList(IdsOf(lists))) else None,
      if tags != Null then Some(IntList(IdsOf(tags))) else None,
      if maps != Null then Some(Arr(MappingsOf(san, maps))) else None);
  }

  // ----------------------------------------------------------- the class

  class Settings {
    /** The `fb_leads_fluentcrm_settings` option; None when it was never written. */
    var option: Option<Value>

    /** A stored array never repeats a key. */
    ghost predicate Valid()
      reads this
    {
      Distinct(StoredOf(option))
    }

    constructor (option: Option<Value>)
      requires Distinct(StoredOf(option))
      ensures Valid() && this.option == option
    {
      this.option := option;
    }

    /** `get_settings()`. */
    function GetSettings(): seq<(Key, Value)>
      reads this
    {
      StoredOf(option)
    }

    /** `get($key, $default)`. */
    function Get(key: string, default: Value): Value
      reads this
    {
      Lookup(GetSettings(), key, default)
    }

    /** `ensure_defaults()`, with `secret` standing for the generated
        password: an existing array is left alone. */
    method EnsureDefaults(secret: string)
      requires Valid()
      modifies this
      ensures Valid()
      ensures old(option).Some? && old(option).value.Arr? ==> option == old(option)
      ensures !(old(option).Some? && old(option).value.Arr?) ==> option == Some(Arr(DefaultsFor(secret)))
    {
      if option.Some? && option.value.Arr? {
        return;
      }
      DefaultsDistinct(secret);
      option := Some(Arr(DefaultsFor(secret)));
    }

    /** `update($values)`: the sanitized values merged over the stored
        array. None when sanitizing throws, and then nothing is written. */
    method Update(san: Sanitizers, values: seq<(Key, Value)>) returns (written: Option<seq<(Key, Value)>>)
      requires Valid()
      modifies this
      ensures Valid()
      ensures written == (match SanitizeOf(san, values)
        case None => None
        case Some(clean) => Some(ArrayMerge(old(GetSettings()), clean)))
      ensures written.None? ==> option == old(option)
      ensures written.Some? ==> option == Some(Arr(written.value))
    {
      var defaults := GetSettings();
      var clean := SanitizeOf(san, values);
      if clean.None? {
        return None;
      }
      ArrayMergeDistinct(defaults, clean.value);
      written := Some(ArrayMerge(defaults, clean.value));
      option := Some(Arr(written.value));
    }
  }

  /** After `update`, the logging switch is the submitted one (off when not
      submitted), the cleaned secret replaces the stored one only when a
      secret was submitted, and every key outside the five names keeps its
      stored value. */
  lemma UpdateGet(stored: seq<(Key, Value)>, san: Sanitizers, values: seq<(Key, Value)>, s: string)
    requires Distinct(stored)
    requires SanitizeOf(san, values).Some?
    ensures var merged := ArrayMerge(stored, SanitizeOf(san, values).value);
      OrderedMap.Get(merged, SKey("logging_enabled")) == Some(Bool(Truthy(At(Arr(values), "logging_enabled"))))
    ensures var merged := ArrayMerge(stored, SanitizeOf(san, values).value);
      var secret := At(Arr(values), "webhook_secret");
      OrderedMap.Get(merged, SKey("webhook_secret")) ==
        if secret != Null then Some(Str(san.text(ToStr(secret)))) else OrderedMap.Get(stored, SKey("webhook_secret"))
    ensures var merged := ArrayMerge(stored, SanitizeOf(san, values).value);
      !IsFieldName(s) ==> OrderedMap.Get(merged, SKey(s)) == OrderedMap.Get(stored, SKey(s))
  {
    var clean := SanitizeOf(san, values).value;
    SanitizeGet(san, values, SKey("logging_enabled"));
    SanitizeGet(san, values, SKey("webhook_secret"));
    SanitizeGet(san, values, SKey(s));
    ArrayMergeString(stored, clean, "logging_enabled");
    ArrayMergeString(stored, clean, "webhook_secret");
    ArrayMergeString(stored, clean, s);
  }
}

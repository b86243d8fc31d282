/**
 * The lead mapper of the Facebook Leads for FluentCRM plugin
 * (`facebook-leads-fluentcrm/includes/Services/LeadMapper.php`): a lead's
 * `field_data` and top-level keys become a name → value map, and the
 * configured `source=target` mappings, then four default fields, pick the
 * contact data out of it, every value stringified.
 */
module LeadMapper {
  import opened Wrappers
  import opened PhpStrings
  import opened PhpValues
  import opened OrderedMap
  import opened WordPress
  import FcrmSettings

  // ------------------------------------------------------------ stringify

  /** `stringify($value)`: the elements of an array, each cast to string
      and sanitized, joined with ", "; anything else cast and sanitized. */
  function Stringify(san: Sanitizers, v: Value): string
  {
    if v.Arr? then Implode(", ", seq(|v.a|, i requires 0 <= i < |v.a| => san.text(ToStr(v.a[i].1))))
    else san.text(ToStr(v))
  }

  /** A multiple-choice answer with one element reads as that element. */
  lemma StringifySingle(san: Sanitizers, k: Key, v: Value)
    requires !v.Arr?
    ensures Stringify(san, Arr([(k, v)])) == Stringify(san, v)
  {
    assert seq(1, i requires 0 <= i < 1 => san.text(ToStr([(k, v)][i].1))) == [san.text(ToStr(v))];
  }

  /** Joining keeps every sanitized element, in order, with ", " between. */
  lemma StringifyPair(san: Sanitizers, k1: Key, v1: Value, k2: Key, v2: Value)
    ensures Stringify(san, Arr([(k1, v1), (k2, v2)])) == san.text(ToStr(v1)) + ", " + san.text(ToStr(v2))
  {
    var parts := seq(2, i requires 0 <= i < 2 => san.text(ToStr([(k1, v1), (k2, v2)][i].1)));
    assert parts == [san.text(ToStr(v1)), san.text(ToStr(v2))];
    assert parts[1..] == [san.text(ToStr(v2))];
    assert Implode(", ", parts[1..]) == san.text(ToStr(v2));
  }

  /** One answer more in a multiple-choice value adds ", " and that
      answer, sanitized, at the end; no answers at all give "". */
  lemma StringifyAppend(san: Sanitizers, a: seq<(Key, Value)>, k: Key, v: Value)
    ensures Stringify(san, Arr([])) == ""
    ensures |a| > 0 ==> Stringify(san, Arr(a + [(k, v)])) == Stringify(san, Arr(a)) + ", " + san.text(ToStr(v))
  {
    if |a| > 0 {
      var b := a + [(k, v)];
      var parts := seq(|a|, i requires 0 <= i < |a| => san.text(ToStr(a[i].1)));
      assert seq(|b|, i requires 0 <= i < |b| => san.text(ToStr(b[i].1))) == parts + [san.text(ToStr(v))];
      ImplodeAppend(", ", parts, san.text(ToStr(v)));
    }
  }

  // ------------------------------------------------------- writing steps

  /** What one iteration of a loop does to the array it builds. */
  datatype Step = Skip | Throw | Write(key: Key, value: Value)

  /** The steps applied in order to `data`; None once one throws. */
  function Run(data: seq<(Key, Value)>, steps: seq<Step>): Option<seq<(Key, Value)>>
    decreases |steps|
  {
    if |steps| == 0 then Some(data)
    else match Run(data, steps[..|steps| - 1])
      case None => None
      case Some(d) =>
        match steps[|steps| - 1]
        case Skip => Some(d)
        case Throw => None
        case Write(k, v) => Some(Put(d, k, v))
  }

  /** The last step that writes key `k`. */
  function LastWrite(steps: seq<Step>, k: Key): (r: Option<nat>)
    ensures r.Some? ==> r.value < |steps| && steps[r.value].Write? && steps[r.value].key == k
    ensures r.Some? ==> forall j :: r.value < j < |steps| ==> !(steps[j].Write? && steps[j].key == k)
    ensures r.None? ==> forall j :: 0 <= j < |steps| ==> !(steps[j].Write? && steps[j].key == k)
    decreases |steps|
  {
    if |steps| == 0 then None
    else if steps[|steps| - 1].Write? && steps[|steps| - 1].key == k then Some(|steps| - 1)
    else
      var r := LastWrite(steps[..|steps| - 1], k);
      assert forall j :: 0 <= j < |steps| - 1 ==> steps[..|steps| - 1][j] == steps[j];
      r
  }

  /** The run throws exactly when one of its steps does. */
  lemma {:induction false} RunThrows(data: seq<(Key, Value)>, steps: seq<Step>)
    ensures Run(data, steps).None? <==> Throw in steps
    decreases |steps|
  {
    if |steps| > 0 {
      RunThrows(data, steps[..|steps| - 1]);
      assert steps == steps[..|steps| - 1] + [steps[|steps| - 1]];
    }
  }

  /** A key holds the value of the last step that writes it, or its old
      value when none does. */
  lemma {:induction false} RunGet(data: seq<(Key, Value)>, steps: seq<Step>, k: Key)
    requires Run(data, steps).Some?
    ensures Get(Run(data, steps).value, k) ==
      match LastWrite(steps, k)
      case None => Get(data, k)
      case Some(i) => Some(steps[i].value)
    decreases |steps|
  {
    if |steps| > 0 {
      var n := |steps| - 1;
      var init := steps[..n];
      RunGet(data, init, k);
      var d := Run(data, init).value;
      var s := steps[n];
      if s.Write? && s.key == k {
        assert LastWrite(steps, k) == Some(n);
        GetPut(d, k, s.value, k);
      } else {
        assert LastWrite(steps, k) == LastWrite(init, k);
        if s.Write? {
          GetPut(d, s.key, s.value, k);
        }
      }
    }
  }

  // ----------------------------------------------------- normalize_fields

  /** One `field_data` item: `(string) $item['name']` → `$item['values'][0]`,
      when both are set. */
  function ItemStep(item: Value): (s: Step)
    ensures s != Throw && (s.Write? ==> s.value != Null)
  {
    var values := At(item, "values");
    if IsSet(item, ArrayKey("name")) && IsSet(values, IKey(0)) then
      Write(ArrayKey(ToStr(At(item, "name"))), Index(values, IKey(0)))
    else Skip
  }

  function ItemSteps(items: seq<Value>): (steps: seq<Step>)
    ensures |steps| == |items| && forall i :: 0 <= i < |items| ==> steps[i] == ItemStep(items[i])
    ensures Throw !in steps
  {
    seq(|items|, i requires 0 <= i < |items| => ItemStep(items[i]))
  }

  /** The items of `$payload['field_data']` when it is an array; none
      otherwise. */
  function FieldItems(payload: seq<(Key, Value)>): seq<Value>
  {
    Values(Elements(At(Arr(payload), "field_data")))
  }

  /** The first loop: items written in order, a later name overwriting. */
  function FromItems(items: seq<Value>): seq<(Key, Value)>
  {
    RunThrows([], ItemSteps(items));
    Run([], ItemSteps(items)).value
  }

  /** The second loop: a top-level string key is added only when the
      first loop did not set it. */
  function WithTopLevel(acc: seq<(Key, Value)>, es: seq<(Key, Value)>): seq<(Key, Value)>
    decreases |es|
  {
    if |es| == 0 then acc
    else
      var r := WithTopLevel(acc, es[..|es| - 1]);
      var e := es[|es| - 1];
      if e.0.SKey? && !IsSet(Arr(r), e.0) then Put(r, e.0, e.1) else r
  }

  /** `normalize_fields($payload)`. */
  function NormalizeOf(payload: seq<(Key, Value)>): seq<(Key, Value)>
  {
    WithTopLevel(FromItems(FieldItems(payload)), payload)
  }

  method NormalizeFields(payload: seq<(Key, Value)>) returns (result: seq<(Key, Value)>)
    ensures result == NormalizeOf(payload)
  {
    result := [];
    var fieldData := At(Arr(payload), "field_data");
    if fieldData != Null && fieldData.Arr? {
      result := CollectItems(fieldData.a);
      assert Values(fieldData.a) == FieldItems(payload);
    } else {
      assert FieldItems(payload) == [];
      assert ItemSteps([]) == [];
    }
    result := AddTopLevel(result, payload);
  }

  /** The `field_data` loop of `normalize_fields`. */
  method CollectItems(items: seq<(Key, Value)>) returns (result: seq<(Key, Value)>)
    ensures result == FromItems(Values(items))
  {
    result := [];
    ghost var steps := ItemSteps(Values(items));
    var i := 0;
    while i < |items|
      invariant 0 <= i <= |items|
      invariant Run([], steps[..i]) == Some(result)
    {
      assert steps[..i + 1][..i] == steps[..i];
      var item := items[i].1;
      var values := At(item, "values");
      if IsSet(item, ArrayKey("name")) && IsSet(values, IKey(0)) {
        result := Put(result, ArrayKey(ToStr(At(item, "name"))), Index(values, IKey(0)));
      }
      i := i + 1;
    }
    assert steps[..i] == steps;
  }

  /** The top-level loop of `normalize_fields`. */
  method AddTopLevel(fields: seq<(Key, Value)>, payload: seq<(Key, Value)>) returns (result: seq<(Key, Value)>)
    ensures result == WithTopLevel(fields, payload)
  {
    result := fields;
    var j := 0;
    while j < |payload|
      invariant 0 <= j <= |payload|
      invariant result == WithTopLevel(fields, payload[..j])
    {
      assert payload[..j + 1][..j] == payload[..j];
      var (key, value) := payload[j];
      if key.SKey? && !IsSet(Arr(result), key) {
        result := Put(result, key, value);
      }
      j := j + 1;
    }
    assert payload[..j] == payload;
  }

  /** What the first loop leaves under a name: the first value of the last
      item carrying that name, with no change of case. */
  lemma FromItemsGet(items: seq<Value>, k: Key)
    ensures Get(FromItems(items), k) ==
      match LastWrite(ItemSteps(items), k)
      case None => None
      case Some(i) => Some(Index(At(items[i], "values"), IKey(0)))
    ensures Get(FromItems(items), k).Some? ==> Get(FromItems(items), k).value != Null
  {
    RunThrows([], ItemSteps(items));
    RunGet([], ItemSteps(items), k);
  }

  /** `isset($a[$k])` on an array: the key is present with a non-null value. */
  lemma IsSetGet(a: seq<(Key, Value)>, k: Key)
    ensures IsSet(Arr(a), k) <==> Get(a, k).Some? && Get(a, k).value != Null
  {
  }

  /** After the second loop a key holds what the first loop put there, or
      else, for a string key, the top-level value. */
  lemma {:induction false} TopLevelGet(acc: seq<(Key, Value)>, es: seq<(Key, Value)>, k: Key)
    requires Distinct(es)
    requires Get(acc, k).Some? ==> Get(acc, k).value != Null
    ensures Get(WithTopLevel(acc, es), k) ==
      if Get(acc, k).Some? then Get(acc, k) else if k.SKey? then Get(es, k) else None
    decreases |es|
  {
    if |es| > 0 {
      var init := es[..|es| - 1];
      var e := es[|es| - 1];
      assert es == init + [e];
      var r := WithTopLevel(acc, init);
      assert Get(r, k) == if Get(acc, k).Some? then Get(acc, k) else if k.SKey? then Get(init, k) else None by {
        PrefixDistinct(es, |es| - 1);
        TopLevelGet(acc, init, k);
      }
      assert e.0 !in Keys(init) by {
        forall j | 0 <= j < |init| ensures init[j].0 != e.0 {
          assert init[j] == es[j];
        }
      }
      var w := if e.0.SKey? && !IsSet(Arr(r), e.0) then Put(r, e.0, e.1) else r;
      assert WithTopLevel(acc, es) == w;
      assert Get(w, k) == if Get(acc, k).Some? then Get(acc, k) else if k.SKey? then Get(init + [e], k) else None by {
        TopLevelStep(acc, r, init, e, k);
      }
    }
  }

  /** One turn of the second loop keeps what `TopLevelGet` states. */
  lemma TopLevelStep(acc: seq<(Key, Value)>, r: seq<(Key, Value)>, init: seq<(Key, Value)>, e: (Key, Value), k: Key)
    requires e.0 !in Keys(init)
    requires Get(acc, k).Some? ==> Get(acc, k).value != Null
    requires Get(r, k) == if Get(acc, k).Some? then Get(acc, k) else if k.SKey? then Get(init, k) else None
    ensures var w := if e.0.SKey? && !IsSet(Arr(r), e.0) then Put(r, e.0, e.1) else r;
      Get(w, k) == if Get(acc, k).Some? then Get(acc, k) else if k.SKey? then Get(init + [e], k) else None
  {
    var writes := e.0.SKey? && !IsSet(Arr(r), e.0);
    assert Get(init + [e], k) == (if k in Keys(init) then Get(init, k) else if e.0 == k then Some(e.1) else None) by {
      GetAppend(init, e, k);
    }
    if k == e.0 {
      assert writes <==> k.SKey? && Get(acc, k).None? by {
        IsSetGet(r, k);
      }
    }
    if writes {
      GetPut(r, e.0, e.1, k);
    }
  }

  /** `normalize_fields`: a name taken from `field_data` holds the first
      value of the last item carrying it, and a top-level string key fills
      in only what `field_data` did not set. */
  lemma NormalizeGet(payload: seq<(Key, Value)>, k: Key)
    requires Distinct(payload)
    ensures Get(NormalizeOf(payload), k) ==
      match LastWrite(ItemSteps(FieldItems(payload)), k)
      case Some(i) => Some(Index(At(FieldItems(payload)[i], "values"), IKey(0)))
      case None => if k.SKey? then Get(payload, k) else None
  {
    var items := FieldItems(payload);
    FromItemsGet(items, k);
    TopLevelGet(FromItems(items), payload, k);
  }

  // ------------------------------------------------------------------ map

  /** `isset($fields[$source])`: the mapping applies. */
  predicate Fires(fields: seq<(Key, Value)>, m: (Key, Value))
  {
    IsSet(Arr(fields), m.0)
  }

  /** One mapping: `$data[$target] = stringify($fields[$source])`. An array
      target is an illegal offset and throws. */
  function MapStep(san: Sanitizers, fields: seq<(Key, Value)>, m: (Key, Value)): (s: Step)
    ensures s.Write? ==> s.value.Str?
  {
    if !Fires(fields, m) then Skip
    else match ToKey(m.1)
      case None => Throw
      case Some(t) => Write(t, Str(Stringify(san, Index(Arr(fields), m.0))))
  }

  function MapSteps(san: Sanitizers, fields: seq<(Key, Value)>, ms: seq<(Key, Value)>): (steps: seq<Step>)
    ensures |steps| == |ms| && forall i :: 0 <= i < |ms| ==> steps[i] == MapStep(san, fields, ms[i])
  {
    seq(|ms|, i requires 0 <= i < |ms| => MapStep(san, fields, ms[i]))
  }

  /** The mapping writes to `k`: it fires and its target is `k`. */
  predicate Targets(fields: seq<(Key, Value)>, m: (Key, Value), k: Key)
  {
    Fires(fields, m) && ToKey(m.1) == Some(k)
  }

  /** The mapping loop throws exactly when a mapping that fires has an
      array target. */
  lemma MappedThrows(san: Sanitizers, fields: seq<(Key, Value)>, ms: seq<(Key, Value)>)
    ensures Run([], MapSteps(san, fields, ms)).None? <==>
      exists i :: 0 <= i < |ms| && Fires(fields, ms[i]) && ms[i].1.Arr?
  {
    var steps := MapSteps(san, fields, ms);
    RunThrows([], steps);
    if Throw in steps {
      var i :| 0 <= i < |steps| && steps[i] == Throw;
      assert Fires(fields, ms[i]) && ms[i].1.Arr?;
    }
    if exists i :: 0 <= i < |ms| && Fires(fields, ms[i]) && ms[i].1.Arr? {
      var i :| 0 <= i < |ms| && Fires(fields, ms[i]) && ms[i].1.Arr?;
      assert steps[i] == Throw;
    }
  }

  /** A key a mapping writes holds the stringified source of the last
      mapping that writes it. */
  lemma MappedGet(san: Sanitizers, fields: seq<(Key, Value)>, ms: seq<(Key, Value)>, k: Key)
    requires Run([], MapSteps(san, fields, ms)).Some?
    ensures Get(Run([], MapSteps(san, fields, ms)).value, k) ==
      match LastWrite(MapSteps(san, fields, ms), k)
      case None => None
      case Some(i) => Some(Str(Stringify(san, Index(Arr(fields), ms[i].0))))
    ensures Get(Run([], MapSteps(san, fields, ms)).value, k).Some? ==>
      Get(Run([], MapSteps(san, fields, ms)).value, k).value.Str?
  {
    RunGet([], MapSteps(san, fields, ms), k);
  }

  /** The fields copied when no mapping set them. */
  const DefaultKeys: seq<Key> := [SKey("email"), SKey("first_name"), SKey("last_name"), SKey("phone")]

  /** The defaults loop: a default is copied when the fields have it and
      the mappings did not write it. */
  function WithDefaults(san: Sanitizers, fields: seq<(Key, Value)>, data: seq<(Key, Value)>, keys: seq<Key>):
    seq<(Key, Value)>
    decreases |keys|
  {
    if |keys| == 0 then data
    else
      AddDefault(san, fields, WithDefaults(san, fields, data, keys[..|keys| - 1]), keys[|keys| - 1])
  }

  /** One turn of the defaults loop on the data built so far. */
  function AddDefault(san: Sanitizers, fields: seq<(Key, Value)>, r: seq<(Key, Value)>, key: Key): seq<(Key, Value)>
  {
    if IsSet(Arr(fields), key) && !IsSet(Arr(r), key) then Put(r, key, Str(Stringify(san, Index(Arr(fields), key))))
    else r
  }

  lemma {:induction false} WithDefaultsGet(san: Sanitizers, fields: seq<(Key, Value)>, data: seq<(Key, Value)>,
                                           keys: seq<Key>, k: Key)
    requires Get(data, k).Some? ==> Get(data, k).value != Null
    ensures Get(WithDefaults(san, fields, data, keys), k) ==
      if Get(data, k).Some? then Get(data, k)
      else if k in keys && IsSet(Arr(fields), k) then Some(Str(Stringify(san, Index(Arr(fields), k))))
      else None
    decreases |keys|
  {
    if |keys| > 0 {
      var init := keys[..|keys| - 1];
      var key := keys[|keys| - 1];
      var r := WithDefaults(san, fields, data, init);
      assert Get(r, k) ==
        if Get(data, k).Some? then Get(data, k)
        else if k in init && IsSet(Arr(fields), k) then Some(Str(Stringify(san, Index(Arr(fields), k))))
        else None
      by { WithDefaultsGet(san, fields, data, init, k); }
      assert k in keys <==> k in init || k == key by { assert keys == init + [key]; }
      assert WithDefaults(san, fields, data, keys) == AddDefault(san, fields, r, key);
      DefaultStep(san, fields, r, key, k);
    }
  }

  /** One step of the defaults loop, on any accumulated array. */
  lemma DefaultStep(san: Sanitizers, fields: seq<(Key, Value)>, r: seq<(Key, Value)>, key: Key, k: Key)
    ensures Get(AddDefault(san, fields, r, key), k) ==
      if k == key && IsSet(Arr(fields), key) && !(Get(r, k).Some? && Get(r, k).value != Null)
      then Some(Str(Stringify(san, Index(Arr(fields), key)))) else Get(r, k)
  {
    IsSetGet(r, key);
    if IsSet(Arr(fields), key) && !IsSet(Arr(r), key) {
      GetPut(r, key, Str(Stringify(san, Index(Arr(fields), key))), k);
    }
  }

  /** `map($payload)` on the normalized fields and the configured
      mappings; None when it throws. */
  function MapOf(san: Sanitizers, fields: seq<(Key, Value)>, mappings: Value): Option<seq<(Key, Value)>>
  {
    match Run([], MapSteps(san, fields, Elements(mappings)))
    case None => None
    case Some(d) => Some(WithDefaults(san, fields, d, DefaultKeys))
  }

  /** `map($payload)`, with the mappings read from the settings. */
  method Map(settings: FcrmSettings.Settings, san: Sanitizers, payload: seq<(Key, Value)>)
    returns (r: Option<seq<(Key, Value)>>)
    ensures r == MapOf(san, NormalizeOf(payload), settings.Get("field_mappings", Arr([])))
  {
    var fields := NormalizeFields(payload);
    var mappings := Elements(settings.Get("field_mappings", Arr([])));
    var mapped := ApplyMappings(san, fields, mappings);
    if mapped.None? {
      return None;
    }
    var data := ApplyDefaults(san, fields, mapped.value, DefaultKeys);
    return Some(data);
  }

  /** The mapping loop of `map`; None when a target throws. */
  method ApplyMappings(san: Sanitizers, fields: seq<(Key, Value)>, mappings: seq<(Key, Value)>)
    returns (r: Option<seq<(Key, Value)>>)
    ensures r == Run([], MapSteps(san, fields, mappings))
  {
    ghost var steps := MapSteps(san, fields, mappings);
    var data := [];
    var i := 0;
    while i < |mappings|
      invariant 0 <= i <= |mappings|
      invariant Run([], steps[..i]) == Some(data)
    {
      assert steps[..i + 1][..i] == steps[..i];
      var (source, target) := mappings[i];
      if IsSet(Arr(fields), source) {
        var t := ToKey(target);
        if t.None? {
          assert Run([], steps[..i + 1]) == None;
          assert Run([], steps) == None by {
            RunThrows([], steps[..i + 1]);
            assert steps[..i + 1][i] == Throw;
            RunThrows([], steps);
          }
          return None;
        }
        data := Put(data, t.value, Str(Stringify(san, Index(Arr(fields), source))));
      }
      i := i + 1;
    }
    assert steps[..i] == steps;
    return Some(data);
  }

  /** The defaults loop of `map`, over the keys `keys`. */
  method ApplyDefaults(san: Sanitizers, fields: seq<(Key, Value)>, mapped: seq<(Key, Value)>, keys: seq<Key>)
    returns (data: seq<(Key, Value)>)
    ensures data == WithDefaults(san, fields, mapped, keys)
  {
    data := mapped;
    var j := 0;
    while j < |keys|
      invariant 0 <= j <= |keys|
      invariant data == WithDefaults(san, fields, mapped, keys[..j])
    {
      assert keys[..j + 1][..j] == keys[..j];
      var key := keys[j];
      if IsSet(Arr(fields), key) && !IsSet(Arr(data), key) {
        data := Put(data, key, Str(Stringify(san, Index(Arr(fields), key))));
      }
      assert data == AddDefault(san, fields, WithDefaults(san, fields, mapped, keys[..j]), keys[..j + 1][j]);
      j := j + 1;
    }
    assert keys[..j] == keys;
  }

  /** What `map` writes under each key: the stringified source of the last
      mapping that targets it; otherwise, for the four defaults, the
      stringified field; otherwise nothing. So every key of the result is a
      mapping target or one of the defaults. */
  lemma MapGet(san: Sanitizers, fields: seq<(Key, Value)>, mappings: Value, k: Key)
    requires MapOf(san, fields, mappings).Some?
    ensures Get(MapOf(san, fields, mappings).value, k) ==
      match LastWrite(MapSteps(san, fields, Elements(mappings)), k)
      case Some(i) => Some(Str(Stringify(san, Index(Arr(fields), Elements(mappings)[i].0))))
      case None =>
        if k in DefaultKeys && IsSet(Arr(fields), k) then Some(Str(Stringify(san, Index(Arr(fields), k))))
        else None
  {
    var ms := Elements(mappings);
    MappedGet(san, fields, ms, k);
    WithDefaultsGet(san, fields, Run([], MapSteps(san, fields, ms)).value, DefaultKeys, k);
  }

  /** Only mapping targets and the four defaults appear in the result. */
  lemma MapKeys(san: Sanitizers, fields: seq<(Key, Value)>, mappings: Value, k: Key)
    requires MapOf(san, fields, mappings).Some?
    requires k in Keys(MapOf(san, fields, mappings).value)
    ensures k in DefaultKeys || exists i :: 0 <= i < |Elements(mappings)| && Targets(fields, Elements(mappings)[i], k)
  {
    MapGet(san, fields, mappings, k);
  }

  /** Running writes over an array without repeated keys keeps it so. */
  lemma {:induction false} RunDistinct(data: seq<(Key, Value)>, steps: seq<Step>)
    requires Distinct(data)
    ensures Run(data, steps).Some? ==> Distinct(Run(data, steps).value)
    decreases |steps|
  {
    if |steps| > 0 {
      var init := steps[..|steps| - 1];
      RunDistinct(data, init);
      match Run(data, init)
      case None =>
      case Some(d) =>
        match steps[|steps| - 1]
        case Skip =>
        case Throw =>
        case Write(k, v) => DistinctPut(d, k, v);
    }
  }

  /** Adding defaults keeps an array without repeated keys so. */
  lemma {:induction false} WithDefaultsDistinct(san: Sanitizers, fields: seq<(Key, Value)>, data: seq<(Key, Value)>,
                                                keys: seq<Key>)
    requires Distinct(data)
    ensures Distinct(WithDefaults(san, fields, data, keys))
    decreases |keys|
  {
    if |keys| > 0 {
      var r := WithDefaults(san, fields, data, keys[..|keys| - 1]);
      WithDefaultsDistinct(san, fields, data, keys[..|keys| - 1]);
      var key := keys[|keys| - 1];
      DistinctPut(r, key, Str(Stringify(san, Index(Arr(fields), key))));
    }
  }

  /** The mapped contact data never repeats a key. */
  lemma MapDistinct(san: Sanitizers, fields: seq<(Key, Value)>, mappings: Value)
    requires MapOf(san, fields, mappings).Some?
    ensures Distinct(MapOf(san, fields, mappings).value)
  {
    var steps := MapSteps(san, fields, Elements(mappings));
    RunDistinct([], steps);
    WithDefaultsDistinct(san, fields, Run([], steps).value, DefaultKeys);
  }
}

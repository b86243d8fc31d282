/**
 * The option-backed settings of the FluentCRM lead plugin
 * (`fluentcrm-facebook-leads/includes/class-settings.php`): built-in
 * defaults with the stored option laid over them recursively.
 */
module FlfblSettings {
  import opened Wrappers
  import opened PhpValues
  import opened OrderedMap
  import opened PhpArrays

  function Entry(name: string, v: Value): (Key, Value)
  {
    (SKey(name), v)
  }

  /** The built-in Facebook field → FluentCRM field map. Its keys are
      distinct, so the PHP literal is exactly this list of entries. */
  function DefaultFieldMap(): seq<(Key, Value)>
  {
    [ Entry("full_name", Str("full_name")),
      Entry("first_name", Str("first_name")),
      Entry("last_name", Str("last_name")),
      Entry("name", Str("full_name")),
      Entry("email", Str("email")),
      Entry("phone_number", Str("phone")),
      Entry("phone", Str("phone")),
      Entry("mobile", Str("phone")),
      Entry("city", Str("city")),
      Entry("state", Str("state")),
      Entry("zip", Str("postal_code")),
      Entry("postal_code", Str("postal_code")),
      Entry("country", Str("country")),
      Entry("address", Str("address_line_1")),
      Entry("address_line_1", Str("address_line_1")),
      Entry("company_name", Str("company")),
      Entry("company", Str("company")),
      Entry("job_title", Str("job_title")) ]
  }

  /** `defaults()` around a given field map. */
  function DefaultsWith(fieldMap: seq<(Key, Value)>): seq<(Key, Value)>
  {
    [ Entry("app_id", Str("")),
      Entry("app_secret", Str("")),
      Entry("verify_token", Str("")),
      Entry("user_token", Str("")),
      Entry("long_lived_token", Str("")),
      Entry("pages", Arr([])),
      Entry("field_map", Arr(fieldMap)),
      Entry("custom_field_map", Arr([])),
      Entry("tag_ids", Arr([])),
      Entry("list_ids", Arr([])),
      Entry("status", Str("subscribed")) ]
  }

  /** `defaults()`. */
  function Defaults(): seq<(Key, Value)>
  {
    DefaultsWith(DefaultFieldMap())
  }

  /** No entry from position `lo` up to `hi` shares its key with a later one. */
  ghost predicate DistinctFrom(m: seq<(Key, Value)>, lo: nat, hi: nat)
  {
    forall i, j :: lo <= i < hi && i < j < |m| ==> m[i].0 != m[j].0
  }

  lemma FieldMapDistinct0()
    ensures DistinctFrom(DefaultFieldMap(), 0, 2)
  {
  }

  lemma FieldMapDistinct1()
    ensures DistinctFrom(DefaultFieldMap(), 2, 5)
  {
  }

  lemma FieldMapDistinct2()
    ensures DistinctFrom(DefaultFieldMap(), 5, 9)
  {
  }

  lemma FieldMapDistinct3()
    ensures DistinctFrom(DefaultFieldMap(), 9, 18)
  {
  }

  lemma DefaultFieldMapWellFormed()
    ensures WellFormed(Arr(DefaultFieldMap()))
  {
    var m := DefaultFieldMap();
    assert Distinct(m) by {
      FieldMapDistinct0();
      FieldMapDistinct1();
      FieldMapDistinct2();
      FieldMapDistinct3();
    }
    assert forall i :: 0 <= i < |m| ==> m[i].1.Str?;
  }

  lemma DefaultsWithDistinct(fieldMap: seq<(Key, Value)>)
    ensures Distinct(DefaultsWith(fieldMap))
  {
  }

  lemma DefaultsWithWellFormed(fieldMap: seq<(Key, Value)>)
    requires WellFormed(Arr(fieldMap))
    ensures WellFormed(Arr(DefaultsWith(fieldMap)))
    ensures OrderedMap.Get(DefaultsWith(fieldMap), SKey("field_map")) == Some(Arr(fieldMap))
  {
    var d := DefaultsWith(fieldMap);
    DefaultsWithDistinct(fieldMap);
    assert forall i :: 0 <= i < |d| && i != 6 ==> d[i].1.Str? || d[i].1 == Arr([]);
    assert d[6] == (SKey("field_map"), Arr(fieldMap));
    GetAt(d, 6);
  }

  /** The defaults are a well-formed array whose `field_map` entry is the
      built-in field map. */
  lemma DefaultsWellFormed()
    ensures WellFormed(Arr(Defaults()))
    ensures OrderedMap.Get(Defaults(), SKey("field_map")) == Some(Arr(DefaultFieldMap()))
  {
    DefaultFieldMapWellFormed();
    DefaultsWithWellFormed(DefaultFieldMap());
  }

  /** The array `array_replace_recursive` lays over the defaults: the stored
      option when it is an array, `[]` otherwise (also when it is absent). */
  function StoredArray(option: Option<Value>): seq<(Key, Value)>
  {
    if option.Some? && option.value.Arr? then option.value.a else []
  }

  /** `all()` for a given stored option. */
  function AllOf(option: Option<Value>): (r: seq<(Key, Value)>)
    ensures StoredArray(option) == [] ==> r == Defaults()
  {
    ReplaceRecursive(Defaults(), StoredArray(option))
  }

  /** `$settings[$key] = $value` for each entry of `values`, in order. */
  method WriteAll(settings: seq<(Key, Value)>, values: seq<(Key, Value)>) returns (r: seq<(Key, Value)>)
    ensures r == PutAll(settings, values)
  {
    r := settings;
    var i := 0;
    while i < |values|
      invariant 0 <= i <= |values|
      invariant PutAll(r, values[i..]) == PutAll(settings, values)
    {
      assert values[i..][1..] == values[i + 1..];
      r := Put(r, values[i].0, values[i].1);
      i := i + 1;
    }
  }

  class Settings {
    /** The `flfbl_settings` option; None when it was never written. */
    var option: Option<Value>

    /** What PHP can store: arrays with distinct keys at every depth. */
    ghost predicate Valid()
      reads this
    {
      option.Some? ==> WellFormed(option.value)
    }

    constructor (option: Option<Value>)
      requires option.Some? ==> WellFormed(option.value)
      ensures Valid() && this.option == option
    {
      this.option := option;
    }

    function All(): seq<(Key, Value)>
      reads this
    {
      AllOf(option)
    }

    function Get(key: string, default: Value): Value
      reads this
    {
      Lookup(All(), key, default)
    }

    /** `update($values)`: writes each given key over `all()` and stores the result. */
    method Update(values: seq<(Key, Value)>) returns (written: seq<(Key, Value)>)
      requires Valid()
      requires WellFormed(Arr(values))
      modifies this
      ensures Valid()
      ensures written == PutAll(old(All()), values)
      ensures option == Some(Arr(written))
    {
      AllWellFormed(option);
      var all := AllOf(option);
      written := WriteAll(all, values);
      forall i | 0 <= i < |values| ensures WellFormed(values[i].1) {
      }
      PutAllWellFormed(all, values);
      option := Some(Arr(written));
    }

    /** `bootstrap()`: `update(all())`. */
    method Bootstrap()
      requires Valid()
      modifies this
      ensures Valid()
      ensures option == Some(Arr(old(All())))
    {
      AllWellFormed(option);
      var all := All();
      var written := Update(all);
      PutAllSelf(all);
    }
  }

  lemma AllWellFormed(option: Option<Value>)
    requires option.Some? ==> WellFormed(option.value)
    ensures WellFormed(Arr(AllOf(option)))
  {
    DefaultsWellFormed();
    ReplaceWellFormed(Arr(Defaults()), Arr(StoredArray(option)));
  }

  /** Stored keys win, and every other key takes its default; arrays found
      on both sides are merged the same way. */
  lemma AllGet(option: Option<Value>, k: Key)
    requires option.Some? ==> WellFormed(option.value)
    ensures Get(AllOf(option), k) == Replaced(Defaults(), StoredArray(option), k)
    ensures Keys(AllOf(option)) == Keys(Defaults()) + Fresh(Keys(StoredArray(option)), Defaults())
  {
    DefaultsWellFormed();
    ReplaceAt(Defaults(), StoredArray(option));
  }

  /** A stored `field_map` array only adds to or overrides the built-in
      field map: every default entry it does not mention survives. */
  lemma DefaultFieldMapSurvives(option: Option<Value>, k: Key)
    requires option.Some? ==> WellFormed(option.value)
    requires k in Keys(DefaultFieldMap())
    requires var fm := OrderedMap.Get(StoredArray(option), SKey("field_map"));
      fm.None? || fm.value.Arr?
    ensures var fm := OrderedMap.Get(AllOf(option), SKey("field_map"));
      fm.Some? && fm.value.Arr? && k in Keys(fm.value.a)
    ensures var stored := OrderedMap.Get(StoredArray(option), SKey("field_map"));
      var fm := OrderedMap.Get(AllOf(option), SKey("field_map"));
      (stored.None? || k !in Keys(stored.value.a)) ==>
        fm.Some? && fm.value.Arr? && OrderedMap.Get(fm.value.a, k) == OrderedMap.Get(DefaultFieldMap(), k)
  {
    var fmap := DefaultFieldMap();
    var stored := StoredArray(option);
    var fm := OrderedMap.Get(AllOf(option), SKey("field_map"));
    assert WellFormed(Arr(fmap)) && OrderedMap.Get(Defaults(), SKey("field_map")) == Some(Arr(fmap)) by {
      DefaultsWellFormed();
    }
    assert fm == Replaced(Defaults(), stored, SKey("field_map")) by {
      AllGet(option, SKey("field_map"));
    }
    var sfm := OrderedMap.Get(stored, SKey("field_map"));
    if sfm.Some? {
      var sv := sfm.value;
      assert WellFormed(sv) by {
        var i :| 0 <= i < |stored| && stored[i] == (SKey("field_map"), sv);
      }
      assert fm == Some(Arr(ReplaceRecursive(fmap, sv.a)));
      OverFieldMap(fmap, sv, k);
    }
  }

  /** Laying an array over a field map keeps every key of the field map,
      and the value of every key the array does not mention. */
  lemma OverFieldMap(fmap: seq<(Key, Value)>, sv: Value, k: Key)
    requires WellFormed(Arr(fmap)) && sv.Arr? && WellFormed(sv) && k in Keys(fmap)
    ensures k in Keys(ReplaceRecursive(fmap, sv.a))
    ensures k !in Keys(sv.a) ==> OrderedMap.Get(ReplaceRecursive(fmap, sv.a), k) == OrderedMap.Get(fmap, k)
  {
    ReplaceAt(fmap, sv.a);
  }

  /** The value `update` writes at each key: a given key takes the given
      value, every other key keeps the one `all()` had. */
  lemma UpdateGet(all: seq<(Key, Value)>, values: seq<(Key, Value)>, k: Key)
    requires Distinct(values)
    ensures Get(PutAll(all, values), k) ==
      match Get(values, k) case Some(v) => Some(v) case None => Get(all, k)
    ensures Keys(all) <= Keys(PutAll(all, values))
  {
    GetPutAllDistinct(all, values, k);
    PutAllKeys(all, values);
  }

  /** Running `bootstrap` twice leaves the same option, and the same
      `all()`, as running it once. */
  lemma BootstrapIdempotent(option: Option<Value>)
    requires option.Some? ==> WellFormed(option.value)
    ensures AllOf(Some(Arr(AllOf(option)))) == AllOf(option)
    ensures Some(Arr(AllOf(Some(Arr(AllOf(option)))))) == Some(Arr(AllOf(option)))
  {
    var d := Defaults();
    var stored := StoredArray(option);
    var x := AllOf(option);
    assert WellFormed(Arr(d)) by {
      DefaultsWellFormed();
    }
    assert WellFormed(Arr(stored));
    assert StoredArray(Some(Arr(x))) == x;
    assert ReplaceRecursive(d, x) == x by {
      ReplaceTwice(Arr(d), Arr(stored));
    }
  }
}

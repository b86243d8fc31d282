/**
 * The value bookkeeping of the admin screens of the `includes/` plugin
 * (`includes/class-admin.php`): the reverse field map the mapping form is
 * filled from, the maps `save_mapping` builds from the posted form, the
 * merge of a fetched page list into the stored one, and the flag that
 * (un)subscribing a page flips. The settings object is
 * `FlfblSettings.Settings`, the model of the option-backed settings class
 * of `fluentcrm-facebook-leads`, standing in for the `includes/` plugin's
 * own `FLFBL\Settings`, which this model leaves out; the Graph API calls
 * are function parameters.
 */
module Admin {
  import opened Wrappers
  import opened PhpStrings
  import opened PhpValues
  import opened OrderedMap
  import opened PhpArrays
  import opened WordPress
  import FlfblSettings

  // ---------------------------------------------------------------------
  // Form input

  /** `sanitize_text_field(wp_unslash($v))` on a posted value: an array
      sanitises to ''. */
  function CleanValue(san: Sanitizers, v: Value): (r: string)
    ensures v.Arr? ==> r == ""
  {
    match v
    case Arr(_) => ""
    case Str(s) => san.Clean(s)
    case _ => san.text(ToStr(v))
  }

  /** The same on a posted array key: integer keys are not unslashed. */
  function CleanKey(san: Sanitizers, k: Key): string
  {
    match k
    case SKey(s) => san.Clean(s)
    case IKey(n) => san.text(Decimal(n))
  }

  /** A `foreach` key as the value it is when assigned. */
  function KeyValue(k: Key): (v: Value)
    ensures v != Null
  {
    match k
    case IKey(n) => Int(n)
    case SKey(s) => Str(s)
  }

  // ---------------------------------------------------------------------
  // render_page: the reverse field map

  /** The first entry whose target, used as a key, is `k`. */
  function FirstTargeting(es: seq<(Key, Value)>, k: Key): (r: Option<nat>)
    ensures r.Some? ==> r.value < |es| && ToKey(es[r.value].1) == Some(k)
    ensures r.Some? ==> forall j :: 0 <= j < r.value ==> ToKey(es[j].1) != Some(k)
    ensures r.None? <==> forall j :: 0 <= j < |es| ==> ToKey(es[j].1) != Some(k)
  {
    if |es| == 0 then None
    else if ToKey(es[0].1) == Some(k) then Some(0)
    else match FirstTargeting(es[1..], k)
      case None =>
        assert forall j :: 1 <= j < |es| ==> es[j] == es[1..][j - 1];
        None
      case Some(i) => Some(i + 1)
  }

  /** The `foreach ($map as $fb => $target)` loop from `reverse`; None when
      a target is an array, which PHP refuses as a key. */
  function Reversed(reverse: seq<(Key, Value)>, es: seq<(Key, Value)>): Option<seq<(Key, Value)>>
    decreases |es|
  {
    if |es| == 0 then Some(reverse)
    else match ToKey(es[0].1)
      case None => None
      case Some(k) =>
        Reversed(ReverseNext(reverse, k, es[0].0), es[1..])
  }

  /** The reverse map of `$settings['field_map']`. */
  method ReverseMap(fieldMap: Value) returns (r: Option<seq<(Key, Value)>>)
    ensures r == Reversed([], Elements(fieldMap))
  {
    var es := Elements(fieldMap);
    var reverse := [];
    var i := 0;
    while i < |es|
      invariant 0 <= i <= |es|
      invariant Reversed(reverse, es[i..]) == Reversed([], es)
    {
      assert es[i..][0] == es[i] && es[i..][1..] == es[i + 1..];
      var target := ToKey(es[i].1);
      if target.None? {
        return None;
      }
      if !(target.value in Keys(reverse)) {
        reverse := reverse + [(target.value, KeyValue(es[i].0))];
      }
      i := i + 1;
    }
    return Some(reverse);
  }

  /** One turn of the reverse loop: the reverse map before the next entry. */
  function ReverseNext(reverse: seq<(Key, Value)>, t: Key, fb: Key): seq<(Key, Value)>
  {
    if t in Keys(reverse) then reverse else reverse + [(t, KeyValue(fb))]
  }

  lemma {:induction false} ReversedSome(reverse: seq<(Key, Value)>, es: seq<(Key, Value)>)
    ensures Reversed(reverse, es).Some? <==> forall j :: 0 <= j < |es| ==> !es[j].1.Arr?
    decreases |es|
  {
    if |es| > 0 {
      assert forall j :: 1 <= j < |es| ==> es[j] == es[1..][j - 1];
      match ToKey(es[0].1)
      case None =>
      case Some(t) => ReversedSome(ReverseNext(reverse, t, es[0].0), es[1..]);
    }
  }

  lemma {:induction false} ReversedGet(reverse: seq<(Key, Value)>, es: seq<(Key, Value)>, k: Key)
    ensures Reversed(reverse, es).Some? ==>
      Get(Reversed(reverse, es).value, k) ==
        if k in Keys(reverse) then Get(reverse, k)
        else match FirstTargeting(es, k) case None => None case Some(j) => Some(KeyValue(es[j].0))
    decreases |es|
  {
    if |es| > 0 {
      match ToKey(es[0].1)
      case None =>
      case Some(t) =>
        var next := ReverseNext(reverse, t, es[0].0);
        ReversedGet(next, es[1..], k);
        GetAppend(reverse, (t, KeyValue(es[0].0)), k);
        if k in Keys(reverse) {
          assert k in Keys(next) && Get(next, k) == Get(reverse, k) by {
            if t !in Keys(reverse) {
              assert Keys(next) == Keys(reverse) + [t];
            }
          }
        } else if t == k {
          assert Keys(next) == Keys(reverse) + [t];
          assert FirstTargeting(es, k) == Some(0);
        } else {
          assert k !in Keys(next) by {
            if t !in Keys(reverse) {
              assert Keys(next) == Keys(reverse) + [t];
            }
          }
          match FirstTargeting(es[1..], k)
          case None =>
          case Some(j) =>
            assert FirstTargeting(es, k) == Some(j + 1);
            assert es[1..][j] == es[j + 1];
        }
    }
  }

  lemma {:induction false} ReversedDistinct(reverse: seq<(Key, Value)>, es: seq<(Key, Value)>)
    requires Distinct(reverse)
    ensures Reversed(reverse, es).Some? ==> Distinct(Reversed(reverse, es).value)
    decreases |es|
  {
    if |es| > 0 {
      match ToKey(es[0].1)
      case None =>
      case Some(t) =>
        var next := ReverseNext(reverse, t, es[0].0);
        assert Distinct(next) by {
          if t !in Keys(reverse) {
            forall i | 0 <= i < |reverse| ensures reverse[i].0 != t {
              assert Keys(reverse)[i] == reverse[i].0;
            }
          }
        }
        ReversedDistinct(next, es[1..]);
    }
  }

  /** Each target maps back to the first Facebook field mapped onto it;
      the reverse map exists unless a target is an array. */
  lemma ReverseFirstWins(fieldMap: Value, k: Key)
    ensures Reversed([], Elements(fieldMap)).Some? <==>
      forall j :: 0 <= j < |Elements(fieldMap)| ==> !Elements(fieldMap)[j].1.Arr?
    ensures Reversed([], Elements(fieldMap)).Some? ==>
      Distinct(Reversed([], Elements(fieldMap)).value) &&
      Get(Reversed([], Elements(fieldMap)).value, k) ==
        match FirstTargeting(Elements(fieldMap), k)
        case None => None
        case Some(j) => Some(KeyValue(Elements(fieldMap)[j].0))
  {
    ReversedSome([], Elements(fieldMap));
    ReversedGet([], Elements(fieldMap), k);
    ReversedDistinct([], Elements(fieldMap));
  }

  // ---------------------------------------------------------------------
  // save_mapping: the standard map

  /** The entry one `standard_map` row writes: the lower-cased Facebook
      name maps to the target, when both are non-empty after cleaning. */
  function StandardRow(san: Sanitizers, target: Key, fb: Value): Option<(Key, Value)>
  {
    var f := CleanValue(san, fb);
    var t := CleanKey(san, target);
    if Truthy(Str(f)) && Truthy(Str(t)) then Some((ArrayKey(ToLower(f)), Str(t))) else None
  }

  /** The entries the `standard_map` loop writes, in order. */
  function StandardRows(san: Sanitizers, standard: seq<(Key, Value)>): (es: seq<(Key, Value)>)
    ensures forall e :: e in es <==> exists i :: 0 <= i < |standard| && StandardRow(san, standard[i].0, standard[i].1) == Some(e)
    decreases |standard|
  {
    if |standard| == 0 then []
    else
      var rest := StandardRows(san, standard[1..]);
      assert forall i :: 1 <= i < |standard| ==> standard[i] == standard[1..][i - 1];
      match StandardRow(san, standard[0].0, standard[0].1)
      case Some(e) => [e] + rest
      case None => rest
  }

  /** The field map `save_mapping` stores. */
  function FieldMapOf(san: Sanitizers, standard: seq<(Key, Value)>): seq<(Key, Value)>
  {
    PutAll([], StandardRows(san, standard))
  }

  method BuildFieldMap(san: Sanitizers, standard: seq<(Key, Value)>) returns (fieldMap: seq<(Key, Value)>)
    ensures fieldMap == FieldMapOf(san, standard)
  {
    fieldMap := [];
    var i := 0;
    while i < |standard|
      invariant 0 <= i <= |standard|
      invariant PutAll(fieldMap, StandardRows(san, standard[i..])) == FieldMapOf(san, standard)
    {
      assert standard[i..][0] == standard[i] && standard[i..][1..] == standard[i + 1..];
      var fb := CleanValue(san, standard[i].1);
      var target := CleanKey(san, standard[i].0);
      if Truthy(Str(fb)) && Truthy(Str(target)) {
        fieldMap := Put(fieldMap, ArrayKey(ToLower(fb)), Str(target));
      }
      i := i + 1;
    }
  }

  /** Every field-map entry comes from a row whose both sides are
      non-empty, under the lower-cased Facebook name; a later row for the
      same name wins; keys are distinct and no string key holds an
      upper-case letter. */
  lemma FieldMapGet(san: Sanitizers, standard: seq<(Key, Value)>, k: Key)
    ensures Get(FieldMapOf(san, standard), k) == LastValue(StandardRows(san, standard), k)
    ensures Distinct(FieldMapOf(san, standard))
    ensures k in Keys(FieldMapOf(san, standard)) && k.SKey? ==> forall j :: 0 <= j < |k.s| ==> !('A' <= k.s[j] <= 'Z')
  {
    var rows := StandardRows(san, standard);
    GetPutAll([], rows, k);
    PutAllKeys([], rows);
    if k in Keys(FieldMapOf(san, standard)) && k.SKey? {
      var v := LastValue(rows, k).value;
      var i :| 0 <= i < |standard| && StandardRow(san, standard[i].0, standard[i].1) == Some((k, v));
      var f := CleanValue(san, standard[i].1);
      assert k.s == ToLower(f);
      forall j | 0 <= j < |k.s| ensures !('A' <= k.s[j] <= 'Z') {
        LowerCharIsLower(f[j]);
      }
    }
  }

  // ---------------------------------------------------------------------
  // save_mapping: the custom map

  /** The entry `custom_fb[$index]` writes: its lower-cased name maps to
      `custom_meta[$index]`, when both are non-empty after cleaning. */
  function CustomRow(san: Sanitizers, customMeta: seq<(Key, Value)>, index: Key, fb: Value): Option<(Key, Value)>
  {
    var name := CleanValue(san, fb);
    var meta := if IsSet(Arr(customMeta), index) then CleanValue(san, Index(Arr(customMeta), index)) else "";
    if Truthy(Str(name)) && Truthy(Str(meta)) then Some((ArrayKey(ToLower(name)), Str(meta))) else None
  }

  /** The entries the `custom_fb` loop writes, in order. */
  function CustomRows(san: Sanitizers, customFb: seq<(Key, Value)>, customMeta: seq<(Key, Value)>): (es: seq<(Key, Value)>)
    ensures forall e :: e in es <==> exists i :: 0 <= i < |customFb| && CustomRow(san, customMeta, customFb[i].0, customFb[i].1) == Some(e)
    decreases |customFb|
  {
    if |customFb| == 0 then []
    else
      var rest := CustomRows(san, customFb[1..], customMeta);
      assert forall i :: 1 <= i < |customFb| ==> customFb[i] == customFb[1..][i - 1];
      match CustomRow(san, customMeta, customFb[0].0, customFb[0].1)
      case Some(e) =>
        assert forall x :: x in [e] + rest <==> x == e || x in rest;
        [e] + rest
      case None => rest
  }

  /** The custom map `save_mapping` stores. */
  function CustomMapOf(san: Sanitizers, customFb: seq<(Key, Value)>, customMeta: seq<(Key, Value)>): seq<(Key, Value)>
  {
    PutAll([], CustomRows(san, customFb, customMeta))
  }

  method BuildCustomMap(san: Sanitizers, customFb: seq<(Key, Value)>, customMeta: seq<(Key, Value)>)
    returns (customMap: seq<(Key, Value)>)
    ensures customMap == CustomMapOf(san, customFb, customMeta)
  {
    customMap := [];
    var i := 0;
    while i < |customFb|
      invariant 0 <= i <= |customFb|
      invariant PutAll(customMap, CustomRows(san, customFb[i..], customMeta)) == CustomMapOf(san, customFb, customMeta)
    {
      assert customFb[i..][0] == customFb[i] && customFb[i..][1..] == customFb[i + 1..];
      var name := CleanValue(san, customFb[i].1);
      var meta := "";
      if IsSet(Arr(customMeta), customFb[i].0) {
        meta := CleanValue(san, Index(Arr(customMeta), customFb[i].0));
      }
      if Truthy(Str(name)) && Truthy(Str(meta)) {
        customMap := Put(customMap, ArrayKey(ToLower(name)), Str(meta));
      }
      i := i + 1;
    }
  }

  /** Every custom-map entry pairs a name posted at some index with the
      meta key posted at the same index; a row without a meta key is
      dropped; a later row for the same name wins. */
  lemma CustomMapGet(san: Sanitizers, customFb: seq<(Key, Value)>, customMeta: seq<(Key, Value)>, k: Key)
    ensures Get(CustomMapOf(san, customFb, customMeta), k) == LastValue(CustomRows(san, customFb, customMeta), k)
    ensures Distinct(CustomMapOf(san, customFb, customMeta))
    ensures Get(CustomMapOf(san, customFb, customMeta), k).Some? ==>
      exists i :: 0 <= i < |customFb| && k == ArrayKey(ToLower(CleanValue(san, customFb[i].1))) &&
        IsSet(Arr(customMeta), customFb[i].0) &&
        Get(CustomMapOf(san, customFb, customMeta), k).value == Str(CleanValue(san, Index(Arr(customMeta), customFb[i].0)))
  {
    var rows := CustomRows(san, customFb, customMeta);
    var m := CustomMapOf(san, customFb, customMeta);
    assert Get(m, k) == LastValue(rows, k) by {
      GetPutAll([], rows, k);
    }
    assert Distinct(m) by {
      PutAllKeys([], rows);
    }
    if LastValue(rows, k).Some? {
      var v := LastValue(rows, k).value;
      assert (k, v) in rows;
      var i :| 0 <= i < |customFb| && CustomRow(san, customMeta, customFb[i].0, customFb[i].1) == Some((k, v));
      CustomRowSome(san, customMeta, customFb[i].0, customFb[i].1, k, v);
    }
  }

  lemma CustomRowSome(san: Sanitizers, customMeta: seq<(Key, Value)>, index: Key, fb: Value, k: Key, v: Value)
    requires CustomRow(san, customMeta, index, fb) == Some((k, v))
    ensures k == ArrayKey(ToLower(CleanValue(san, fb))) && IsSet(Arr(customMeta), index) &&
      v == Str(CleanValue(san, Index(Arr(customMeta), index)))
  {
  }

  // ---------------------------------------------------------------------
  // save_mapping: the update

  /** `(array) $_POST[$name]` when it is set, `[]` otherwise. */
  function Posted(post: seq<(Key, Value)>, name: string): seq<(Key, Value)>
  {
    ArrayCast(At(Arr(post), name))
  }

  /** `array_map('intval', $ids)`: the keys are kept. */
  function IntVals(ids: seq<(Key, Value)>): (r: seq<(Key, Value)>)
    ensures |r| == |ids| && Keys(r) == Keys(ids)
    ensures forall i :: 0 <= i < |ids| ==> r[i].1 == Int(IntVal(ids[i].1))
  {
    seq(|ids|, i requires 0 <= i < |ids| => (ids[i].0, Int(IntVal(ids[i].1))))
  }

  /** The array `save_mapping` passes to `update`. */
  function MappingUpdateOf(fieldMap: Value, customMap: Value, tagIds: Value, listIds: Value, status: Value): seq<(Key, Value)>
  {
    [ (SKey("field_map"), fieldMap),
      (SKey("custom_field_map"), customMap),
      (SKey("tag_ids"), tagIds),
      (SKey("list_ids"), listIds),
      (SKey("status"), status) ]
  }

  /** The status `save_mapping` writes: the posted one, 'subscribed' when none is posted. */
  function PostedStatus(san: Sanitizers, post: seq<(Key, Value)>): string
  {
    var status := At(Arr(post), "status");
    if status != Null then CleanValue(san, status) else "subscribed"
  }

  /** The five keys `save_mapping` writes, from the posted form. */
  function MappingUpdate(san: Sanitizers, post: seq<(Key, Value)>): seq<(Key, Value)>
  {
    MappingUpdateOf(
      Arr(FieldMapOf(san, Posted(post, "standard_map"))),
      Arr(CustomMapOf(san, Posted(post, "custom_fb"), Posted(post, "custom_meta"))),
      Arr(IntVals(Posted(post, "tag_ids"))),
      Arr(IntVals(Posted(post, "list_ids"))),
      Str(PostedStatus(san, post)))
  }

  lemma IntValsWellFormed(ids: seq<(Key, Value)>)
    requires Distinct(ids)
    ensures WellFormed(Arr(IntVals(ids)))
  {
  }

  lemma MapOfRowsWellFormed(rows: seq<(Key, Value)>)
    requires forall e :: e in rows ==> e.1.Str?
    ensures WellFormed(Arr(PutAll([], rows)))
  {
    forall i | 0 <= i < |rows| ensures WellFormed(rows[i].1) {
      assert rows[i] in rows;
    }
    PutAllWellFormed([], rows);
  }

  lemma MappingUpdateOfWellFormed(fieldMap: Value, customMap: Value, tagIds: Value, listIds: Value, status: Value)
    requires WellFormed(fieldMap) && WellFormed(customMap) && WellFormed(tagIds) && WellFormed(listIds) && WellFormed(status)
    ensures WellFormed(Arr(MappingUpdateOf(fieldMap, customMap, tagIds, listIds, status)))
  {
    var u := MappingUpdateOf(fieldMap, customMap, tagIds, listIds, status);
    assert Distinct(u);
    assert forall i :: 0 <= i < |u| ==> u[i].1 in [fieldMap, customMap, tagIds, listIds, status];
  }

  lemma PostedDistinct(post: seq<(Key, Value)>, name: string)
    requires WellFormed(Arr(post))
    ensures Distinct(Posted(post, name))
  {
    var v := At(Arr(post), name);
    if v.Arr? {
      var i :| 0 <= i < |post| && post[i] == (ArrayKey(name), v);
      assert WellFormed(post[i].1);
    }
  }

  /** The update is a well-formed array whenever the posted form is. */
  lemma MappingUpdateWellFormed(san: Sanitizers, post: seq<(Key, Value)>)
    requires WellFormed(Arr(post))
    ensures WellFormed(Arr(MappingUpdate(san, post)))
  {
    MapOfRowsWellFormed(StandardRows(san, Posted(post, "standard_map")));
    MapOfRowsWellFormed(CustomRows(san, Posted(post, "custom_fb"), Posted(post, "custom_meta")));
    PostedDistinct(post, "tag_ids");
    PostedDistinct(post, "list_ids");
    IntValsWellFormed(Posted(post, "tag_ids"));
    IntValsWellFormed(Posted(post, "list_ids"));
    MappingUpdateOfWellFormed(
      Arr(FieldMapOf(san, Posted(post, "standard_map"))),
      Arr(CustomMapOf(san, Posted(post, "custom_fb"), Posted(post, "custom_meta"))),
      Arr(IntVals(Posted(post, "tag_ids"))),
      Arr(IntVals(Posted(post, "list_ids"))),
      Str(PostedStatus(san, post)));
  }

  /** `save_mapping`: the stored maps, ids and status are replaced by the
      posted ones and every other setting is kept. */
  method SaveMapping(settings: FlfblSettings.Settings, san: Sanitizers, post: seq<(Key, Value)>)
    requires settings.Valid() && WellFormed(Arr(post))
    modifies settings
    ensures settings.Valid()
    ensures settings.option == Some(Arr(PutAll(old(settings.All()), MappingUpdate(san, post))))
  {
    var fieldMap := BuildFieldMap(san, Posted(post, "standard_map"));
    var customMap := BuildCustomMap(san, Posted(post, "custom_fb"), Posted(post, "custom_meta"));
    var status := "subscribed";
    if At(Arr(post), "status") != Null {
      status := CleanValue(san, At(Arr(post), "status"));
    }
    var values := MappingUpdateOf(Arr(fieldMap), Arr(customMap),
      Arr(IntVals(Posted(post, "tag_ids"))), Arr(IntVals(Posted(post, "list_ids"))), Str(status));
    MappingUpdateWellFormed(san, post);
    var written := settings.Update(values);
  }

  /** Writing the update: each of the five keys takes the value given for
      it, and every other key keeps its value. */
  lemma MappingUpdateWrites(all: seq<(Key, Value)>, fieldMap: Value, customMap: Value, tagIds: Value, listIds: Value, status: Value, k: Key)
    ensures var w := PutAll(all, MappingUpdateOf(fieldMap, customMap, tagIds, listIds, status));
      Get(w, SKey("field_map")) == Some(fieldMap) &&
      Get(w, SKey("custom_field_map")) == Some(customMap) &&
      Get(w, SKey("tag_ids")) == Some(tagIds) &&
      Get(w, SKey("list_ids")) == Some(listIds) &&
      Get(w, SKey("status")) == Some(status) &&
      (k !in [SKey("field_map"), SKey("custom_field_map"), SKey("tag_ids"), SKey("list_ids"), SKey("status")] ==> Get(w, k) == Get(all, k))
  {
    var u := MappingUpdateOf(fieldMap, customMap, tagIds, listIds, status);
    var w := PutAll(all, u);
    MappingUpdateDistinct(fieldMap, customMap, tagIds, listIds, status);
    forall i | 0 <= i < |u| ensures Get(w, u[i].0) == Some(u[i].1) {
      GetAt(u, i);
      GetPutAllDistinct(all, u, u[i].0);
    }
    assert u[0] == (SKey("field_map"), fieldMap) && u[1] == (SKey("custom_field_map"), customMap);
    assert u[2] == (SKey("tag_ids"), tagIds) && u[3] == (SKey("list_ids"), listIds) && u[4] == (SKey("status"), status);
    if k !in [SKey("field_map"), SKey("custom_field_map"), SKey("tag_ids"), SKey("list_ids"), SKey("status")] {
      assert k !in Keys(u);
      GetPutAllDistinct(all, u, k);
    }
  }

  lemma MappingUpdateDistinct(fieldMap: Value, customMap: Value, tagIds: Value, listIds: Value, status: Value)
    ensures Distinct(MappingUpdateOf(fieldMap, customMap, tagIds, listIds, status))
  {
  }

  /** What the stored option holds after `save_mapping`: the posted maps
      and the intval'd ids under their keys, status 'subscribed' when none
      was posted, and every other key unchanged. */
  lemma SaveMappingWrites(all: seq<(Key, Value)>, san: Sanitizers, post: seq<(Key, Value)>, k: Key)
    ensures var w := PutAll(all, MappingUpdate(san, post));
      Get(w, SKey("field_map")) == Some(Arr(FieldMapOf(san, Posted(post, "standard_map")))) &&
      Get(w, SKey("custom_field_map")) == Some(Arr(CustomMapOf(san, Posted(post, "custom_fb"), Posted(post, "custom_meta")))) &&
      Get(w, SKey("tag_ids")) == Some(Arr(IntVals(Posted(post, "tag_ids")))) &&
      Get(w, SKey("list_ids")) == Some(Arr(IntVals(Posted(post, "list_ids")))) &&
      (At(Arr(post), "status") == Null ==> Get(w, SKey("status")) == Some(Str("subscribed"))) &&
      (k !in [SKey("field_map"), SKey("custom_field_map"), SKey("tag_ids"), SKey("list_ids"), SKey("status")] ==> Get(w, k) == Get(all, k))
  {
    MappingUpdateWrites(all,
      Arr(FieldMapOf(san, Posted(post, "standard_map"))),
      Arr(CustomMapOf(san, Posted(post, "custom_fb"), Posted(post, "custom_meta"))),
      Arr(IntVals(Posted(post, "tag_ids"))),
      Arr(IntVals(Posted(post, "list_ids"))),
      Str(PostedStatus(san, post)), k);
  }

  // ---------------------------------------------------------------------
  // exchange_token / refresh_pages: the page merge

  /** `$page['id']` used as an array key; None when PHP throws: the page
      is a string, which cannot be read at `id`, or its id is an array,
      which PHP refuses as a key. */
  function PageKey(page: Value): (r: Option<Key>)
    ensures page.Str? ==> r.None?
    ensures !page.Str? ==> r == ToKey(Index(page, SKey("id")))
  {
    ReadName(page, "id");
    match ReadDim(page, "id")
    case None => None
    case Some(id) => ToKey(id)
  }

  /** The first loop: the stored pages keyed by id, a later page replacing
      an earlier one with the same id. */
  function Keyed(existing: seq<(Key, Value)>, stored: seq<Value>): Option<seq<(Key, Value)>>
    decreases |stored|
  {
    if |stored| == 0 then Some(existing)
    else match PageKey(stored[0])
      case None => None
      case Some(k) => Keyed(Put(existing, k, stored[0]), stored[1..])
  }

  /** One fetched page as the second loop writes it: it takes the
      `subscribed` flag of the page already held under its id, if any.
      None when PHP throws: reading the id or the held flag of a string,
      or writing the flag into a page that takes no writes. */
  function Refreshed(existing: seq<(Key, Value)>, page: Value): Option<(Key, Value)>
  {
    match PageKey(page)
    case None => None
    case Some(k) =>
      if IsSet(Arr(existing), k) then
        match ReadDim(Index(Arr(existing), k), "subscribed")
        case None => None
        case Some(held) =>
          match SetIndex(page, Str("subscribed"), held)
          case None => None
          case Some(p) => Some((k, p))
      else Some((k, page))
  }

  /** The second loop, over the fetched pages. */
  function Merged(existing: seq<(Key, Value)>, fetched: seq<Value>): Option<seq<(Key, Value)>>
    decreases |fetched|
  {
    if |fetched| == 0 then Some(existing)
    else match Refreshed(existing, fetched[0])
      case None => None
      case Some(e) => Merged(Put(existing, e.0, e.1), fetched[1..])
  }

  /** The merged page list, `array_values($existing)`; None when PHP throws. */
  function MergedPages(stored: seq<Value>, fetched: seq<Value>): Option<seq<Value>>
  {
    match Keyed([], stored)
    case None => None
    case Some(existing) =>
      match Merged(existing, fetched)
      case None => None
      case Some(m) => Some(Values(m))
  }

  /** The first loop: the stored pages keyed by id. */
  method KeyPages(stored: seq<Value>) returns (r: Option<seq<(Key, Value)>>)
    ensures r == Keyed([], stored)
  {
    var existing := [];
    var i := 0;
    while i < |stored|
      invariant 0 <= i <= |stored|
      invariant Keyed(existing, stored[i..]) == Keyed([], stored)
    {
      assert stored[i..][0] == stored[i] && stored[i..][1..] == stored[i + 1..];
      var k := PageKey(stored[i]);
      if k.None? {
        return None;
      }
      existing := Put(existing, k.value, stored[i]);
      i := i + 1;
    }
    return Some(existing);
  }

  /** The second loop: each fetched page, with the flag of the page held
      under its id, replaces that page. */
  method MergeFetched(keyed: seq<(Key, Value)>, fetched: seq<Value>) returns (r: Option<seq<(Key, Value)>>)
    ensures r == Merged(keyed, fetched)
  {
    var existing := keyed;
    var i := 0;
    while i < |fetched|
      invariant 0 <= i <= |fetched|
      invariant Merged(existing, fetched[i..]) == Merged(keyed, fetched)
    {
      assert fetched[i..][0] == fetched[i] && fetched[i..][1..] == fetched[i + 1..];
      var k := PageKey(fetched[i]);
      if k.None? {
        return None;
      }
      var page := fetched[i];
      if IsSet(Arr(existing), k.value) {
        var held := ReadDim(Index(Arr(existing), k.value), "subscribed");
        if held.None? {
          return None;
        }
        var p := SetIndex(page, Str("subscribed"), held.value);
        if p.None? {
          assert Refreshed(existing, fetched[i]).None?;
          return None;
        }
        page := p.value;
      }
      assert Refreshed(existing, fetched[i]) == Some((k.value, page));
      existing := Put(existing, k.value, page);
      i := i + 1;
    }
    return Some(existing);
  }

  /** Both loops and `array_values`. */
  method MergePages(stored: seq<Value>, fetched: seq<Value>) returns (r: Option<seq<Value>>)
    ensures r == MergedPages(stored, fetched)
  {
    var keyed := KeyPages(stored);
    if keyed.None? {
      return None;
    }
    var merged := MergeFetched(keyed.value, fetched);
    if merged.None? {
      return None;
    }
    return Some(Values(merged.value));
  }

  /** A page as the Graph API client builds it: an array whose id is not
      an array. */
  predicate IsPage(page: Value)
  {
    page.Arr? && !Index(page, SKey("id")).Arr?
  }

  predicate AllPages(pages: seq<Value>)
  {
    forall i :: 0 <= i < |pages| ==> IsPage(pages[i])
  }

  /** No two fetched pages share an id. */
  predicate DistinctIds(pages: seq<Value>)
  {
    forall i, j :: 0 <= i < j < |pages| ==> PageKey(pages[i]) != PageKey(pages[j])
  }

  function PageEntries(pages: seq<Value>): (es: seq<(Key, Value)>)
    requires AllPages(pages)
    ensures |es| == |pages|
    ensures forall i :: 0 <= i < |pages| ==> Some(es[i].0) == PageKey(pages[i]) && es[i].1 == pages[i]
  {
    seq(|pages|, i requires 0 <= i < |pages| => (PageKey(pages[i]).value, pages[i]))
  }

  /** A fetched page with the flag of the page `existing` holds under its id. */
  function RefreshOf(existing: seq<(Key, Value)>, page: Value): Value
    requires IsPage(page)
  {
    var k := PageKey(page).value;
    if IsSet(Arr(existing), k) then Arr(Put(page.a, SKey("subscribed"), Index(Index(Arr(existing), k), SKey("subscribed"))))
    else page
  }

  function RefreshedEntries(existing: seq<(Key, Value)>, pages: seq<Value>): (es: seq<(Key, Value)>)
    requires AllPages(pages)
    ensures |es| == |pages|
    ensures forall i :: 0 <= i < |pages| ==> Some(es[i].0) == PageKey(pages[i]) && es[i].1 == RefreshOf(existing, pages[i])
  {
    seq(|pages|, i requires 0 <= i < |pages| => (PageKey(pages[i]).value, RefreshOf(existing, pages[i])))
  }

  lemma {:induction false} KeyedWrites(existing: seq<(Key, Value)>, stored: seq<Value>)
    requires AllPages(stored)
    ensures Keyed(existing, stored) == Some(PutAll(existing, PageEntries(stored)))
    decreases |stored|
  {
    if |stored| > 0 {
      assert AllPages(stored[1..]) by {
        assert forall i :: 0 <= i < |stored[1..]| ==> stored[1..][i] == stored[i + 1];
      }
      KeyedWrites(Put(existing, PageEntries(stored)[0].0, stored[0]), stored[1..]);
      assert PageEntries(stored)[1..] == PageEntries(stored[1..]);
    }
  }

  /** One fetched page against an accumulator that agrees with `existing`
      on its id. */
  lemma RefreshedIs(acc: seq<(Key, Value)>, existing: seq<(Key, Value)>, page: Value)
    requires IsPage(page)
    requires Get(acc, PageKey(page).value) == Get(existing, PageKey(page).value)
    requires !Index(Arr(existing), PageKey(page).value).Str?
    ensures Refreshed(acc, page) == Some((PageKey(page).value, RefreshOf(existing, page)))
  {
    var k := PageKey(page).value;
    assert Index(Arr(acc), k) == Index(Arr(existing), k);
    ReadName(Index(Arr(existing), k), "subscribed");
    SetIndexName(page.a, "subscribed", Index(Index(Arr(existing), k), SKey("subscribed")));
  }

  /** The second loop's first step writes the first fetched page refreshed. */
  lemma MergedHead(acc: seq<(Key, Value)>, existing: seq<(Key, Value)>, fetched: seq<Value>)
    requires |fetched| > 0 && IsPage(fetched[0])
    requires Get(acc, PageKey(fetched[0]).value) == Get(existing, PageKey(fetched[0]).value)
    requires !Index(Arr(existing), PageKey(fetched[0]).value).Str?
    ensures Merged(acc, fetched) ==
      Merged(Put(acc, PageKey(fetched[0]).value, RefreshOf(existing, fetched[0])), fetched[1..])
  {
    RefreshedIs(acc, existing, fetched[0]);
  }

  /** After that step the rest of the fetch still sees `existing`. */
  lemma MergedRest(acc: seq<(Key, Value)>, existing: seq<(Key, Value)>, fetched: seq<Value>)
    requires |fetched| > 0 && AllPages(fetched) && DistinctIds(fetched)
    requires forall i :: 0 <= i < |fetched| ==> Get(acc, PageKey(fetched[i]).value) == Get(existing, PageKey(fetched[i]).value)
    ensures var acc' := Put(acc, PageKey(fetched[0]).value, RefreshOf(existing, fetched[0]));
      var rest := fetched[1..];
      AllPages(rest) && DistinctIds(rest) &&
      forall i :: 0 <= i < |rest| ==> Get(acc', PageKey(rest[i]).value) == Get(existing, PageKey(rest[i]).value)
  {
    var k := PageKey(fetched[0]).value;
    var v := RefreshOf(existing, fetched[0]);
    var rest := fetched[1..];
    assert forall i :: 0 <= i < |rest| ==> rest[i] == fetched[i + 1];
    forall i | 0 <= i < |rest| ensures Get(Put(acc, k, v), PageKey(rest[i]).value) == Get(existing, PageKey(rest[i]).value) {
      GetPut(acc, k, v, PageKey(rest[i]).value);
    }
  }

  /** With distinct fetched ids, each fetched page sees the existing page
      of the first loop, so the second loop writes the refreshed pages. */
  lemma {:induction false} MergedWrites(acc: seq<(Key, Value)>, existing: seq<(Key, Value)>, fetched: seq<Value>)
    requires AllPages(fetched) && DistinctIds(fetched)
    requires forall i :: 0 <= i < |fetched| ==> Get(acc, PageKey(fetched[i]).value) == Get(existing, PageKey(fetched[i]).value)
    requires forall k :: !Index(Arr(existing), k).Str?
    ensures Merged(acc, fetched) == Some(PutAll(acc, RefreshedEntries(existing, fetched)))
    decreases |fetched|
  {
    if |fetched| > 0 {
      var acc' := Put(acc, PageKey(fetched[0]).value, RefreshOf(existing, fetched[0]));
      MergedHead(acc, existing, fetched);
      MergedRest(acc, existing, fetched);
      MergedWrites(acc', existing, fetched[1..]);
      assert RefreshedEntries(existing, fetched)[1..] == RefreshedEntries(existing, fetched[1..]);
    }
  }

  /** The first loop keys only pages, so nothing it holds is a string. */
  lemma KeyedHoldsPages(stored: seq<Value>)
    requires AllPages(stored)
    ensures forall k :: !Index(Arr(PutAll([], PageEntries(stored))), k).Str?
  {
    var es := PageEntries(stored);
    forall k ensures !Index(Arr(PutAll([], es)), k).Str? {
      GetPutAll([], es, k);
      var g := Get(PutAll([], es), k);
      if g.Some? {
        assert (k, g.value) in es;
        var j :| 0 <= j < |es| && es[j] == (k, g.value);
        assert IsPage(stored[j]);
      }
    }
  }

  function PageKeys(pages: seq<Value>): seq<Key>
    requires AllPages(pages)
  {
    Keys(PageEntries(pages))
  }

  /** The page merge, for stored and fetched pages as the client builds
      them and a fetch that lists each page once:
      - the stored pages are keyed by id, the last page for an id winning;
      - nothing throws;
      - the stored ids keep their order and the ids new in the fetch
        follow in fetch order;
      - a fetched page replaces the stored page with its id but keeps its
        `subscribed` flag;
      - a stored page absent from the fetch is kept as it is. */
  lemma PageMerge(stored: seq<Value>, fetched: seq<Value>, k: Key)
    requires AllPages(stored) && AllPages(fetched) && DistinctIds(fetched)
    ensures Keyed([], stored) == Some(PutAll([], PageEntries(stored)))
    ensures var existing := PutAll([], PageEntries(stored));
      Get(existing, k) == LastValue(PageEntries(stored), k) &&
      Merged(existing, fetched).Some? &&
      var m := Merged(existing, fetched).value;
      MergedPages(stored, fetched) == Some(Values(m)) &&
      Keys(m) == Keys(existing) + Fresh(PageKeys(fetched), existing) &&
      (forall i :: 0 <= i < |fetched| ==> Get(m, PageKey(fetched[i]).value) == Some(RefreshOf(existing, fetched[i]))) &&
      (k !in PageKeys(fetched) ==> Get(m, k) == Get(existing, k))
  {
    KeyedWrites([], stored);
    var existing := PutAll([], PageEntries(stored));
    assert Get(existing, k) == LastValue(PageEntries(stored), k) by {
      GetPutAll([], PageEntries(stored), k);
    }
    var es := RefreshedEntries(existing, fetched);
    var m := PutAll(existing, es);
    assert Merged(existing, fetched) == Some(m) by {
      KeyedHoldsPages(stored);
      MergedWrites(existing, existing, fetched);
    }
    assert Distinct(es) && Keys(es) == PageKeys(fetched);
    assert Keys(m) == Keys(existing) + Fresh(PageKeys(fetched), existing) by {
      PutAllKeysDistinct(existing, es);
    }
    forall i | 0 <= i < |fetched| ensures Get(m, PageKey(fetched[i]).value) == Some(RefreshOf(existing, fetched[i])) {
      GetPutAllDistinct(existing, es, es[i].0);
      GetAt(es, i);
    }
    if k !in PageKeys(fetched) {
      GetPutAllDistinct(existing, es, k);
    }
  }

  /** A refreshed page carries the stored page's `subscribed` flag when a
      page is stored under its id, and is otherwise the fetched page;
      every other field is the fetched page's. */
  lemma RefreshKeepsFlag(existing: seq<(Key, Value)>, page: Value, f: Key)
    requires IsPage(page)
    ensures var k := PageKey(page).value;
      if IsSet(Arr(existing), k) then
        Index(RefreshOf(existing, page), SKey("subscribed")) == Index(Index(Arr(existing), k), SKey("subscribed")) &&
        (f != SKey("subscribed") ==> Index(RefreshOf(existing, page), f) == Index(page, f))
      else RefreshOf(existing, page) == page
  {
    var k := PageKey(page).value;
    GetPut(page.a, SKey("subscribed"), Index(Index(Arr(existing), k), SKey("subscribed")), f);
    GetPut(page.a, SKey("subscribed"), Index(Index(Arr(existing), k), SKey("subscribed")), SKey("subscribed"));
  }

  // ---------------------------------------------------------------------
  // subscribe_page / unsubscribe_page

  /** `$page['id'] === $page_id`. */
  predicate HasId(page: Value, id: string)
  {
    Index(page, SKey("id")) == Str(id)
  }

  /** The first page with the id. */
  function FirstPage(pages: seq<(Key, Value)>, id: string): (r: Option<nat>)
    ensures r.Some? ==> r.value < |pages| && HasId(pages[r.value].1, id)
    ensures r.Some? ==> forall j :: 0 <= j < r.value ==> !HasId(pages[j].1, id)
    ensures r.None? <==> forall j :: 0 <= j < |pages| ==> !HasId(pages[j].1, id)
  {
    if |pages| == 0 then None
    else if HasId(pages[0].1, id) then Some(0)
    else match FirstPage(pages[1..], id)
      case None =>
        assert forall j :: 1 <= j < |pages| ==> pages[j] == pages[1..][j - 1];
        None
      case Some(i) => Some(i + 1)
  }

  /** A page before position `n` is a string: reading its `id` throws. */
  predicate StringBefore(pages: seq<(Key, Value)>, n: int)
  {
    exists j :: 0 <= j < n && j < |pages| && pages[j].1.Str?
  }

  /** The token the first loop takes: the `access_token` of the first page
      with the id, '' when no page has it; None when PHP throws, reading
      the id of a string page the loop reaches before. */
  function PageToken(pages: seq<(Key, Value)>, id: string): Option<Value>
  {
    match FirstPage(pages, id)
    case None => if StringBefore(pages, |pages|) then None else Some(Str(""))
    case Some(i) => if StringBefore(pages, i) then None else ReadDim(pages[i].1, "access_token")
  }

  /** The first loop throws exactly when it reaches a string page: one
      before any page with the id. */
  lemma PageTokenThrows(pages: seq<(Key, Value)>, id: string)
    ensures PageToken(pages, id).None? <==>
      exists j :: 0 <= j < |pages| && pages[j].1.Str? && forall l :: 0 <= l < j ==> !HasId(pages[l].1, id)
  {
    match FirstPage(pages, id)
    case None =>
    case Some(i) =>
      ReadName(pages[i].1, "access_token");
      if j :| 0 <= j < |pages| && pages[j].1.Str? && forall l :: 0 <= l < j ==> !HasId(pages[l].1, id) {
        assert j != i;
        assert j < i;
      }
  }

  /** A string stored before the page asked for: `subscribe_page` throws
      at its id, and so does the page merge of `refresh_pages` and
      `exchange_token`, whatever is fetched. */
  lemma StringPageThrows(fetched: seq<Value>)
    ensures var pages := [(IKey(0), Str("abc")), (IKey(1), Arr([(SKey("id"), Str("P")), (SKey("access_token"), Str("t"))]))];
      PageToken(pages, "P").None? && MergedPages([Str("abc")], fetched).None?
  {
    var pages := [(IKey(0), Str("abc")), (IKey(1), Arr([(SKey("id"), Str("P")), (SKey("access_token"), Str("t"))]))];
    PageTokenThrows(pages, "P");
    assert pages[0].1.Str?;
  }

  method FindToken(pages: seq<(Key, Value)>, id: string) returns (token: Option<Value>)
    ensures token == PageToken(pages, id)
  {
    var i := 0;
    while i < |pages|
      invariant 0 <= i <= |pages|
      invariant forall j :: 0 <= j < i ==> !HasId(pages[j].1, id) && !pages[j].1.Str?
    {
      ReadName(pages[i].1, "id");
      var pageId := ReadDim(pages[i].1, "id");
      if pageId.None? {
        PageTokenThrows(pages, id);
        assert pages[i].1.Str? && forall l :: 0 <= l < i ==> !HasId(pages[l].1, id);
        return None;
      }
      if pageId.value == Str(id) {
        FirstPageAt(pages, id, i);
        return ReadDim(pages[i].1, "access_token");
      }
      i := i + 1;
    }
    assert FirstPage(pages, id).None?;
    return Some(Str(""));
  }

  /** The first page with the id is the one every earlier page lacks it
      before. */
  lemma FirstPageAt(pages: seq<(Key, Value)>, id: string, i: nat)
    requires i < |pages| && HasId(pages[i].1, id)
    requires forall j :: 0 <= j < i ==> !HasId(pages[j].1, id)
    ensures FirstPage(pages, id) == Some(i)
  {
    var r := FirstPage(pages, id);
    assert r.Some?;
    assert !(r.value < i);
    assert !(r.value > i);
  }

  /** A page with `subscribed` set to `flag`, when it has the id. */
  function WithFlag(page: Value, id: string, flag: bool): Value
  {
    if HasId(page, id) then Arr(Put(page.a, SKey("subscribed"), Bool(flag))) else page
  }

  /** The by-reference loop setting the flag on every page with the id. */
  function Flagged(pages: seq<(Key, Value)>, id: string, flag: bool): (r: seq<(Key, Value)>)
    ensures |r| == |pages| && Keys(r) == Keys(pages)
    ensures forall i :: 0 <= i < |pages| ==> (r[i].1.Str? <==> pages[i].1.Str?)
  {
    seq(|pages|, i requires 0 <= i < |pages| => (pages[i].0, WithFlag(pages[i].1, id, flag)))
  }

  /** The by-reference loop; None when PHP throws reading the id of a
      string page, which leaves the stored pages as they were. */
  method FlagPages(pages: seq<(Key, Value)>, id: string, flag: bool) returns (r: Option<seq<(Key, Value)>>)
    ensures r == if StringBefore(pages, |pages|) then None else Some(Flagged(pages, id, flag))
  {
    var ps := pages;
    var i := 0;
    while i < |ps|
      invariant 0 <= i <= |ps| == |pages|
      invariant forall j :: 0 <= j < i ==> ps[j] == (pages[j].0, WithFlag(pages[j].1, id, flag)) && !pages[j].1.Str?
      invariant forall j :: i <= j < |ps| ==> ps[j] == pages[j]
    {
      ReadName(ps[i].1, "id");
      var pageId := ReadDim(ps[i].1, "id");
      if pageId.None? {
        assert pages[i].1.Str?;
        return None;
      }
      if pageId.value == Str(id) {
        ps := ps[i := (ps[i].0, Arr(Put(ps[i].1.a, SKey("subscribed"), Bool(flag))))];
      }
      i := i + 1;
    }
    assert ps == Flagged(pages, id, flag);
    return Some(ps);
  }

  /** Only the pages with the id change, and on them only `subscribed`,
      which becomes `flag`. */
  lemma FlaggedOnly(pages: seq<(Key, Value)>, id: string, flag: bool, i: nat, f: Key)
    requires i < |pages|
    ensures !HasId(pages[i].1, id) ==> Flagged(pages, id, flag)[i] == pages[i]
    ensures HasId(pages[i].1, id) ==>
      Index(Flagged(pages, id, flag)[i].1, SKey("subscribed")) == Bool(flag) &&
      (f != SKey("subscribed") ==> Index(Flagged(pages, id, flag)[i].1, f) == Index(pages[i].1, f))
  {
    if HasId(pages[i].1, id) {
      GetPut(pages[i].1.a, SKey("subscribed"), Bool(flag), f);
      GetPut(pages[i].1.a, SKey("subscribed"), Bool(flag), SKey("subscribed"));
    }
  }

  /** Flagging twice is flagging once with the later flag: subscribing
      again changes nothing, and unsubscribing undoes a subscription's
      flag. */
  lemma FlagTwice(pages: seq<(Key, Value)>, id: string, a: bool, b: bool)
    ensures Flagged(Flagged(pages, id, a), id, b) == Flagged(pages, id, b)
  {
    var once := Flagged(pages, id, a);
    forall i | 0 <= i < |pages| ensures Flagged(once, id, b)[i] == Flagged(pages, id, b)[i] {
      if HasId(pages[i].1, id) {
        GetPut(pages[i].1.a, SKey("subscribed"), Bool(a), SKey("id"));
        PutPut(pages[i].1.a, SKey("subscribed"), Bool(a), Bool(b));
      }
    }
  }

  // ---------------------------------------------------------------------
  // The settings writes

  lemma IndexWellFormed(v: Value, k: Key)
    requires WellFormed(v)
    ensures WellFormed(Index(v, k))
  {
    if v.Arr? && k in Keys(v.a) {
      var i :| 0 <= i < |v.a| && v.a[i] == (k, Index(v, k));
    }
  }

  /** What `$settings->get($key, $default)` returns is well formed. */
  lemma LookupWellFormed(all: seq<(Key, Value)>, key: string, default: Value)
    requires WellFormed(Arr(all)) && WellFormed(default)
    ensures WellFormed(Lookup(all, key, default))
  {
    IndexWellFormed(Arr(all), ArrayKey(key));
  }

  lemma PutWellFormed(m: seq<(Key, Value)>, k: Key, v: Value)
    requires WellFormed(Arr(m)) && WellFormed(v)
    ensures WellFormed(Arr(Put(m, k, v)))
  {
    PutAllWellFormed(m, [(k, v)]);
    assert PutAll(m, [(k, v)]) == PutAll(Put(m, k, v), []);
  }

  lemma FlaggedWellFormed(pages: seq<(Key, Value)>, id: string, flag: bool)
    requires WellFormed(Arr(pages))
    ensures WellFormed(Arr(Flagged(pages, id, flag)))
  {
    forall i | 0 <= i < |pages| ensures WellFormed(Flagged(pages, id, flag)[i].1) {
      assert WellFormed(pages[i].1);
      if HasId(pages[i].1, id) {
        PutWellFormed(pages[i].1.a, SKey("subscribed"), Bool(flag));
      }
    }
  }

  ghost predicate PagesWellFormed(pages: seq<Value>)
  {
    forall i :: 0 <= i < |pages| ==> WellFormed(pages[i])
  }

  lemma {:induction false} KeyedWellFormed(existing: seq<(Key, Value)>, stored: seq<Value>)
    requires WellFormed(Arr(existing)) && PagesWellFormed(stored)
    ensures Keyed(existing, stored).Some? ==> WellFormed(Arr(Keyed(existing, stored).value))
    decreases |stored|
  {
    if |stored| > 0 && PageKey(stored[0]).Some? {
      PutWellFormed(existing, PageKey(stored[0]).value, stored[0]);
      assert forall i :: 0 <= i < |stored[1..]| ==> stored[1..][i] == stored[i + 1];
      KeyedWellFormed(Put(existing, PageKey(stored[0]).value, stored[0]), stored[1..]);
    }
  }

  lemma RefreshedWellFormed(existing: seq<(Key, Value)>, page: Value)
    requires WellFormed(Arr(existing)) && WellFormed(page)
    ensures Refreshed(existing, page).Some? ==> WellFormed(Refreshed(existing, page).value.1)
  {
    if PageKey(page).Some? {
      var k := PageKey(page).value;
      if IsSet(Arr(existing), k) {
        var held := Index(Arr(existing), k);
        IndexWellFormed(Arr(existing), k);
        ReadName(held, "subscribed");
        if !held.Str? {
          var flag := Index(held, SKey("subscribed"));
          IndexWellFormed(held, SKey("subscribed"));
          if page.Arr? {
            PutWellFormed(page.a, SKey("subscribed"), flag);
            SetIndexName(page.a, "subscribed", flag);
          }
        }
      }
    }
  }

  lemma {:induction false} MergedWellFormed(existing: seq<(Key, Value)>, fetched: seq<Value>)
    requires WellFormed(Arr(existing)) && PagesWellFormed(fetched)
    ensures Merged(existing, fetched).Some? ==> WellFormed(Arr(Merged(existing, fetched).value))
    decreases |fetched|
  {
    if |fetched| > 0 && Refreshed(existing, fetched[0]).Some? {
      var e := Refreshed(existing, fetched[0]).value;
      assert WellFormed(Arr(Put(existing, e.0, e.1))) by {
        assert WellFormed(fetched[0]);
        RefreshedWellFormed(existing, fetched[0]);
        PutWellFormed(existing, e.0, e.1);
      }
      assert PagesWellFormed(fetched[1..]) by {
        assert forall i :: 0 <= i < |fetched[1..]| ==> fetched[1..][i] == fetched[i + 1];
      }
      MergedWellFormed(Put(existing, e.0, e.1), fetched[1..]);
    }
  }

  /** The merged list is a well-formed PHP list whenever its inputs are. */
  lemma MergedPagesWellFormed(stored: seq<Value>, fetched: seq<Value>)
    requires PagesWellFormed(stored) && PagesWellFormed(fetched)
    ensures MergedPages(stored, fetched).Some? ==> WellFormed(Arr(List(MergedPages(stored, fetched).value)))
  {
    KeyedWellFormed([], stored);
    if Keyed([], stored).Some? {
      MergedWellFormed(Keyed([], stored).value, fetched);
    }
    if MergedPages(stored, fetched).Some? {
      ListDistinct(MergedPages(stored, fetched).value);
    }
  }

  lemma StoredPagesWellFormed(all: seq<(Key, Value)>)
    requires WellFormed(Arr(all))
    ensures WellFormed(Arr(Elements(Lookup(all, "pages", Arr([])))))
    ensures PagesWellFormed(Values(Elements(Lookup(all, "pages", Arr([])))))
  {
    LookupWellFormed(all, "pages", Arr([]));
  }

  /** The one-key updates the page actions pass to `update`. */
  function PagesUpdate(pages: Value): (u: seq<(Key, Value)>)
    ensures WellFormed(pages) ==> WellFormed(Arr(u))
  {
    [(SKey("pages"), pages)]
  }

  /** How a page action ends: done, refused (with an error notice), without
      a token, or with PHP throwing. */
  datatype Outcome = Done | Failed | NoToken | Threw

  /** `sanitize_text_field(wp_unslash($_POST['page_id']))`, '' when not posted. */
  function PostedId(san: Sanitizers, post: seq<(Key, Value)>): string
  {
    var v := At(Arr(post), "page_id");
    if v != Null then CleanValue(san, v) else ""
  }

  /** `subscribe_page` (flag true, `api` the subscribe call) and
      `unsubscribe_page` (flag false, the unsubscribe call). The call is
      made only with a non-empty token; the pages change only when it
      succeeds. A token held as an array fails the `string` parameter, and
      a string page throws in whichever loop reads its id first. */
  method SetSubscribed(settings: FlfblSettings.Settings, san: Sanitizers, post: seq<(Key, Value)>,
                       flag: bool, api: (string, string) -> bool)
    returns (o: Outcome)
    requires settings.Valid()
    modifies settings
    ensures settings.Valid()
    ensures var pages := Elements(Lookup(old(settings.All()), "pages", Arr([])));
      var id := PostedId(san, post);
      match PageToken(pages, id)
      case None => o == Threw && settings.option == old(settings.option)
      case Some(token) =>
        if !Truthy(token) || token.Arr? || !api(id, ToStr(token)) then
          o == (if Truthy(token) && token.Arr? then Threw else Failed) && settings.option == old(settings.option)
        else if StringBefore(pages, |pages|) then
          o == Threw && settings.option == old(settings.option)
        else
          o == Done && settings.option == Some(Arr(PutAll(old(settings.All()), PagesUpdate(Arr(Flagged(pages, id, flag))))))
  {
    var id := PostedId(san, post);
    var pages := Elements(settings.Get("pages", Arr([])));
    var token := FindToken(pages, id);
    if token.None? {
      return Threw;
    }
    if !Truthy(token.value) {
      return Failed;
    }
    if token.value.Arr? {
      return Threw;
    }
    if !api(id, ToStr(token.value)) {
      return Failed;
    }
    var flagged := FlagPages(pages, id, flag);
    if flagged.None? {
      return Threw;
    }
    FlfblSettings.AllWellFormed(settings.option);
    StoredPagesWellFormed(settings.All());
    FlaggedWellFormed(pages, id, flag);
    var written := settings.Update(PagesUpdate(Arr(flagged.value)));
    return Done;
  }

  /** `refresh_pages`: without a long-lived token nothing is fetched or
      written; an empty fetch writes nothing; otherwise the merged list
      is stored. */
  method RefreshPages(settings: FlfblSettings.Settings, fetch: string -> seq<Value>) returns (o: Outcome)
    requires settings.Valid()
    requires forall t :: PagesWellFormed(fetch(t))
    modifies settings
    ensures settings.Valid()
    ensures var token := Lookup(old(settings.All()), "long_lived_token", Null);
      var stored := Values(Elements(Lookup(old(settings.All()), "pages", Arr([]))));
      if !Truthy(token) then o == NoToken && settings.option == old(settings.option)
      else if token.Arr? then o == Threw && settings.option == old(settings.option)
      else if |fetch(ToStr(token))| == 0 then o == Failed && settings.option == old(settings.option)
      else match MergedPages(stored, fetch(ToStr(token)))
        case None => o == Threw && settings.option == old(settings.option)
        case Some(ps) => o == Done && settings.option == Some(Arr(PutAll(old(settings.All()), PagesUpdate(Arr(List(ps))))))
  {
    var token := settings.Get("long_lived_token", Null);
    if !Truthy(token) {
      return NoToken;
    }
    if token.Arr? {
      return Threw;
    }
    var fetched := fetch(ToStr(token));
    if |fetched| == 0 {
      return Failed;
    }
    var stored := Values(Elements(settings.Get("pages", Arr([]))));
    var merged := MergePages(stored, fetched);
    if merged.None? {
      return Threw;
    }
    FlfblSettings.AllWellFormed(settings.option);
    StoredPagesWellFormed(settings.All());
    MergedPagesWellFormed(stored, fetched);
    var written := settings.Update(PagesUpdate(Arr(List(merged.value))));
    return Done;
  }

  /** `trim(wp_unslash($_POST[$name]))`, '' when not posted; None when it
      is an array, which `trim` refuses. */
  function PostedToken(san: Sanitizers, post: seq<(Key, Value)>, name: string): Option<string>
  {
    match At(Arr(post), name)
    case Null => Some("")
    case Arr(_) => None
    case Str(s) => Some(Trim(san.unslash(s)))
    case v => Some(Trim(ToStr(v)))
  }

  /** The user token and the long-lived token `exchange_token` stores: a
      non-empty user token is exchanged, and a non-empty exchanged token
      replaces the posted long-lived one. */
  function ExchangedTokens(san: Sanitizers, post: seq<(Key, Value)>, exchange: string -> Option<string>): Option<(string, string)>
  {
    match PostedToken(san, post, "user_token")
    case None => None
    case Some(user) =>
      match PostedToken(san, post, "long_lived_token")
      case None => None
      case Some(long) =>
        var exchanged := if Truthy(Str(user)) then exchange(user) else None;
        Some((user, if exchanged.Some? && Truthy(Str(exchanged.value)) then exchanged.value else long))
  }

  function TokenUpdate(user: string, long: string): (u: seq<(Key, Value)>)
    ensures WellFormed(Arr(u))
  {
    [(SKey("user_token"), Str(user)), (SKey("long_lived_token"), Str(long))]
  }

  /** `exchange_token`: the tokens are stored first; with a non-empty
      long-lived token the fetched pages are merged into the stored ones
      and written too. */
  method ExchangeToken(settings: FlfblSettings.Settings, san: Sanitizers, post: seq<(Key, Value)>,
                       exchange: string -> Option<string>, fetch: string -> seq<Value>)
    returns (o: Outcome)
    requires settings.Valid()
    requires forall t :: PagesWellFormed(fetch(t))
    modifies settings
    ensures settings.Valid()
    ensures match ExchangedTokens(san, post, exchange)
      case None => o == Threw && settings.option == old(settings.option)
      case Some((user, long)) =>
        var w := PutAll(old(settings.All()), TokenUpdate(user, long));
        var all := FlfblSettings.AllOf(Some(Arr(w)));
        if !Truthy(Str(long)) || |fetch(long)| == 0 then o == Done && settings.option == Some(Arr(w))
        else match MergedPages(Values(Elements(Lookup(all, "pages", Arr([])))), fetch(long))
          case None => o == Threw && settings.option == Some(Arr(w))
          case Some(ps) => o == Done && settings.option == Some(Arr(PutAll(all, PagesUpdate(Arr(List(ps))))))
  {
    var user := PostedToken(san, post, "user_token");
    if user.None? {
      return Threw;
    }
    var long := PostedToken(san, post, "long_lived_token");
    if long.None? {
      return Threw;
    }
    var longLived := long.value;
    if Truthy(Str(user.value)) {
      var exchanged := exchange(user.value);
      if exchanged.Some? && Truthy(Str(exchanged.value)) {
        longLived := exchanged.value;
      }
    }
    var w := settings.Update(TokenUpdate(user.value, longLived));
    if !Truthy(Str(longLived)) {
      return Done;
    }
    var fetched := fetch(longLived);
    if |fetched| == 0 {
      return Done;
    }
    var stored := Values(Elements(settings.Get("pages", Arr([]))));
    var merged := MergePages(stored, fetched);
    if merged.None? {
      return Threw;
    }
    FlfblSettings.AllWellFormed(settings.option);
    StoredPagesWellFormed(settings.All());
    MergedPagesWellFormed(stored, fetched);
    var written := settings.Update(PagesUpdate(Arr(List(merged.value))));
    return Done;
  }
}

/**
 * The lead pipeline of the FluentCRM lead plugin
 * (`fluentcrm-facebook-leads/includes/class-lead-processor.php`): a Graph
 * API lead is normalised into a field map, mapped onto FluentCRM fields,
 * matched against existing contacts, and written to the contact store
 * together with its meta, tags and lists.
 *
 * Literal array keys such as 'name' or 'email' are not decimal integers,
 * so PHP keeps them as string keys; they are written `SKey(..)` here.
 */
module LeadProcessor {
  import opened Wrappers
  import opened PhpStrings
  import opened PhpValues
  import opened OrderedMap
  import opened WordPress
  import opened CrmStore
  import FlfblSettings

  // ---------------------------------------------------------------------
  // normalize_fields

  /** What one `field_data` entry does to the normalised map. */
  datatype Step = Skip | Crash | Emit(key: Key, value: Value)

  /** One iteration of the `field_data` loop: entries whose name or first
      value is empty are skipped; the name is lower-cased (an array name
      makes `strtolower` throw); the value is `values[0]`, or `values`
      itself when it is a string. */
  function FieldStep(field: Value): (s: Step)
    ensures s.Emit? <==> (Truthy(Index(field, SKey("name"))) &&
      Truthy(Index(Index(field, SKey("values")), IKey(0))) && !Index(field, SKey("name")).Arr?)
    ensures s.Emit? ==> s.key == ArrayKey(ToLower(ToStr(Index(field, SKey("name")))))
    ensures s.Emit? && Index(field, SKey("values")).Arr? ==> s.value == Index(Index(field, SKey("values")), IKey(0))
    ensures s.Crash? ==> Index(field, SKey("name")).Arr?
  {
    var name := Index(field, SKey("name"));
    var values := Index(field, SKey("values"));
    if Empty(name) || Empty(Index(values, IKey(0))) then Skip
    else if name.Arr? then Crash
    else Emit(ArrayKey(ToLower(ToStr(name))), if values.Arr? then Index(values, IKey(0)) else values)
  }

  /** The loop over `field_data`, from an accumulated map; None when an
      entry throws. */
  function Normalized(acc: seq<(Key, Value)>, fields: seq<Value>): Option<seq<(Key, Value)>>
    decreases |fields|
  {
    if |fields| == 0 then Some(acc)
    else match FieldStep(fields[0])
      case Skip => Normalized(acc, fields[1..])
      case Crash => None
      case Emit(k, v) => Normalized(Put(acc, k, v), fields[1..])
  }

  /** The entries the loop writes, in order. */
  function Emits(fields: seq<Value>): (es: seq<(Key, Value)>)
    decreases |fields|
  {
    if |fields| == 0 then []
    else
      var rest := Emits(fields[1..]);
      match FieldStep(fields[0])
      case Emit(k, v) => [(k, v)] + rest
      case _ => rest
  }

  /** An entry is written exactly when some field emits it. */
  lemma {:induction false} EmitsMembers(fields: seq<Value>, e: (Key, Value))
    ensures e in Emits(fields) <==> exists i :: 0 <= i < |fields| && FieldStep(fields[i]) == Emit(e.0, e.1)
    decreases |fields|
  {
    if |fields| > 0 {
      var rest := fields[1..];
      EmitsMembers(rest, e);
      assert forall i :: 1 <= i < |fields| ==> fields[i] == rest[i - 1];
      if exists i :: 0 <= i < |fields| && FieldStep(fields[i]) == Emit(e.0, e.1) {
        var i :| 0 <= i < |fields| && FieldStep(fields[i]) == Emit(e.0, e.1);
        if i > 0 {
          assert FieldStep(rest[i - 1]) == Emit(e.0, e.1);
        }
      }
    }
  }

  predicate Throws(fields: seq<Value>)
  {
    exists i :: 0 <= i < |fields| && FieldStep(fields[i]).Crash?
  }

  lemma ThrowsTail(fields: seq<Value>)
    requires |fields| > 0
    ensures Throws(fields) <==> FieldStep(fields[0]).Crash? || Throws(fields[1..])
  {
    var rest := fields[1..];
    if Throws(rest) {
      var j :| 0 <= j < |rest| && FieldStep(rest[j]).Crash?;
      assert fields[j + 1] == rest[j];
    }
    if Throws(fields) && !FieldStep(fields[0]).Crash? {
      var j :| 0 <= j < |fields| && FieldStep(fields[j]).Crash?;
      assert rest[j - 1] == fields[j];
    }
  }

  /** The loop either throws on some entry or writes exactly its emitted
      entries in order. */
  lemma {:induction false} NormalizedWrites(acc: seq<(Key, Value)>, fields: seq<Value>)
    ensures Normalized(acc, fields) == if Throws(fields) then None else Some(PutAll(acc, Emits(fields)))
    decreases |fields|
  {
    if |fields| > 0 {
      var rest := fields[1..];
      ThrowsTail(fields);
      match FieldStep(fields[0])
      case Crash =>
      case Skip =>
        NormalizedWrites(acc, rest);
        assert Emits(fields) == Emits(rest);
      case Emit(k, v) =>
        NormalizedWrites(Put(acc, k, v), rest);
        var es := Emits(fields);
        assert es == [(k, v)] + Emits(rest);
        assert es[1..] == Emits(rest);
    }
  }

  /** `normalize_fields($lead)`: the `field_data` list when it is a
      non-empty array, nothing otherwise. */
  function NormalizeOf(lead: seq<(Key, Value)>): Option<seq<(Key, Value)>>
  {
    var fd := Index(Arr(lead), SKey("field_data"));
    if Truthy(fd) && fd.Arr? then Normalized([], Values(fd.a)) else Some([])
  }

  method NormalizeFields(lead: seq<(Key, Value)>) returns (r: Option<seq<(Key, Value)>>)
    ensures r == NormalizeOf(lead)
  {
    var fd := Index(Arr(lead), SKey("field_data"));
    if !(Truthy(fd) && fd.Arr?) {
      return Some([]);
    }
    var fields := Values(fd.a);
    var acc := [];
    var i := 0;
    while i < |fields|
      invariant 0 <= i <= |fields|
      invariant Normalized(acc, fields[i..]) == Normalized([], fields)
    {
      assert fields[i..][0] == fields[i] && fields[i..][1..] == fields[i + 1..];
      var step := FieldStep(fields[i]);
      if step.Crash? {
        return None;
      }
      if step.Emit? {
        acc := Put(acc, step.key, step.value);
      }
      i := i + 1;
    }
    return Some(acc);
  }

  /** Each normalised entry comes from a non-skipped field, under its
      lower-cased name with its first value; a later field with the same
      name overwrites an earlier one; keys are distinct. */
  lemma NormalizeGet(fields: seq<Value>, k: Key)
    requires Normalized([], fields).Some?
    ensures Get(Normalized([], fields).value, k) == LastValue(Emits(fields), k)
    ensures Distinct(Normalized([], fields).value)
  {
    NormalizedWrites([], fields);
    GetPutAll([], Emits(fields), k);
    PutAllKeys([], Emits(fields));
  }

  /** Normalised string keys hold no upper-case letter. */
  lemma NormalizedKeysLowerCase(fields: seq<Value>, k: Key)
    requires Normalized([], fields).Some?
    requires k in Keys(Normalized([], fields).value) && k.SKey?
    ensures forall j :: 0 <= j < |k.s| ==> !('A' <= k.s[j] <= 'Z')
  {
    NormalizeGet(fields, k);
    var v := LastValue(Emits(fields), k).value;
    assert (k, v) in Emits(fields);
    EmitsMembers(fields, (k, v));
    var i :| 0 <= i < |fields| && FieldStep(fields[i]) == Emit(k, v);
    var name := ToLower(ToStr(Index(fields[i], SKey("name"))));
    assert ArrayKey(name) == k;
    assert k.s == name;
    forall j | 0 <= j < |k.s| ensures !('A' <= k.s[j] <= 'Z') {
      LowerCharIsLower(ToStr(Index(fields[i], SKey("name")))[j]);
    }
  }

  /** A field whose first value is the string "0" is skipped, as `empty`
      treats "0" as empty. */
  lemma ZeroValueSkipped(field: Value)
    requires Index(Index(field, SKey("values")), IKey(0)) == Str("0")
    ensures FieldStep(field) == Skip
  {
  }

  // ---------------------------------------------------------------------
  // map_fields

  /** `$a ?? $b` on values read with `Index`. */
  function Coalesce(a: Value, b: Value): (r: Value)
    ensures a != Null ==> r == a
    ensures a == Null ==> r == b
  {
    if a != Null then a else b
  }

  /** One iteration of the mapping loop for field `name` with `value`: a
      field the standard map knows is written under its target; otherwise
      a field the custom map knows is written into `mapped['custom']`;
      otherwise nothing. When a standard target has already put a string
      under `custom`, the custom write replaces one character of it. None
      when PHP throws: an array used as a key, `mapped['custom']` holding
      `true` or a number, or a string write PHP refuses. */
  function MapStep(mapped: seq<(Key, Value)>, fieldMap: Value, customMap: Value, name: Key, value: Value): Option<seq<(Key, Value)>>
  {
    var target := Index(fieldMap, name);
    if target != Null then
      match ToKey(target)
      case None => None
      case Some(k) => Some(Put(mapped, k, value))
    else
      var custom := Index(customMap, name);
      if custom != Null then
        match SetIndex(Index(Arr(mapped), SKey("custom")), custom, value)
        case None => None
        case Some(c) => Some(Put(mapped, SKey("custom"), c))
      else Some(mapped)
  }

  /** The `foreach ($fields as $name => $value)` loop from `mapped`. */
  function Mapped(mapped: seq<(Key, Value)>, fieldMap: Value, customMap: Value, fields: seq<(Key, Value)>): Option<seq<(Key, Value)>>
    decreases |fields|
  {
    if |fields| == 0 then Some(mapped)
    else match MapStep(mapped, fieldMap, customMap, fields[0].0, fields[0].1)
      case None => None
      case Some(m) => Mapped(m, fieldMap, customMap, fields[1..])
  }

  /** A target of the standard map for one of the fields. */
  predicate StandardTarget(fieldMap: Value, fields: seq<(Key, Value)>, k: Key)
  {
    exists i :: 0 <= i < |fields| && Index(fieldMap, fields[i].0) != Null && ToKey(Index(fieldMap, fields[i].0)) == Some(k)
  }

  /** The standard map takes precedence: a field it knows goes to its
      target whatever the custom map says. */
  lemma StandardWins(mapped: seq<(Key, Value)>, fieldMap: Value, customMap: Value, name: Key, value: Value, k: Key)
    requires Index(fieldMap, name) != Null && ToKey(Index(fieldMap, name)) == Some(k)
    ensures MapStep(mapped, fieldMap, customMap, name, value) == Some(Put(mapped, k, value))
  {
  }

  /** Custom targets land only under 'custom': every top-level key the loop
      adds is a standard-map target or 'custom'. */
  lemma {:induction false} MappedKeys(mapped: seq<(Key, Value)>, fieldMap: Value, customMap: Value, fields: seq<(Key, Value)>, k: Key)
    requires Mapped(mapped, fieldMap, customMap, fields).Some?
    requires k in Keys(Mapped(mapped, fieldMap, customMap, fields).value)
    ensures k in Keys(mapped) || k == SKey("custom") || StandardTarget(fieldMap, fields, k)
    decreases |fields|
  {
    if |fields| > 0 {
      var m := MapStep(mapped, fieldMap, customMap, fields[0].0, fields[0].1).value;
      MappedKeys(m, fieldMap, customMap, fields[1..], k);
      if StandardTarget(fieldMap, fields[1..], k) {
        var i :| 0 <= i < |fields[1..]| && Index(fieldMap, fields[1..][i].0) != Null && ToKey(Index(fieldMap, fields[1..][i].0)) == Some(k);
        assert fields[1..][i] == fields[i + 1];
      } else if k in Keys(m) && k !in Keys(mapped) && k != SKey("custom") {
        assert Index(fieldMap, fields[0].0) != Null;
      }
    }
  }

  /** `preg_split('/\s+/', trim($full))` split into its first piece and the
      rest joined by single spaces; None when `trim` is given an array. */
  function SplitName(full: Value): Option<(string, string)>
  {
    if full.Arr? then None
    else
      var parts := SplitWs(Trim(ToStr(full)));
      Some((parts[0], Implode(" ", parts[1..])))
  }

  /** `$mapped['first_name'] = ...; $mapped['last_name'] = ...;` from a split. */
  function WithSplit(mapped: seq<(Key, Value)>, full: Value): Option<seq<(Key, Value)>>
  {
    match SplitName(full)
    case None => None
    case Some(p) => Some(Put(Put(mapped, SKey("first_name"), Str(p.0)), SKey("last_name"), Str(p.1)))
  }

  /** The first name block: when neither name part is set, the full name is
      taken from the mapped `full_name`, else the field `full_name`, else
      the field `name`, and split when it is non-empty. */
  function NameFilled(mapped: seq<(Key, Value)>, fields: seq<(Key, Value)>): Option<seq<(Key, Value)>>
  {
    if Empty(Index(Arr(mapped), SKey("first_name"))) && Empty(Index(Arr(mapped), SKey("last_name"))) then
      var full := Coalesce(Index(Arr(mapped), SKey("full_name")),
        Coalesce(Index(Arr(fields), SKey("full_name")), Coalesce(Index(Arr(fields), SKey("name")), Str(""))));
      if Truthy(full) then WithSplit(mapped, full) else Some(mapped)
    else Some(mapped)
  }

  /** The second name block, which splits a non-empty mapped `full_name`
      when both name parts are still empty. */
  function SecondSplit(mapped: seq<(Key, Value)>): Option<seq<(Key, Value)>>
  {
    if Truthy(Index(Arr(mapped), SKey("full_name"))) && Empty(Index(Arr(mapped), SKey("first_name")))
      && Empty(Index(Arr(mapped), SKey("last_name")))
    then WithSplit(mapped, Index(Arr(mapped), SKey("full_name")))
    else Some(mapped)
  }

  /** `map_fields($fields)` with the configured field and custom maps. */
  function MapFieldsOf(fields: seq<(Key, Value)>, fieldMap: Value, customMap: Value): Option<seq<(Key, Value)>>
  {
    match Mapped([], fieldMap, customMap, fields)
    case None => None
    case Some(m) =>
      match NameFilled(m, fields)
      case None => None
      case Some(m') => SecondSplit(m')
  }

  method MapFields(fields: seq<(Key, Value)>, fieldMap: Value, customMap: Value) returns (r: Option<seq<(Key, Value)>>)
    ensures r == MapFieldsOf(fields, fieldMap, customMap)
  {
    var mapped := [];
    var i := 0;
    while i < |fields|
      invariant 0 <= i <= |fields|
      invariant Mapped(mapped, fieldMap, customMap, fields[i..]) == Mapped([], fieldMap, customMap, fields)
    {
      assert fields[i..][0] == fields[i] && fields[i..][1..] == fields[i + 1..];
      var step := MapStep(mapped, fieldMap, customMap, fields[i].0, fields[i].1);
      if step.None? {
        return None;
      }
      mapped := step.value;
      i := i + 1;
    }
    var named := NameFilled(mapped, fields);
    if named.None? {
      return None;
    }
    r := SecondSplit(named.value);
  }

  /** Writing "red" at offset 5 of "blue" pads with one space. */
  lemma BlueRed()
    ensures SetIndex(Str("blue"), Str("5"), Str("red")) == Some(Str("blue r"))
  {
    OffsetOfDecimal(5);
    assert Decimal(5) == "5";
    assert StringOffset(Str("5")) == Some(5);
    assert Spaces(1) == " ";
    assert WriteOffset("blue", 5, Str("red")) == Some("blue" + " " + "r");
    assert "blue" + " " + "r" == "blue r";
  }

  /** `fav` is a standard field mapped to `custom`. */
  lemma FavStep()
    ensures MapStep([], Arr([(SKey("fav"), Str("custom"))]), Arr([(SKey("color"), Str("5"))]), SKey("fav"), Str("blue"))
      == Some([(SKey("custom"), Str("blue"))])
  {
    NameKey("custom");
    assert Index(Arr([(SKey("fav"), Str("custom"))]), SKey("fav")) == Str("custom");
    assert Put([], SKey("custom"), Str("blue")) == [(SKey("custom"), Str("blue"))];
  }

  /** The lookups of the `color` step. */
  lemma ColorLookups()
    ensures Index(Arr([(SKey("fav"), Str("custom"))]), SKey("color")) == Null
    ensures Index(Arr([(SKey("color"), Str("5"))]), SKey("color")) == Str("5")
    ensures Index(Arr([(SKey("custom"), Str("blue"))]), SKey("custom")) == Str("blue")
    ensures Put([(SKey("custom"), Str("blue"))], SKey("custom"), Str("blue r")) == [(SKey("custom"), Str("blue r"))]
  {
  }

  /** `color` is a custom field with custom key `"5"`. */
  lemma ColorStep()
    ensures MapStep([(SKey("custom"), Str("blue"))], Arr([(SKey("fav"), Str("custom"))]), Arr([(SKey("color"), Str("5"))]),
                    SKey("color"), Str("red"))
      == Some([(SKey("custom"), Str("blue r"))])
  {
    ColorLookups();
    BlueRed();
  }

  /** The mapping loop of the example below. */
  lemma MappedExample()
    ensures Mapped([], Arr([(SKey("fav"), Str("custom"))]), Arr([(SKey("color"), Str("5"))]),
                   [(SKey("fav"), Str("blue")), (SKey("color"), Str("red"))])
      == Some([(SKey("custom"), Str("blue r"))])
  {
    var fields := [(SKey("fav"), Str("blue")), (SKey("color"), Str("red"))];
    FavStep();
    ColorStep();
    assert fields[1..] == [(SKey("color"), Str("red"))] && fields[1..][1..] == [];
  }

  /** Neither name block of the example below changes anything. */
  lemma NamesExample()
    ensures NameFilled([(SKey("custom"), Str("blue r"))], [(SKey("fav"), Str("blue")), (SKey("color"), Str("red"))])
      == Some([(SKey("custom"), Str("blue r"))])
    ensures SecondSplit([(SKey("custom"), Str("blue r"))]) == Some([(SKey("custom"), Str("blue r"))])
  {
    var m2 := [(SKey("custom"), Str("blue r"))];
    var fields := [(SKey("fav"), Str("blue")), (SKey("color"), Str("red"))];
    assert Index(Arr(m2), SKey("first_name")) == Null;
    assert Index(Arr(m2), SKey("last_name")) == Null;
    assert Index(Arr(m2), SKey("full_name")) == Null;
    assert Index(Arr(fields), SKey("full_name")) == Null;
    assert Index(Arr(fields), SKey("name")) == Null;
  }

  /** A custom field whose custom key is an integer, once a standard
      target has put a string under `custom`: PHP writes one character into
      that string and goes on. Here `fav` maps to `custom` and `color` to
      custom key `"5"`, so "blue" becomes "blue r". */
  lemma CustomOffsetWrite()
    ensures MapFieldsOf([(SKey("fav"), Str("blue")), (SKey("color"), Str("red"))],
                        Arr([(SKey("fav"), Str("custom"))]), Arr([(SKey("color"), Str("5"))]))
      == Some([(SKey("custom"), Str("blue r"))])
  {
    MappedExample();
    NamesExample();
  }

  /** Splitting the same name twice writes the same two entries again. */
  lemma WithSplitTwice(mapped: seq<(Key, Value)>, full: Value)
    requires WithSplit(mapped, full).Some?
    ensures WithSplit(WithSplit(mapped, full).value, full) == WithSplit(mapped, full)
  {
    var p := SplitName(full).value;
    var m1 := Put(mapped, SKey("first_name"), Str(p.0));
    var m2 := Put(m1, SKey("last_name"), Str(p.1));
    GetPut(m1, SKey("last_name"), Str(p.1), SKey("first_name"));
    GetPut(mapped, SKey("first_name"), Str(p.0), SKey("first_name"));
    PutSame(m2, SKey("first_name"), Str(p.0));
    GetPut(m1, SKey("last_name"), Str(p.1), SKey("last_name"));
    PutSame(m2, SKey("last_name"), Str(p.1));
  }

  /** The second name block never changes what the first one produced:
      when it runs, it repeats the first block's split of the same name. */
  lemma SecondSplitRedundant(mapped: seq<(Key, Value)>, fields: seq<(Key, Value)>)
    requires NameFilled(mapped, fields).Some?
    ensures SecondSplit(NameFilled(mapped, fields).value) == NameFilled(mapped, fields)
  {
    var m' := NameFilled(mapped, fields).value;
    var fullName := Index(Arr(mapped), SKey("full_name"));
    if m' != mapped {
      var full := Coalesce(fullName,
        Coalesce(Index(Arr(fields), SKey("full_name")), Coalesce(Index(Arr(fields), SKey("name")), Str(""))));
      var p := SplitName(full).value;
      var m1 := Put(mapped, SKey("first_name"), Str(p.0));
      GetPut(m1, SKey("last_name"), Str(p.1), SKey("full_name"));
      GetPut(mapped, SKey("first_name"), Str(p.0), SKey("full_name"));
      assert Index(Arr(m'), SKey("full_name")) == fullName;
      if Truthy(fullName) && Empty(Index(Arr(m'), SKey("first_name"))) && Empty(Index(Arr(m'), SKey("last_name"))) {
        assert full == fullName;
        WithSplitTwice(mapped, full);
      }
    }
  }

  /** Names written as single-space-separated words split back into the
      first word and the rest. */
  lemma SplitNameOfWords(words: seq<string>)
    requires |words| >= 1
    requires forall i, j :: 0 <= i < |words| && 0 <= j < |words[i]| ==> !IsSpace(words[i][j]) && !IsTrimChar(words[i][j])
    requires forall i :: 0 <= i < |words| ==> |words[i]| > 0
    ensures SplitName(Str(Implode(" ", words))) == Some((words[0], Implode(" ", words[1..])))
  {
    SplitWsImplode(words);
    ImplodeTrimmed(words);
    TrimOfTrimmed(Implode(" ", words));
  }

  // ---------------------------------------------------------------------
  // find_subscriber

  /** The row found for the mapped data: the first row with the same
      email when the email is non-empty and such a row exists, else the
      first row with the same phone when the phone is non-empty. */
  function FindSubscriber(rows: seq<Subscriber>, mapped: seq<(Key, Value)>): (r: Option<nat>)
    ensures r.Some? ==> r.value < |rows|
    ensures var email := Index(Arr(mapped), SKey("email"));
      Truthy(email) && FirstMatch(rows, "email", email).Some? ==> r == FirstMatch(rows, "email", email)
    ensures var email := Index(Arr(mapped), SKey("email"));
      var phone := Index(Arr(mapped), SKey("phone"));
      (Empty(email) || FirstMatch(rows, "email", email).None?) ==>
        r == if Truthy(phone) then FirstMatch(rows, "phone", phone) else None
  {
    var email := Index(Arr(mapped), SKey("email"));
    var phone := Index(Arr(mapped), SKey("phone"));
    if Truthy(email) && FirstMatch(rows, "email", email).Some? then FirstMatch(rows, "email", email)
    else if Truthy(phone) && FirstMatch(rows, "phone", phone).Some? then FirstMatch(rows, "phone", phone)
    else None
  }

  /** No contact is found exactly when neither a non-empty email nor a
      non-empty phone matches any row. */
  lemma FindSubscriberNone(rows: seq<Subscriber>, mapped: seq<(Key, Value)>)
    ensures var email := Index(Arr(mapped), SKey("email"));
      var phone := Index(Arr(mapped), SKey("phone"));
      FindSubscriber(rows, mapped).None? <==>
        (Empty(email) || forall j :: 0 <= j < |rows| ==> Column(rows[j], "email") != email) &&
        (Empty(phone) || forall j :: 0 <= j < |rows| ==> Column(rows[j], "phone") != phone)
  {
  }

  // ---------------------------------------------------------------------
  // prepare_subscriber_payload

  /** The contact columns the payload may carry. */
  const Allowed: seq<string> := ["email", "first_name", "last_name", "phone", "address_line_1",
    "address_line_2", "city", "state", "postal_code", "country", "company", "job_title"]

  lemma NotAllowed()
    ensures "status" !in Allowed && "full_name" !in Allowed && "custom" !in Allowed
  {
  }

  /** The allow-list loop: each listed key that is set and not `''` is copied. */
  function Copied(payload: seq<(Key, Value)>, mapped: seq<(Key, Value)>, keys: seq<string>): seq<(Key, Value)>
    decreases |keys|
  {
    if |keys| == 0 then payload
    else
      var v := Index(Arr(mapped), SKey(keys[0]));
      Copied(if v != Null && v != Str("") then Put(payload, SKey(keys[0]), v) else payload, mapped, keys[1..])
  }

  /** One turn of the allow-list loop. */
  lemma CopiedStep(before: seq<(Key, Value)>, after: seq<(Key, Value)>, mapped: seq<(Key, Value)>, keys: seq<string>, i: nat)
    requires i < |keys|
    requires var v := Index(Arr(mapped), SKey(keys[i]));
      after == if v != Null && v != Str("") then Put(before, SKey(keys[i]), v) else before
    ensures Copied(after, mapped, keys[i + 1..]) == Copied(before, mapped, keys[i..])
  {
    assert keys[i..][0] == keys[i] && keys[i..][1..] == keys[i + 1..];
  }

  /** After the loop, a listed key holds the mapped value when that is set
      and not `''`, and the old payload entry otherwise; keys not listed
      keep their old entries. */
  lemma {:induction false} CopiedGet(payload: seq<(Key, Value)>, mapped: seq<(Key, Value)>, keys: seq<string>, k: Key)
    ensures var v := Index(Arr(mapped), k);
      Get(Copied(payload, mapped, keys), k) ==
        if k.SKey? && k.s in keys && v != Null && v != Str("") then Some(v) else Get(payload, k)
    decreases |keys|
  {
    if |keys| > 0 {
      var v0 := Index(Arr(mapped), SKey(keys[0]));
      var p' := if v0 != Null && v0 != Str("") then Put(payload, SKey(keys[0]), v0) else payload;
      CopiedGet(p', mapped, keys[1..], k);
      GetPut(payload, SKey(keys[0]), v0, k);
      assert k.SKey? && k.s in keys <==> k == SKey(keys[0]) || (k.SKey? && k.s in keys[1..]);
    }
  }

  /** `prepare_subscriber_payload`: the allow-listed values; for a new
      contact also the configured status and the re-sanitised email
      (`sanitize_email` throws on an array). */
  function PayloadOf(mapped: seq<(Key, Value)>, status: Value, existing: bool, san: Sanitizers): Option<seq<(Key, Value)>>
  {
    Finished(Copied([], mapped, Allowed), mapped, status, existing, san)
  }

  /** The payload after the allow-list loop, from the copied values `base`. */
  function Finished(base: seq<(Key, Value)>, mapped: seq<(Key, Value)>, status: Value, existing: bool, san: Sanitizers):
    Option<seq<(Key, Value)>>
  {
    if existing then Some(base)
    else
      var withStatus := Put(base, SKey("status"), status);
      var email := Index(Arr(mapped), SKey("email"));
      if Empty(email) then Some(withStatus)
      else if email.Arr? then None
      else Some(Put(withStatus, SKey("email"), Str(san.email(ToStr(email)))))
  }

  /** The allow-list loop of `prepare_subscriber_payload`, over the keys
      `keys`. */
  method CopyKeys(mapped: seq<(Key, Value)>, keys: seq<string>) returns (payload: seq<(Key, Value)>)
    ensures payload == Copied([], mapped, keys)
  {
    payload := [];
    var i := 0;
    ghost var copied := Copied([], mapped, keys);
    while i < |keys|
      invariant 0 <= i <= |keys|
      invariant Copied(payload, mapped, keys[i..]) == copied
    {
      var v := Index(Arr(mapped), SKey(keys[i]));
      ghost var before := payload;
      if v != Null && v != Str("") {
        payload := Put(payload, SKey(keys[i]), v);
      }
      CopiedStep(before, payload, mapped, keys, i);
      i := i + 1;
    }
    assert keys[i..] == [];
  }

  method PreparePayload(mapped: seq<(Key, Value)>, status: Value, existing: bool, san: Sanitizers)
    returns (r: Option<seq<(Key, Value)>>)
    ensures r == PayloadOf(mapped, status, existing, san)
  {
    var payload := CopyKeys(mapped, Allowed);
    if existing {
      return Some(payload);
    }
    payload := Put(payload, SKey("status"), status);
    var email := Index(Arr(mapped), SKey("email"));
    if Empty(email) {
      return Some(payload);
    }
    if email.Arr? {
      return None;
    }
    return Some(Put(payload, SKey("email"), Str(san.email(ToStr(email)))));
  }

  /** What the payload holds at each key: nothing outside the allow-list
      and `status`, so never `full_name` or `custom`; an existing contact
      gets no status; a new one gets the configured status and the
      sanitised email; every other allowed key carries the mapped value
      when it is set and not `''`. */
  lemma PayloadGet(mapped: seq<(Key, Value)>, status: Value, existing: bool, san: Sanitizers, k: Key)
    requires PayloadOf(mapped, status, existing, san).Some?
    ensures var p := PayloadOf(mapped, status, existing, san).value;
      var v := Index(Arr(mapped), k);
      var email := Index(Arr(mapped), SKey("email"));
      Get(p, k) ==
        if !existing && k == SKey("status") then Some(status)
        else if !existing && k == SKey("email") && Truthy(email) then Some(Str(san.email(ToStr(email))))
        else if k.SKey? && k.s in Allowed && v != Null && v != Str("") then Some(v)
        else None
  {
    var base := Copied([], mapped, Allowed);
    var v := Index(Arr(mapped), k);
    assert Get(base, k) == if k.SKey? && k.s in Allowed && v != Null && v != Str("") then Some(v) else None by {
      CopiedGet([], mapped, Allowed, k);
    }
    assert "status" !in Allowed && "email" in Allowed by {
      NotAllowed();
    }
    FinishedGet(base, mapped, status, existing, san, k);
  }

  lemma FinishedGet(base: seq<(Key, Value)>, mapped: seq<(Key, Value)>, status: Value, existing: bool, san: Sanitizers, k: Key)
    requires Finished(base, mapped, status, existing, san).Some?
    ensures var p := Finished(base, mapped, status, existing, san).value;
      var email := Index(Arr(mapped), SKey("email"));
      Get(p, k) ==
        if !existing && k == SKey("status") then Some(status)
        else if !existing && k == SKey("email") && Truthy(email) then Some(Str(san.email(ToStr(email))))
        else Get(base, k)
  {
    if !existing {
      var withStatus := Put(base, SKey("status"), status);
      GetPut(base, SKey("status"), status, k);
      GetPut(withStatus, SKey("email"), Str(san.email(ToStr(Index(Arr(mapped), SKey("email"))))), k);
    }
  }

  /** Neither `full_name` nor `custom` ever reaches the payload, and an
      existing contact's payload has no `status`. */
  lemma PayloadExcludes(mapped: seq<(Key, Value)>, status: Value, existing: bool, san: Sanitizers)
    requires PayloadOf(mapped, status, existing, san).Some?
    ensures SKey("full_name") !in Keys(PayloadOf(mapped, status, existing, san).value)
    ensures SKey("custom") !in Keys(PayloadOf(mapped, status, existing, san).value)
    ensures existing ==> SKey("status") !in Keys(PayloadOf(mapped, status, existing, san).value)
  {
    var p := PayloadOf(mapped, status, existing, san).value;
    assert SKey("full_name") !in Keys(p) by {
      PayloadGet(mapped, status, existing, san, SKey("full_name"));
      NotAllowed();
    }
    assert SKey("custom") !in Keys(p) by {
      PayloadGet(mapped, status, existing, san, SKey("custom"));
      NotAllowed();
    }
    if existing {
      PayloadGet(mapped, status, existing, san, SKey("status"));
      NotAllowed();
    }
  }

  // ---------------------------------------------------------------------
  // sync_lists_and_tags

  /** `array_filter(array_map('intval', $ids))`: each value's integer,
      under its own key, dropping zeros. */
  function NonZeroInts(ids: seq<(Key, Value)>): (r: seq<(Key, Value)>)
    ensures forall i :: 0 <= i < |r| ==> r[i].1.Int? && r[i].1.i != 0
    decreases |ids|
  {
    if |ids| == 0 then []
    else
      var n := IntVal(ids[0].1);
      if n != 0 then [(ids[0].0, Int(n))] + NonZeroInts(ids[1..]) else NonZeroInts(ids[1..])
  }

  /** Some value of `ids` has integer value `n`. */
  predicate HasIntVal(ids: seq<(Key, Value)>, n: int)
  {
    exists i :: 0 <= i < |ids| && IntVal(ids[i].1) == n
  }

  /** The ids attached are exactly the non-zero integer values of the
      setting's elements. */
  lemma {:induction false} NonZeroIntsSet(ids: seq<(Key, Value)>, x: Value)
    ensures x in IdSet(NonZeroInts(ids)) <==> x.Int? && x.i != 0 && HasIntVal(ids, x.i)
    decreases |ids|
  {
    if |ids| > 0 {
      var rest := NonZeroInts(ids[1..]);
      var r := NonZeroInts(ids);
      NonZeroIntsSet(ids[1..], x);
      assert x in IdSet(r) <==> (IntVal(ids[0].1) != 0 && x == Int(IntVal(ids[0].1))) || x in IdSet(rest) by {
        if IntVal(ids[0].1) != 0 {
          assert r == [(ids[0].0, Int(IntVal(ids[0].1)))] + rest;
          assert forall i :: 0 <= i < |rest| ==> rest[i] == r[i + 1];
          if x in IdSet(r) {
            var i :| 0 <= i < |r| && r[i].1 == x;
            if i > 0 {
              assert r[i] == rest[i - 1];
            }
          }
          if x in IdSet(rest) {
            var j :| 0 <= j < |rest| && rest[j].1 == x;
            assert r[j + 1].1 == x;
          }
          if x == Int(IntVal(ids[0].1)) {
            assert r[0].1 == x;
          }
        }
      }
      if x.Int? {
        assert HasIntVal(ids, x.i) <==> IntVal(ids[0].1) == x.i || HasIntVal(ids[1..], x.i) by {
          if HasIntVal(ids, x.i) {
            var i :| 0 <= i < |ids| && IntVal(ids[i].1) == x.i;
            if i > 0 {
              assert ids[1..][i - 1] == ids[i];
            }
          }
          if HasIntVal(ids[1..], x.i) {
            var i :| 0 <= i < |ids[1..]| && IntVal(ids[1..][i].1) == x.i;
            assert ids[i + 1] == ids[1..][i];
          }
        }
      }
    }
  }

  /** The ids `sync_lists_and_tags` attaches from a setting. */
  function IdsOf(setting: Value): seq<(Key, Value)>
  {
    NonZeroInts(ArrayCast(setting))
  }

  // ---------------------------------------------------------------------
  // sync_meta

  /** The `updateOrCreate` calls `sync_meta` makes, in order, as
      ((subscriber id, meta key), value) pairs: one for each custom-map
      entry whose Facebook key is set in the normalised fields. */
  function MetaWrites(id: int, customMap: seq<(Key, Value)>, fields: seq<(Key, Value)>): (ws: seq<((int, Value), Value)>)
    ensures forall i :: 0 <= i < |ws| ==> ws[i].0.0 == id
    decreases |customMap|
  {
    if |customMap| == 0 then []
    else
      var rest := MetaWrites(id, customMap[1..], fields);
      if IsSet(Arr(fields), customMap[0].0) then [((id, customMap[0].1), Index(Arr(fields), customMap[0].0))] + rest
      else rest
  }

  /** The meta records after the writes, in order. */
  function ApplyMeta(meta: map<(int, Value), Value>, ws: seq<((int, Value), Value)>): map<(int, Value), Value>
    decreases |ws|
  {
    if |ws| == 0 then meta else ApplyMeta(meta[ws[0].0 := ws[0].1], ws[1..])
  }

  /** Each record keyed by (subscriber id, meta key) ends with the value of
      the last write to it; records not written are untouched. */
  lemma {:induction false} ApplyMetaAt(meta: map<(int, Value), Value>, ws: seq<((int, Value), Value)>, key: (int, Value))
    ensures key in ApplyMeta(meta, ws) <==> key in meta || key in Keys(ws)
    ensures key in ApplyMeta(meta, ws) ==>
      ApplyMeta(meta, ws)[key] == match LastValue(ws, key) case Some(v) => v case None => meta[key]
    decreases |ws|
  {
    if |ws| > 0 {
      ApplyMetaAt(meta[ws[0].0 := ws[0].1], ws[1..], key);
      assert Keys(ws) == [ws[0].0] + Keys(ws[1..]);
    }
  }

  /** A meta key is written only for a custom-map entry whose Facebook key
      is set in the fields, and with that field's value. */
  lemma {:induction false} MetaWritesFrom(id: int, customMap: seq<(Key, Value)>, fields: seq<(Key, Value)>, w: ((int, Value), Value))
    requires w in MetaWrites(id, customMap, fields)
    ensures exists i :: 0 <= i < |customMap| && IsSet(Arr(fields), customMap[i].0) &&
                        w == ((id, customMap[i].1), Index(Arr(fields), customMap[i].0))
    decreases |customMap|
  {
    var rest := MetaWrites(id, customMap[1..], fields);
    if w in rest {
      MetaWritesFrom(id, customMap[1..], fields, w);
        var i :| 0 <= i < |customMap[1..]| && IsSet(Arr(fields), customMap[1..][i].0) &&
               w == ((id, customMap[1..][i].1), Index(Arr(fields), customMap[1..][i].0));
      assert customMap[1..][i] == customMap[i + 1];
    }
  }

  /** `sync_meta`: nothing when the custom map is empty. */
  function SyncedMeta(meta: map<(int, Value), Value>, id: int, customMap: Value, fields: seq<(Key, Value)>): map<(int, Value), Value>
  {
    if Empty(customMap) then meta else ApplyMeta(meta, MetaWrites(id, Elements(customMap), fields))
  }

  method SyncMeta(store: Store, id: int, customMap: Value, fields: seq<(Key, Value)>)
    modifies store
    ensures store.rows == old(store.rows)
    ensures store.meta == SyncedMeta(old(store.meta), id, customMap, fields)
  {
    if Empty(customMap) {
      return;
    }
    var entries := Elements(customMap);
    var i := 0;
    while i < |entries|
      invariant 0 <= i <= |entries|
      invariant store.rows == old(store.rows)
      invariant ApplyMeta(store.meta, MetaWrites(id, entries[i..], fields)) ==
        ApplyMeta(old(store.meta), MetaWrites(id, entries, fields))
    {
      assert entries[i..][0] == entries[i] && entries[i..][1..] == entries[i + 1..];
      if IsSet(Arr(fields), entries[i].0) {
        store.UpdateOrCreateMeta(id, entries[i].1, Index(Arr(fields), entries[i].0));
      }
      i := i + 1;
    }
  }

  // ---------------------------------------------------------------------
  // process_lead

  /** How `process_lead` ends: one of its three early returns, an uncaught
      PHP error (before anything is written), or a written contact. */
  datatype Outcome = NoFieldData | NoIdentifiers | NoEmailForNew | Threw | Updated(row: nat) | Created(row: nat)

  /** What `process_lead` decides before touching the store. */
  datatype Plan =
    | Stop(outcome: Outcome)
    | Write(target: Option<nat>, payload: seq<(Key, Value)>, fields: seq<(Key, Value)>)

  function Setting(all: seq<(Key, Value)>, key: string, default: Value): Value
  {
    Lookup(all, key, default)
  }

  function PlanOf(rows: seq<Subscriber>, all: seq<(Key, Value)>, san: Sanitizers, lead: seq<(Key, Value)>): (p: Plan)
    ensures p.Write? && p.target.Some? ==> p.target.value < |rows|
    ensures p.Write? ==>
      NormalizeOf(lead) == Some(p.fields) && MappedOf(all, p.fields).Some? &&
      p.target == FindSubscriber(rows, MappedOf(all, p.fields).value) &&
      PayloadOf(MappedOf(all, p.fields).value, Setting(all, "status", Str("subscribed")), p.target.Some?, san) == Some(p.payload)
  {
    match NormalizeOf(lead)
    case None => Stop(Threw)
    case Some(fields) =>
      if |fields| == 0 then Stop(NoFieldData)
      else match MappedOf(all, fields)
      case None => Stop(Threw)
      case Some(mapped) =>
        var email := Index(Arr(mapped), SKey("email"));
        if Empty(email) && Empty(Index(Arr(mapped), SKey("phone"))) then Stop(NoIdentifiers)
        else
          var target := FindSubscriber(rows, mapped);
          if target.None? && Empty(email) then Stop(NoEmailForNew)
          else match PayloadOf(mapped, Setting(all, "status", Str("subscribed")), target.Some?, san)
            case None => Stop(Threw)
            case Some(payload) => Write(target, payload, fields)
  }

  function OutcomeOf(plan: Plan, count: nat): Outcome
  {
    match plan
    case Stop(o) => o
    case Write(target, _, _) => if target.Some? then Updated(target.value) else Created(count)
  }

  /** `sync_lists_and_tags` on row `i`: each attach only with a non-empty list. */
  function Attached(rows: seq<Subscriber>, i: nat, tags: seq<(Key, Value)>, lists: seq<(Key, Value)>): (r: seq<Subscriber>)
    requires i < |rows|
    ensures |r| == |rows|
  {
    var r1 := if |tags| > 0 then rows[i := rows[i].(tags := rows[i].tags + IdSet(tags))] else rows;
    if |lists| > 0 then r1[i := r1[i].(lists := r1[i].lists + IdSet(lists))] else r1
  }

  /** The row written for a plan, before meta, tags and lists. */
  function Saved(rows: seq<Subscriber>, target: Option<nat>, payload: seq<(Key, Value)>): (r: seq<Subscriber>)
    requires target.Some? ==> target.value < |rows|
    ensures |r| == if target.Some? then |rows| else |rows| + 1
  {
    if target.Some? then rows[target.value := rows[target.value].(attrs := PutAll(rows[target.value].attrs, payload))]
    else rows + [Subscriber(|rows| + 1, payload, {}, {})]
  }

  /** The contact rows and meta records after `process_lead`. */
  function StoreAfter(rows: seq<Subscriber>, meta: map<(int, Value), Value>, all: seq<(Key, Value)>, plan: Plan):
    (seq<Subscriber>, map<(int, Value), Value>)
    requires plan.Write? && plan.target.Some? ==> plan.target.value < |rows|
  {
    match plan
    case Stop(_) => (rows, meta)
    case Write(target, payload, fields) =>
      var saved := Saved(rows, target, payload);
      var i := if target.Some? then target.value else |rows|;
      var meta' := SyncedMeta(meta, saved[i].id, Setting(all, "custom_field_map", Arr([])), fields);
      (Attached(saved, i, IdsOf(Setting(all, "tag_ids", Arr([]))), IdsOf(Setting(all, "list_ids", Arr([])))), meta')
  }

  /** The part of `process_lead` up to the first write: normalising,
      mapping, the three skip rules, the lookup and the payload. */
  method Decide(rows: seq<Subscriber>, settings: FlfblSettings.Settings, san: Sanitizers, lead: seq<(Key, Value)>)
    returns (plan: Plan)
    ensures plan == PlanOf(rows, settings.All(), san, lead)
  {
    var normalized := NormalizeFields(lead);
    if normalized.None? {
      return Stop(Threw);
    }
    var fields := normalized.value;
    if |fields| == 0 {
      return Stop(NoFieldData);
    }
    var mappedOpt := MapFields(fields, settings.Get("field_map", Arr([])), settings.Get("custom_field_map", Arr([])));
    if mappedOpt.None? {
      return Stop(Threw);
    }
    var mapped := mappedOpt.value;
    var email := Index(Arr(mapped), SKey("email"));
    if Empty(email) && Empty(Index(Arr(mapped), SKey("phone"))) {
      return Stop(NoIdentifiers);
    }
    var target := FindSubscriber(rows, mapped);
    if target.None? && Empty(email) {
      return Stop(NoEmailForNew);
    }
    var payload := PreparePayload(mapped, settings.Get("status", Str("subscribed")), target.Some?, san);
    if payload.None? {
      return Stop(Threw);
    }
    return Write(target, payload.value, fields);
  }

  /** The writes of `process_lead`: fill or create, then `sync_meta`, then
      `sync_lists_and_tags`. */
  method Execute(store: Store, all: seq<(Key, Value)>, plan: Plan)
    requires store.Valid()
    requires plan.Write? && plan.target.Some? ==> plan.target.value < |store.rows|
    modifies store
    ensures store.Valid()
    ensures (store.rows, store.meta) == StoreAfter(old(store.rows), old(store.meta), all, plan)
  {
    if plan.Stop? {
      return;
    }
    var i: nat;
    if plan.target.Some? {
      i := plan.target.value;
      store.Fill(i, plan.payload);
    } else {
      i := store.Create(plan.payload);
    }
    assert store.rows == Saved(old(store.rows), plan.target, plan.payload);
    SyncMeta(store, store.rows[i].id, Setting(all, "custom_field_map", Arr([])), plan.fields);
    var tags := IdsOf(Setting(all, "tag_ids", Arr([])));
    if |tags| > 0 {
      store.AttachTags(i, tags);
    }
    var lists := IdsOf(Setting(all, "list_ids", Arr([])));
    if |lists| > 0 {
      store.AttachLists(i, lists);
    }
  }

  /** `process_lead($lead)`. */
  method ProcessLead(store: Store, settings: FlfblSettings.Settings, san: Sanitizers, lead: seq<(Key, Value)>)
    returns (o: Outcome)
    requires store.Valid()
    modifies store
    ensures store.Valid()
    ensures o == OutcomeOf(PlanOf(old(store.rows), settings.All(), san, lead), |old(store.rows)|)
    ensures (store.rows, store.meta) ==
      StoreAfter(old(store.rows), old(store.meta), settings.All(), PlanOf(old(store.rows), settings.All(), san, lead))
  {
    var plan := Decide(store.rows, settings, san, lead);
    o := OutcomeOf(plan, |store.rows|);
    Execute(store, settings.All(), plan);
  }

  /** The three skip rules: no field data, no identifier, or no email for a
      contact that does not exist yet; each leaves the store as it was. */
  lemma SkipRules(rows: seq<Subscriber>, meta: map<(int, Value), Value>, all: seq<(Key, Value)>, san: Sanitizers, lead: seq<(Key, Value)>)
    ensures NormalizeOf(lead) == Some([]) ==> PlanOf(rows, all, san, lead) == Stop(NoFieldData)
    ensures var plan := PlanOf(rows, all, san, lead);
      plan.Stop? ==> StoreAfter(rows, meta, all, plan) == (rows, meta)
    ensures var plan := PlanOf(rows, all, san, lead);
      plan.Write? ==> NormalizeOf(lead) == Some(plan.fields) && |plan.fields| > 0
    ensures var plan := PlanOf(rows, all, san, lead);
      plan.Write? ==>
        var mapped := MappedOf(all, plan.fields).value;
        var email := Index(Arr(mapped), SKey("email"));
        (Truthy(email) || Truthy(Index(Arr(mapped), SKey("phone")))) &&
        (plan.target.None? ==> Truthy(email)) &&
        plan.target == FindSubscriber(rows, mapped)
  {
  }

  /** The mapped data `process_lead` works on. */
  function MappedOf(all: seq<(Key, Value)>, fields: seq<(Key, Value)>): Option<seq<(Key, Value)>>
  {
    MapFieldsOf(fields, Setting(all, "field_map", Arr([])), Setting(all, "custom_field_map", Arr([])))
  }

  /** The payload of a write: the configured status for a new contact,
      none for an existing one. */
  lemma PlanStatus(rows: seq<Subscriber>, all: seq<(Key, Value)>, san: Sanitizers, lead: seq<(Key, Value)>)
    requires PlanOf(rows, all, san, lead).Write?
    ensures var plan := PlanOf(rows, all, san, lead);
      plan.target.None? ==> Get(plan.payload, SKey("status")) == Some(Setting(all, "status", Str("subscribed")))
    ensures var plan := PlanOf(rows, all, san, lead);
      plan.target.Some? ==> SKey("status") !in Keys(plan.payload)
  {
    var plan := PlanOf(rows, all, san, lead);
    var fields := NormalizeOf(lead).value;
    var mapped := MappedOf(all, fields).value;
    var status := Setting(all, "status", Str("subscribed"));
    if plan.target.None? {
      PayloadGet(mapped, status, false, san, SKey("status"));
    } else {
      PayloadExcludes(mapped, status, true, san);
    }
  }

  /** A new contact is appended with the next id and the payload as its
      attributes; rows already there are untouched. */
  lemma CreatedContact(rows: seq<Subscriber>, meta: map<(int, Value), Value>, all: seq<(Key, Value)>, plan: Plan)
    requires plan.Write? && plan.target.None?
    ensures var rows' := StoreAfter(rows, meta, all, plan).0;
      |rows'| == |rows| + 1 && rows'[..|rows|] == rows && rows'[|rows|].id == |rows| + 1 &&
      rows'[|rows|].attrs == plan.payload
  {
    var saved := Saved(rows, plan.target, plan.payload);
    assert saved[..|rows|] == rows;
  }

  /** An existing contact keeps every attribute the payload does not carry
      and takes the payload's values for the rest; other rows are untouched. */
  lemma UpdatedContact(rows: seq<Subscriber>, meta: map<(int, Value), Value>, all: seq<(Key, Value)>, plan: Plan, k: Key)
    requires plan.Write? && plan.target.Some? && plan.target.value < |rows|
    ensures var t := plan.target.value;
      var rows' := StoreAfter(rows, meta, all, plan).0;
      |rows'| == |rows| &&
      (forall j :: 0 <= j < |rows| && j != t ==> rows'[j] == rows[j]) &&
      Get(rows'[t].attrs, k) == match LastValue(plan.payload, k) case Some(v) => Some(v) case None => Get(rows[t].attrs, k)
  {
    GetPutAll(rows[plan.target.value].attrs, plan.payload, k);
  }

  /** `process_lead` on a lead for a new contact sets the configured status
      (`subscribed` unless set); for an existing contact the stored status
      stays. */
  lemma StatusAfter(rows: seq<Subscriber>, meta: map<(int, Value), Value>, all: seq<(Key, Value)>, san: Sanitizers, lead: seq<(Key, Value)>)
    requires PlanOf(rows, all, san, lead).Write?
    ensures var plan := PlanOf(rows, all, san, lead);
      var rows' := StoreAfter(rows, meta, all, plan).0;
      plan.target.None? ==> Get(rows'[|rows|].attrs, SKey("status")) == Some(Setting(all, "status", Str("subscribed")))
    ensures var plan := PlanOf(rows, all, san, lead);
      var rows' := StoreAfter(rows, meta, all, plan).0;
      plan.target.Some? ==> Get(rows'[plan.target.value].attrs, SKey("status")) == Get(rows[plan.target.value].attrs, SKey("status"))
  {
    var plan := PlanOf(rows, all, san, lead);
    PlanStatus(rows, all, san, lead);
    if plan.target.None? {
      CreatedContact(rows, meta, all, plan);
    } else {
      UpdatedContact(rows, meta, all, plan, SKey("status"));
    }
  }

  /** Tags and lists: the contact's sets grow by exactly the non-zero
      integer ids of the settings (nothing when there are none), and the
      meta records are those `sync_meta` writes for the contact's id. */
  lemma SyncedContact(rows: seq<Subscriber>, meta: map<(int, Value), Value>, all: seq<(Key, Value)>, plan: Plan)
    requires plan.Write? && (plan.target.Some? ==> plan.target.value < |rows|)
    ensures var saved := Saved(rows, plan.target, plan.payload);
      var i := if plan.target.Some? then plan.target.value else |rows|;
      var after := StoreAfter(rows, meta, all, plan);
      after.0[i].attrs == saved[i].attrs && after.0[i].id == saved[i].id &&
      after.0[i].tags == saved[i].tags + IdSet(IdsOf(Setting(all, "tag_ids", Arr([])))) &&
      after.0[i].lists == saved[i].lists + IdSet(IdsOf(Setting(all, "list_ids", Arr([])))) &&
      after.1 == SyncedMeta(meta, saved[i].id, Setting(all, "custom_field_map", Arr([])), plan.fields)
  {
  }

  // ---------------------------------------------------------------------
  // handle_webhook

  /** `$payload['entry'][0]['changes'][0]['value']`, read as `empty` and `??` do. */
  function ChangeValue(payload: seq<(Key, Value)>): Value
  {
    Index(Index(Index(Index(Index(Arr(payload), SKey("entry")), IKey(0)), SKey("changes")), IKey(0)), SKey("value"))
  }

  /** The lead fetch `handle_webhook` asks for — the lead id and the page
      id, when that is non-empty — or None when it returns first. */
  function FetchRequest(payload: seq<(Key, Value)>): (r: Option<(string, Option<string>)>)
    ensures IsSet(Arr(payload), SKey("hub_challenge")) && IsSet(Arr(payload), SKey("hub_verify_token")) ==> r.None?
    ensures Empty(Index(ChangeValue(payload), SKey("leadgen_id"))) ==> r.None?
    ensures r.None? ==>
      (IsSet(Arr(payload), SKey("hub_challenge")) && IsSet(Arr(payload), SKey("hub_verify_token"))) ||
      Empty(Index(ChangeValue(payload), SKey("leadgen_id")))
    ensures r.Some? ==> r.value.0 == ToStr(Index(ChangeValue(payload), SKey("leadgen_id")))
  {
    if IsSet(Arr(payload), SKey("hub_challenge")) && IsSet(Arr(payload), SKey("hub_verify_token")) then None
    else
      var value := ChangeValue(payload);
      var leadId := Index(value, SKey("leadgen_id"));
      if Empty(leadId) then None
      else
        var pageId := Index(value, SKey("page_id"));
        Some((ToStr(leadId), if Truthy(pageId) then Some(ToStr(pageId)) else None))
  }

  datatype Handled = Ignored | NoLead | Processed(outcome: Outcome)

  /** The lead `fetch` returns for the payload's request, if one is made. */
  function FetchedLead(fetch: (string, Option<string>) -> Value, payload: seq<(Key, Value)>): Option<Value>
  {
    match FetchRequest(payload)
    case None => None
    case Some(req) => Some(fetch(req.0, req.1))
  }

  /** How `handle_webhook` ends. */
  function Handle(rows: seq<Subscriber>, all: seq<(Key, Value)>, san: Sanitizers,
                  fetch: (string, Option<string>) -> Value, payload: seq<(Key, Value)>): Handled
  {
    match FetchedLead(fetch, payload)
    case None => Ignored
    case Some(lead) =>
      if Empty(lead) then NoLead
      else if !lead.Arr? then Processed(Threw)
      else Processed(OutcomeOf(PlanOf(rows, all, san, lead.a), |rows|))
  }

  /** The store after `handle_webhook`. */
  function HandleStore(rows: seq<Subscriber>, meta: map<(int, Value), Value>, all: seq<(Key, Value)>, san: Sanitizers,
                       fetch: (string, Option<string>) -> Value, payload: seq<(Key, Value)>): (seq<Subscriber>, map<(int, Value), Value>)
  {
    match FetchedLead(fetch, payload)
    case None => (rows, meta)
    case Some(lead) =>
      if Truthy(lead) && lead.Arr? then StoreAfter(rows, meta, all, PlanOf(rows, all, san, lead.a)) else (rows, meta)
  }

  /** `handle_webhook($payload)`, with the Graph API lead fetch as `fetch`.
      A non-array lead makes `process_lead` throw. */
  method HandleWebhook(store: Store, settings: FlfblSettings.Settings, san: Sanitizers,
                       fetch: (string, Option<string>) -> Value, payload: seq<(Key, Value)>)
    returns (h: Handled)
    requires store.Valid()
    modifies store
    ensures store.Valid()
    ensures h == Handle(old(store.rows), settings.All(), san, fetch, payload)
    ensures (store.rows, store.meta) == HandleStore(old(store.rows), old(store.meta), settings.All(), san, fetch, payload)
  {
    var request := FetchRequest(payload);
    if request.None? {
      return Ignored;
    }
    var lead := fetch(request.value.0, request.value.1);
    if Empty(lead) {
      return NoLead;
    }
    if !lead.Arr? {
      return Processed(Threw);
    }
    var o := ProcessLead(store, settings, san, lead.a);
    h := Processed(o);
  }

  /** A handshake payload, or one without a lead id, triggers no fetch and
      no write; nothing is written either unless a contact is updated or
      created. */
  lemma HandleWithoutWrite(rows: seq<Subscriber>, meta: map<(int, Value), Value>, all: seq<(Key, Value)>, san: Sanitizers,
                           fetch: (string, Option<string>) -> Value, payload: seq<(Key, Value)>)
    ensures ((IsSet(Arr(payload), SKey("hub_challenge")) && IsSet(Arr(payload), SKey("hub_verify_token"))) ||
             Empty(Index(ChangeValue(payload), SKey("leadgen_id")))) ==>
      FetchedLead(fetch, payload).None? && Handle(rows, all, san, fetch, payload) == Ignored &&
      HandleStore(rows, meta, all, san, fetch, payload) == (rows, meta)
    ensures var h := Handle(rows, all, san, fetch, payload);
      !(h.Processed? && (h.outcome.Updated? || h.outcome.Created?)) ==>
      HandleStore(rows, meta, all, san, fetch, payload) == (rows, meta)
  {
    var lead := FetchedLead(fetch, payload);
    if lead.Some? && Truthy(lead.value) && lead.value.Arr? {
      var plan := PlanOf(rows, all, san, lead.value.a);
      assert Handle(rows, all, san, fetch, payload) == Processed(OutcomeOf(plan, |rows|));
      assert HandleStore(rows, meta, all, san, fetch, payload) == StoreAfter(rows, meta, all, plan);
    }
  }
}

/**
 * The admin settings page of the Facebook Leads for FluentCRM plugin
 * (`facebook-leads-fluentcrm/includes/Admin/SettingsPage.php`): the values
 * its form fields are rendered with, and the sanitize callback WordPress
 * runs on what the form posts back, whose result replaces the stored
 * settings.
 */
module FcrmSettingsPage {
  import opened Wrappers
  import opened PhpStrings
  import opened PhpValues
  import opened OrderedMap
  import opened WordPress
  import opened FcrmSettings

  /** `sanitize($values)`: an array is sanitized; any other scalar, which
      the caller's coercive mode turns into a string, gives back the stored
      settings; null does not fit the `array|string` parameter (None). */
  function Sanitize(stored: seq<(Key, Value)>, san: Sanitizers, values: Value): Option<seq<(Key, Value)>>
  {
    if values.Arr? then SanitizeOf(san, values.a)
    else if values == Null then None
    else Some(stored)
  }

  /** The text `render_text_field` fills in: a list joined with commas,
      anything else cast to string. */
  function FieldText(v: Value): string
  {
    if v.Arr? then Implode(",", seq(|v.a|, i requires 0 <= i < |v.a| => ToStr(v.a[i].1))) else ToStr(v)
  }

  /** The value of the text input named `name`. */
  function TextField(settings: seq<(Key, Value)>, name: string): string
  {
    FieldText(Lookup(settings, name, Str("")))
  }

  /** Whether the checkbox named `name` is rendered checked. */
  function Checkbox(settings: seq<(Key, Value)>, name: string): bool
  {
    Truthy(Lookup(settings, name, Bool(false)))
  }

  /** `$source . '=' . $target`: a mapping's line without its line break. */
  function Line(e: (Key, Value)): string
  {
    KeyString(e.0) + "=" + ToStr(e.1)
  }

  function Lines(es: seq<(Key, Value)>): (ls: seq<string>)
    ensures |ls| == |es| && forall i :: 0 <= i < |es| ==> ls[i] == Line(es[i])
  {
    seq(|es|, i requires 0 <= i < |es| => Line(es[i]))
  }

  /** The text the mapping loop accumulates: each line followed by
      PHP_EOL, taken as "\n". */
  function MappingText(es: seq<(Key, Value)>): string
  {
    Concat(Terminated("\n", Lines(es)))
  }

  /** The mappings `render_mappings` walks: the stored array, or nothing. */
  function StoredMappings(settings: seq<(Key, Value)>): seq<(Key, Value)>
  {
    Elements(Lookup(settings, "field_mappings", Arr([])))
  }

  /** The textarea content `render_mappings` fills in. */
  method RenderMappings(settings: seq<(Key, Value)>) returns (text: string)
    ensures text == Trim(MappingText(StoredMappings(settings)))
  {
    var value := MappingLines(StoredMappings(settings));
    text := Trim(value);
  }

  /** The loop of `render_mappings`: each mapping's line and a line break. */
  method MappingLines(mappings: seq<(Key, Value)>) returns (value: string)
    ensures value == MappingText(mappings)
  {
    ghost var lines := Terminated("\n", Lines(mappings));
    value := "";
    var i := 0;
    while i < |mappings|
      invariant 0 <= i <= |mappings|
      invariant value + Concat(lines[i..]) == Concat(lines)
    {
      var line := KeyString(mappings[i].0) + "=" + ToStr(mappings[i].1) + "\n";
      assert Concat(lines[i..]) == line + Concat(lines[i + 1..]) by {
        assert lines[i..][0] == lines[i] == line;
        assert lines[i..][1..] == lines[i + 1..];
      }
      value := value + line;
      i := i + 1;
    }
    assert lines[i..] == [];
  }

  /** What the form posts under the option's name, for the rendered field
      values: the four text fields always, the checkbox only when checked. */
  function PostOf(secret: string, lists: string, tags: string, maps: string, checked: bool): seq<(Key, Value)>
  {
    var p1 := Put([], SKey("webhook_secret"), Str(secret));
    var p2 := Put(p1, SKey("default_lists"), Str(lists));
    var p3 := Put(p2, SKey("default_tags"), Str(tags));
    var p4 := Put(p3, SKey("field_mappings"), Str(maps));
    PutOpt(p4, "logging_enabled", if checked then Some(Str("1")) else None)
  }

  lemma PostGet(secret: string, lists: string, tags: string, maps: string, checked: bool, k: Key)
    ensures Get(PostOf(secret, lists, tags, maps, checked), k) ==
      if k == SKey("webhook_secret") then Some(Str(secret))
      else if k == SKey("default_lists") then Some(Str(lists))
      else if k == SKey("default_tags") then Some(Str(tags))
      else if k == SKey("field_mappings") then Some(Str(maps))
      else if k == SKey("logging_enabled") && checked then Some(Str("1"))
      else None
  {
    var p1 := Put([], SKey("webhook_secret"), Str(secret));
    var p2 := Put(p1, SKey("default_lists"), Str(lists));
    var p3 := Put(p2, SKey("default_tags"), Str(tags));
    var p4 := Put(p3, SKey("field_mappings"), Str(maps));
    GetPut([], SKey("webhook_secret"), Str(secret), k);
    GetPut(p1, SKey("default_lists"), Str(lists), k);
    GetPut(p2, SKey("default_tags"), Str(tags), k);
    GetPut(p3, SKey("field_mappings"), Str(maps), k);
    GetPutOpt(p4, "logging_enabled", if checked then Some(Str("1")) else None, k);
  }

  lemma PostAt(secret: string, lists: string, tags: string, maps: string, checked: bool)
    ensures At(Arr(PostOf(secret, lists, tags, maps, checked)), "webhook_secret") == Str(secret)
    ensures At(Arr(PostOf(secret, lists, tags, maps, checked)), "default_lists") == Str(lists)
    ensures At(Arr(PostOf(secret, lists, tags, maps, checked)), "default_tags") == Str(tags)
    ensures At(Arr(PostOf(secret, lists, tags, maps, checked)), "field_mappings") == Str(maps)
    ensures At(Arr(PostOf(secret, lists, tags, maps, checked)), "logging_enabled") ==
      if checked then Str("1") else Null
  {
    NameKey("webhook_secret");
    NameKey("default_lists");
    NameKey("default_tags");
    NameKey("field_mappings");
    NameKey("logging_enabled");
    PostGet(secret, lists, tags, maps, checked, SKey("webhook_secret"));
    PostGet(secret, lists, tags, maps, checked, SKey("default_lists"));
    PostGet(secret, lists, tags, maps, checked, SKey("default_tags"));
    PostGet(secret, lists, tags, maps, checked, SKey("field_mappings"));
    PostGet(secret, lists, tags, maps, checked, SKey("logging_enabled"));
  }

  /** The form the page renders for the stored settings, as posted back. */
  function FormPost(settings: seq<(Key, Value)>): seq<(Key, Value)>
  {
    PostOf(TextField(settings, "webhook_secret"), TextField(settings, "default_lists"),
           TextField(settings, "default_tags"), Trim(MappingText(StoredMappings(settings))),
           Checkbox(settings, "logging_enabled"))
  }

  // ------------------------------------------------------ round trips

  /** A mapping that survives being written as a `source=target` line:
      both sides non-empty, trimmed, on one line, left alone by the
      cleaner, and no '=' in the source. */
  predicate Renderable(san: Sanitizers, e: (Key, Value))
  {
    var ks := KeyString(e.0);
    ValidKey(e.0) && ks != "" && Trimmed(ks) && '=' !in ks && '\n' !in ks && '\r' !in ks &&
    san.text(ks) == ks &&
    e.1.Str? && e.1.s != "" && Trimmed(e.1.s) && '\n' !in e.1.s && '\r' !in e.1.s &&
    san.text(e.1.s) == e.1.s
  }

  /** A renderable mapping's line reads back as the mapping. */
  lemma LineEntryOfLine(san: Sanitizers, e: (Key, Value))
    requires Renderable(san, e)
    ensures LineEntry(san, Line(e)) == Some(e)
    ensures '\n' !in Line(e) && '\r' !in Line(e) && |Line(e)| > 0 && Trimmed(Line(e))
  {
    var ks := KeyString(e.0);
    var v := e.1.s;
    var l := Line(e);
    assert l == ks + ['='] + v;
    assert Trimmed(l) && l != "";
    TrimOfTrimmed(l);
    SplitFirstAt('=', ks, v);
    TrimOfTrimmed(ks);
    TrimOfTrimmed(v);
    ArrayKeyOfKeyString(e.0);
  }

  /** The rendered text of renderable mappings, trimmed, is their lines
      joined with line breaks. */
  lemma MappingTextTrim(san: Sanitizers, m: seq<(Key, Value)>)
    requires |m| > 0 && forall i :: 0 <= i < |m| ==> Renderable(san, m[i])
    ensures Trim(MappingText(m)) == Implode("\n", Lines(m))
  {
    var ls := Lines(m);
    ConcatTerminated("\n", ls);
    var body := Implode("\n", ls);
    assert Trimmed(body) by {
      LineEntryOfLine(san, m[0]);
      LineEntryOfLine(san, m[|m| - 1]);
      ImplodeEnds("\n", ls);
    }
    TrimNewline(body);
  }

  /** Each line of renderable mappings reads back as its mapping. */
  lemma LinesEntries(san: Sanitizers, m: seq<(Key, Value)>)
    requires |m| > 0 && forall i :: 0 <= i < |m| ==> Renderable(san, m[i])
    ensures MappingEntries(san, Str(Implode("\n", Lines(m)))) == m
  {
    var ls := Lines(m);
    forall i | 0 <= i < |m| ensures LineEntry(san, ls[i]) == Some(m[i]) && '\n' !in ls[i] && '\r' !in ls[i] {
      LineEntryOfLine(san, m[i]);
    }
    SplitLinesImplode(ls);
    var steps := MappingSteps(san, Str(Implode("\n", ls)));
    SomesAllPresent(steps, m);
  }

  /** An empty textarea holds no mapping. */
  lemma MappingsOfEmpty(san: Sanitizers)
    ensures MappingsOf(san, Str("")) == []
  {
    assert SplitLines("") == [""];
    assert LineEntry(san, "") == None;
    var steps := MappingSteps(san, Str(""));
    assert steps == [None];
    assert Somes(steps) == [] by {
      assert steps[1..] == [];
    }
  }

  /** Mappings read from their own lines, which hold no repeated source,
      are stored as they are. */
  lemma MappingsOfLines(san: Sanitizers, m: seq<(Key, Value)>)
    requires |m| > 0 && Distinct(m)
    requires forall i :: 0 <= i < |m| ==> Renderable(san, m[i])
    ensures MappingsOf(san, Str(Implode("\n", Lines(m)))) == m
  {
    var text := Implode("\n", Lines(m));
    assert MappingEntries(san, Str(text)) == m by {
      LinesEntries(san, m);
    }
    assert MappingsOf(san, Str(text)) == PutAll([], m);
    assert PutAll([], m) == m by {
      PutAllFresh([], m);
    }
  }

  /** Stored mappings that are all renderable come back unchanged from the
      textarea: `render_mappings` then `sanitize_mappings` is the identity. */
  lemma MappingsRoundTrip(san: Sanitizers, m: seq<(Key, Value)>)
    requires Distinct(m)
    requires forall i :: 0 <= i < |m| ==> Renderable(san, m[i])
    ensures MappingsOf(san, Str(Trim(MappingText(m)))) == m
  {
    if |m| == 0 {
      assert Trim(MappingText(m)) == "";
      MappingsOfEmpty(san);
    } else {
      assert Trim(MappingText(m)) == Implode("\n", Lines(m)) by {
        MappingTextTrim(san, m);
      }
      MappingsOfLines(san, m);
    }
  }

  /** A stored id list is written with commas. */
  lemma FieldTextOfIds(ids: seq<int>)
    ensures FieldText(IntList(ids)) == Implode(",", Decimals(ids))
  {
    var v := IntList(ids);
    assert seq(|v.a|, i requires 0 <= i < |v.a| => ToStr(v.a[i].1)) == Decimals(ids);
  }

  /** A list of ids the form can carry: positive, at most `PHP_INT_MAX`,
      without repeats. */
  predicate IdList(ids: seq<int>)
  {
    (forall i :: 0 <= i < |ids| ==> 0 < ids[i] <= PHP_INT_MAX) &&
    (forall i, j :: 0 <= i < j < |ids| ==> ids[i] != ids[j])
  }

  /** The settings the page stores when its form is submitted with the
      secret, the two id lists, the mappings and the logging switch. */
  function StoredForm(secret: string, logging: bool, lists: seq<int>, tags: seq<int>,
                      m: seq<(Key, Value)>): seq<(Key, Value)>
  {
    Sanitized(Some(Str(secret)), logging, Some(IntList(lists)), Some(IntList(tags)), Some(Arr(m)))
  }

  /** What the page renders for such settings. */
  lemma FormPostOfStored(secret: string, logging: bool, lists: seq<int>, tags: seq<int>, m: seq<(Key, Value)>)
    ensures FormPost(StoredForm(secret, logging, lists, tags, m)) ==
      PostOf(secret, Implode(",", Decimals(lists)), Implode(",", Decimals(tags)), Trim(MappingText(m)), logging)
  {
    var S, Li, T, M := Some(Str(secret)), Some(IntList(lists)), Some(IntList(tags)), Some(Arr(m));
    SanitizedAt(S, logging, Li, T, M);
    FormPostOf(Sanitized(S, logging, Li, T, M), secret, logging, lists, tags, m);
  }

  /** The form rendered for settings holding these values. */
  lemma FormPostOf(settings: seq<(Key, Value)>, secret: string, logging: bool, lists: seq<int>, tags: seq<int>,
                   m: seq<(Key, Value)>)
    requires At(Arr(settings), "webhook_secret") == Str(secret)
    requires At(Arr(settings), "logging_enabled") == Bool(logging)
    requires At(Arr(settings), "default_lists") == IntList(lists)
    requires At(Arr(settings), "default_tags") == IntList(tags)
    requires At(Arr(settings), "field_mappings") == Arr(m)
    ensures FormPost(settings) ==
      PostOf(secret, Implode(",", Decimals(lists)), Implode(",", Decimals(tags)), Trim(MappingText(m)), logging)
  {
    var ls, ts := Implode(",", Decimals(lists)), Implode(",", Decimals(tags));
    assert TextField(settings, "webhook_secret") == secret by {
      LookupOfSet(settings, "webhook_secret", Str(secret), Str(""));
    }
    assert TextField(settings, "default_lists") == ls by {
      LookupOfSet(settings, "default_lists", IntList(lists), Str(""));
      FieldTextOfIds(lists);
    }
    assert TextField(settings, "default_tags") == ts by {
      LookupOfSet(settings, "default_tags", IntList(tags), Str(""));
      FieldTextOfIds(tags);
    }
    assert StoredMappings(settings) == m by {
      LookupOfSet(settings, "field_mappings", Arr(m), Arr([]));
    }
    assert Checkbox(settings, "logging_enabled") == logging by {
      LookupOfSet(settings, "logging_enabled", Bool(logging), Bool(false));
    }
  }

  /** A set entry is read as it is, whatever the default. */
  lemma LookupOfSet(settings: seq<(Key, Value)>, name: string, v: Value, default: Value)
    requires At(Arr(settings), name) == v && v != Null
    ensures Lookup(settings, name, default) == v
  {
  }

  /** Sanitizing what the form posts recovers the settings it was
      rendered from. */
  lemma PostSanitizes(san: Sanitizers, secret: string, logging: bool, lists: seq<int>, tags: seq<int>,
                      m: seq<(Key, Value)>)
    requires san.text(secret) == secret
    requires IdList(lists) && IdList(tags)
    requires Distinct(m) && forall i :: 0 <= i < |m| ==> Renderable(san, m[i])
    ensures SanitizeOf(san, PostOf(secret, Implode(",", Decimals(lists)), Implode(",", Decimals(tags)),
                                   Trim(MappingText(m)), logging)) ==
      Some(StoredForm(secret, logging, lists, tags, m))
  {
    var ls := Implode(",", Decimals(lists));
    var ts := Implode(",", Decimals(tags));
    var ms := Trim(MappingText(m));
    PostAt(secret, ls, ts, ms, logging);
    SanitizeOfText(san, PostOf(secret, ls, ts, ms, logging), secret, logging, ls, ts, ms);
    assert IdsPart(Str(ls)) == Some(IntList(lists)) by {
      IdsOfDecimals(lists);
    }
    assert IdsPart(Str(ts)) == Some(IntList(tags)) by {
      IdsOfDecimals(tags);
    }
    assert MappingsPart(san, Str(ms)) == Some(Arr(m)) by {
      MappingsRoundTrip(san, m);
    }
  }

  /** `sanitize` on a post whose fields are all text. */
  lemma SanitizeOfText(san: Sanitizers, values: seq<(Key, Value)>, secret: string, logging: bool,
                       lists: string, tags: string, maps: string)
    requires At(Arr(values), "webhook_secret") == Str(secret)
    requires At(Arr(values), "logging_enabled") == if logging then Str("1") else Null
    requires At(Arr(values), "default_lists") == Str(lists)
    requires At(Arr(values), "default_tags") == Str(tags)
    requires At(Arr(values), "field_mappings") == Str(maps)
    ensures SanitizeOf(san, values) ==
      Some(Sanitized(Some(Str(san.text(secret))), logging, IdsPart(Str(lists)), IdsPart(Str(tags)),
                     MappingsPart(san, Str(maps))))
  {
    var v := Arr(values);
    assert Accepted(At(v, "default_lists")) && Accepted(At(v, "default_tags")) && Accepted(At(v, "field_mappings"));
    assert ToStr(At(v, "webhook_secret")) == secret;
    assert Truthy(At(v, "logging_enabled")) == logging;
  }

  /** Submitting the form the page renders, unchanged, stores the same
      settings again: the secret, both id lists, the mappings and the
      logging switch all survive `render` followed by `sanitize`. */
  lemma FormRoundTrip(san: Sanitizers, secret: string, logging: bool, lists: seq<int>, tags: seq<int>,
                      m: seq<(Key, Value)>)
    requires san.text(secret) == secret
    requires IdList(lists) && IdList(tags)
    requires Distinct(m) && forall i :: 0 <= i < |m| ==> Renderable(san, m[i])
    ensures var stored := StoredForm(secret, logging, lists, tags, m);
      Sanitize(stored, san, Arr(FormPost(stored))) == Some(stored)
  {
    FormPostOfStored(secret, logging, lists, tags, m);
    PostSanitizes(san, secret, logging, lists, tags, m);
  }

  /** What the stored settings render as: a checkbox is checked exactly
      when the stored switch is truthy, and a missing text field renders
      empty. */
  lemma FieldsOfStored(settings: seq<(Key, Value)>, name: string)
    ensures Checkbox(settings, name) <==>
      Get(settings, ArrayKey(name)).Some? && Truthy(Get(settings, ArrayKey(name)).value)
    ensures Get(settings, ArrayKey(name)).None? ==> TextField(settings, name) == ""
  {
  }
}

/**
 * The FluentCRM service of the Facebook Leads for FluentCRM plugin
 * (`facebook-leads-fluentcrm/includes/Services/FluentCrmService.php`):
 * `upsert_contact` looks a contact up by its sanitized email, fills it or
 * creates it, then attaches the configured lists and tags.
 */
module FluentCrmService {
  import opened Wrappers
  import opened PhpValues
  import opened OrderedMap
  import opened WordPress
  import opened CrmStore

  /** The contact row `upsert_contact` returns, or the message of the
      exception it throws. */
  datatype Upserted = Upserted(row: nat) | Failed(message: string)

  /** `sanitize_email((string) $data['email'])`. */
  function EmailOf(san: Sanitizers, data: seq<(Key, Value)>): string
  {
    san.email(ToStr(At(Arr(data), "email")))
  }

  /** The attributes a new contact is created with: `status` defaults to
      `subscribed` when the data leaves it unset or null. */
  function CreateData(data: seq<(Key, Value)>): seq<(Key, Value)>
  {
    var status := At(Arr(data), "status");
    Put(data, SKey("status"), if status != Null then status else Str("subscribed"))
  }

  /** The row the contact is saved to, and the rows after saving. */
  function SavedRows(rows: seq<Subscriber>, email: string, data: seq<(Key, Value)>): (r: (nat, seq<Subscriber>))
    ensures r.0 < |r.1|
  {
    match FirstMatch(rows, "email", Str(email))
    case Some(i) => (i, rows[i := rows[i].(attrs := PutAll(rows[i].attrs, Remove(data, SKey("email"))))])
    case None => (|rows|, rows + [Subscriber(|rows| + 1, CreateData(data), {}, {})])
  }

  /** Lists, then tags, attached to row `i` when there are any. */
  function AttachedRows(rows: seq<Subscriber>, i: nat, lists: seq<(Key, Value)>, tags: seq<(Key, Value)>): (r: seq<Subscriber>)
    requires i < |rows|
    ensures |r| == |rows|
  {
    var withLists := if |lists| > 0 then rows[i := rows[i].(lists := rows[i].lists + IdSet(lists))] else rows;
    if |tags| > 0 then withLists[i := withLists[i].(tags := withLists[i].tags + IdSet(tags))] else withLists
  }

  /** `upsert_contact($data, $list_ids, $tag_ids)` on the store's rows:
      what it returns or throws, and the rows after it. `available` says
      whether FluentCRM is installed. */
  function UpsertOf(rows: seq<Subscriber>, san: Sanitizers, available: bool, data: seq<(Key, Value)>,
                    lists: seq<(Key, Value)>, tags: seq<(Key, Value)>): (r: (Upserted, seq<Subscriber>))
    ensures r.0.Upserted? ==> r.0.row < |r.1|
  {
    if !available then (Failed("FluentCRM is required"), rows)
    else if Empty(At(Arr(data), "email")) then (Failed("Email is required"), rows)
    else if EmailOf(san, data) == "" then (Failed("Invalid email"), rows)
    else
      var email := EmailOf(san, data);
      var saved := SavedRows(rows, email, Put(data, SKey("email"), Str(email)));
      (Upserted(saved.0), AttachedRows(saved.1, saved.0, lists, tags))
  }

  method UpsertContact(store: Store, san: Sanitizers, available: bool, data: seq<(Key, Value)>,
                       listIds: seq<(Key, Value)>, tagIds: seq<(Key, Value)>)
    returns (r: Upserted)
    requires store.Valid()
    modifies store
    ensures store.Valid()
    ensures (r, store.rows) == UpsertOf(old(store.rows), san, available, data, listIds, tagIds)
    ensures store.meta == old(store.meta)
  {
    if !available {
      return Failed("FluentCRM is required");
    }
    if Empty(At(Arr(data), "email")) {
      return Failed("Email is required");
    }
    var email := san.email(ToStr(At(Arr(data), "email")));
    if email == "" {
      return Failed("Invalid email");
    }
    var d := Put(data, SKey("email"), Str(email));
    var found := store.Find("email", Str(email));
    var i: nat;
    if found.Some? {
      i := found.value;
      d := Remove(d, SKey("email"));
      store.Fill(i, d);
    } else {
      var status := At(Arr(d), "status");
      d := Put(d, SKey("status"), if status != Null then status else Str("subscribed"));
      i := store.Create(d);
    }
    if |listIds| > 0 {
      store.AttachLists(i, listIds);
    }
    if |tagIds| > 0 {
      store.AttachTags(i, tagIds);
    }
    return Upserted(i);
  }

  // ------------------------------------------------------------ properties

  /** The three ways `upsert_contact` throws, in the order it checks them;
      none of them touches the store. */
  lemma UpsertFailures(rows: seq<Subscriber>, san: Sanitizers, available: bool, data: seq<(Key, Value)>,
                       lists: seq<(Key, Value)>, tags: seq<(Key, Value)>)
    ensures var u := UpsertOf(rows, san, available, data, lists, tags);
      var r := u.0;
      (r.Failed? ==> u.1 == rows) &&
      (r == Failed("FluentCRM is required") <==> !available) &&
      (r == Failed("Email is required") <==> available && Empty(At(Arr(data), "email"))) &&
      (r == Failed("Invalid email") <==> available && Truthy(At(Arr(data), "email")) && EmailOf(san, data) == "") &&
      (r.Upserted? <==> available && Truthy(At(Arr(data), "email")) && EmailOf(san, data) != "")
  {
  }

  /** Attaching changes only the id sets of one row, and only when there
      are ids to attach. */
  lemma AttachedOnly(rows: seq<Subscriber>, i: nat, lists: seq<(Key, Value)>, tags: seq<(Key, Value)>)
    requires i < |rows|
    ensures var after := AttachedRows(rows, i, lists, tags);
      |after| == |rows| &&
      (forall j :: 0 <= j < |rows| && j != i ==> after[j] == rows[j]) &&
      after[i].id == rows[i].id && after[i].attrs == rows[i].attrs &&
      after[i].lists == (if |lists| > 0 then rows[i].lists + IdSet(lists) else rows[i].lists) &&
      after[i].tags == (if |tags| > 0 then rows[i].tags + IdSet(tags) else rows[i].tags)
  {
  }

  /** An existing contact found by email is filled with the data, all but
      the email: its stored email stays, every other key of the data is
      written, and no row is added. */
  lemma UpsertFillsMatch(rows: seq<Subscriber>, san: Sanitizers, data: seq<(Key, Value)>,
                         lists: seq<(Key, Value)>, tags: seq<(Key, Value)>, k: Key)
    requires Distinct(data)
    requires Truthy(At(Arr(data), "email")) && EmailOf(san, data) != ""
    requires FirstMatch(rows, "email", Str(EmailOf(san, data))).Some?
    ensures var i := FirstMatch(rows, "email", Str(EmailOf(san, data))).value;
      var u := UpsertOf(rows, san, true, data, lists, tags);
      u.0 == Upserted(i) && |u.1| == |rows| &&
      Get(u.1[i].attrs, k) ==
        if k == SKey("email") then Get(rows[i].attrs, k)
        else match Get(data, k) case Some(v) => Some(v) case None => Get(rows[i].attrs, k)
  {
    var email := EmailOf(san, data);
    var i := FirstMatch(rows, "email", Str(email)).value;
    var d := Put(data, SKey("email"), Str(email));
    DistinctPut(data, SKey("email"), Str(email));
    var fill := Remove(d, SKey("email"));
    assert Distinct(fill) by {
      RemoveDistinct(d, SKey("email"));
    }
    GetRemove(d, SKey("email"), k);
    GetPut(data, SKey("email"), Str(email), k);
    GetPutAllDistinct(rows[i].attrs, fill, k);
  }

  /** The attributes of a new contact, key by key. */
  lemma CreatedGet(data: seq<(Key, Value)>, email: string, k: Key)
    ensures Get(CreateData(Put(data, SKey("email"), Str(email))), k) ==
      if k == SKey("email") then Some(Str(email))
      else if k == SKey("status") then
        Some(if At(Arr(data), "status") != Null then At(Arr(data), "status") else Str("subscribed"))
      else Get(data, k)
  {
    var d := Put(data, SKey("email"), Str(email));
    NameKey("status");
    GetPut(data, SKey("email"), Str(email), SKey("status"));
    GetPut(data, SKey("email"), Str(email), k);
    var status := At(Arr(d), "status");
    GetPut(d, SKey("status"), if status != Null then status else Str("subscribed"), k);
  }

  /** A new contact holds the data with the sanitized email, and `status`
      `subscribed` unless the data sets one; it is appended as the last
      row. */
  lemma UpsertCreates(rows: seq<Subscriber>, san: Sanitizers, data: seq<(Key, Value)>,
                      lists: seq<(Key, Value)>, tags: seq<(Key, Value)>, k: Key)
    requires Truthy(At(Arr(data), "email")) && EmailOf(san, data) != ""
    requires FirstMatch(rows, "email", Str(EmailOf(san, data))).None?
    ensures var u := UpsertOf(rows, san, true, data, lists, tags);
      u.0 == Upserted(|rows|) && |u.1| == |rows| + 1 && u.1[..|rows|] == rows &&
      u.1[|rows|].id == |rows| + 1 &&
      Get(u.1[|rows|].attrs, k) ==
        if k == SKey("email") then Some(Str(EmailOf(san, data)))
        else if k == SKey("status") then
          Some(if At(Arr(data), "status") != Null then At(Arr(data), "status") else Str("subscribed"))
        else Get(data, k)
  {
    var email := EmailOf(san, data);
    var d := Put(data, SKey("email"), Str(email));
    var saved := SavedRows(rows, email, d);
    assert saved == (|rows|, rows + [Subscriber(|rows| + 1, CreateData(d), {}, {})]);
    AttachedOnly(saved.1, saved.0, lists, tags);
    var after := AttachedRows(saved.1, saved.0, lists, tags);
    assert after[..|rows|] == rows by {
      assert forall j :: 0 <= j < |rows| ==> after[j] == saved.1[j] == rows[j];
    }
    CreatedGet(data, email, k);
  }

  /** The saved row carries the sanitized email afterwards. */
  lemma SavedHasEmail(rows: seq<Subscriber>, email: string, data: seq<(Key, Value)>)
    requires Distinct(data) && Get(data, SKey("email")) == Some(Str(email))
    ensures var s := SavedRows(rows, email, data);
      |s.1| >= |rows| && Column(s.1[s.0], "email") == Str(email) &&
      forall j :: 0 <= j < |rows| && j != s.0 ==> s.1[j] == rows[j]
  {
    NameKey("email");
    match FirstMatch(rows, "email", Str(email))
    case Some(i) =>
      var fill := Remove(data, SKey("email"));
      assert Distinct(fill) && Get(fill, SKey("email")) == None by {
        RemoveDistinct(data, SKey("email"));
        GetRemove(data, SKey("email"), SKey("email"));
      }
      GetPutAllDistinct(rows[i].attrs, fill, SKey("email"));
    case None =>
      var status := At(Arr(data), "status");
      GetPut(data, SKey("status"), if status != Null then status else Str("subscribed"), SKey("email"));
  }

  /** The saved row is the first row carrying the email afterwards. */
  lemma SavedFirst(rows: seq<Subscriber>, email: string, data: seq<(Key, Value)>)
    requires Distinct(data) && Get(data, SKey("email")) == Some(Str(email))
    ensures var s := SavedRows(rows, email, data);
      FirstMatch(s.1, "email", Str(email)) == Some(s.0)
  {
    var s := SavedRows(rows, email, data);
    SavedHasEmail(rows, email, data);
    assert s.0 <= |rows|;
    forall j | 0 <= j < s.0 ensures Column(s.1[j], "email") != Str(email) {
      assert s.1[j] == rows[j];
    }
    FirstMatchAt(s.1, "email", Str(email), s.0);
  }

  /** Attaching ids keeps the first row carrying the email where it was. */
  lemma AttachedFirst(rows: seq<Subscriber>, i: nat, lists: seq<(Key, Value)>, tags: seq<(Key, Value)>, email: string)
    requires FirstMatch(rows, "email", Str(email)) == Some(i)
    ensures FirstMatch(AttachedRows(rows, i, lists, tags), "email", Str(email)) == Some(i)
  {
    var after := AttachedRows(rows, i, lists, tags);
    AttachedOnly(rows, i, lists, tags);
    assert Column(after[i], "email") == Column(rows[i], "email");
    forall j | 0 <= j < i ensures Column(after[j], "email") != Str(email) {
      assert after[j] == rows[j];
    }
    FirstMatchAt(after, "email", Str(email), i);
  }

  /** The contact `upsert_contact` returns carries the sanitized email. */
  lemma UpsertStoresEmail(rows: seq<Subscriber>, san: Sanitizers, available: bool, data: seq<(Key, Value)>,
                          lists: seq<(Key, Value)>, tags: seq<(Key, Value)>)
    requires Distinct(data)
    requires UpsertOf(rows, san, available, data, lists, tags).0.Upserted?
    ensures var u := UpsertOf(rows, san, available, data, lists, tags);
      Column(u.1[u.0.row], "email") == Str(EmailOf(san, data))
  {
    var email := EmailOf(san, data);
    var d := Put(data, SKey("email"), Str(email));
    assert Distinct(d) && Get(d, SKey("email")) == Some(Str(email)) by {
      DistinctPut(data, SKey("email"), Str(email));
      GetPut(data, SKey("email"), Str(email), SKey("email"));
    }
    var saved := SavedRows(rows, email, d);
    assert UpsertOf(rows, san, available, data, lists, tags) == (Upserted(saved.0), AttachedRows(saved.1, saved.0, lists, tags));
    assert Column(saved.1[saved.0], "email") == Str(email) by {
      SavedHasEmail(rows, email, d);
    }
    AttachedOnly(saved.1, saved.0, lists, tags);
  }

  /** Calling `upsert_contact` twice with the same data finds the contact
      the first call saved: the second call returns the same row and adds
      none. */
  lemma UpsertNoDuplicate(rows: seq<Subscriber>, san: Sanitizers, data: seq<(Key, Value)>,
                          lists: seq<(Key, Value)>, tags: seq<(Key, Value)>)
    requires Distinct(data)
    requires UpsertOf(rows, san, true, data, lists, tags).0.Upserted?
    ensures var once := UpsertOf(rows, san, true, data, lists, tags);
      var twice := UpsertOf(once.1, san, true, data, lists, tags);
      twice.0 == once.0 && |twice.1| == |once.1|
  {
    var email := EmailOf(san, data);
    var d := Put(data, SKey("email"), Str(email));
    assert Distinct(d) && Get(d, SKey("email")) == Some(Str(email)) by {
      DistinctPut(data, SKey("email"), Str(email));
      GetPut(data, SKey("email"), Str(email), SKey("email"));
    }
    var saved := SavedRows(rows, email, d);
    SavedFirst(rows, email, d);
    var once := AttachedRows(saved.1, saved.0, lists, tags);
    AttachedFirst(saved.1, saved.0, lists, tags, email);
    assert UpsertOf(rows, san, true, data, lists, tags) == (Upserted(saved.0), once);
    var again := SavedRows(once, email, d);
    assert again.0 == saved.0 && |again.1| == |once|;
    AttachedOnly(again.1, again.0, lists, tags);
  }
}

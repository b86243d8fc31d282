/**
 * FluentCRM's contact store as the plugins use it: the `Subscriber` rows
 * with their attributes, tags and lists, and the `SubscriberMeta` records.
 * Rows are numbered from 1 in creation order, as an auto-increment key is.
 */
module CrmStore {
  import opened Wrappers
  import opened PhpValues
  import OrderedMap

  /** A contact row: its id, its attribute array, the tag and list ids
      attached to it. */
  datatype Subscriber = Subscriber(id: int, attrs: seq<(Key, Value)>, tags: set<Value>, lists: set<Value>)

  /** The value of column `col` of a row; a column never written reads as null. */
  function Column(s: Subscriber, col: string): Value
  {
    At(Arr(s.attrs), col)
  }

  /** `Subscriber::where($col, $v)->first()`: the position of the first row
      whose column equals `v`. */
  function FirstMatch(rows: seq<Subscriber>, col: string, v: Value): (r: Option<nat>)
    ensures r.Some? ==> r.value < |rows| && Column(rows[r.value], col) == v
    ensures r.Some? ==> forall j :: 0 <= j < r.value ==> Column(rows[j], col) != v
    ensures r.None? <==> forall j :: 0 <= j < |rows| ==> Column(rows[j], col) != v
  {
    if |rows| == 0 then None
    else if Column(rows[0], col) == v then Some(0)
    else
      var rest := FirstMatch(rows[1..], col, v);
      assert forall j :: 1 <= j < |rows| ==> rows[j] == rows[1..][j - 1];
      if rest.None? then None else Some(rest.value + 1)
  }

  /** The first row matching is the one at `i` when no earlier row matches. */
  lemma FirstMatchAt(rows: seq<Subscriber>, col: string, v: Value, i: nat)
    requires i < |rows| && Column(rows[i], col) == v
    requires forall j :: 0 <= j < i ==> Column(rows[j], col) != v
    ensures FirstMatch(rows, col, v) == Some(i)
  {
  }

  /** The set of values a PHP array holds, as `attachTags`/`attachLists` take them. */
  function IdSet(ids: seq<(Key, Value)>): (r: set<Value>)
    ensures forall x :: x in r <==> exists i :: 0 <= i < |ids| && ids[i].1 == x
  {
    set i | 0 <= i < |ids| :: ids[i].1
  }

  class Store {
    var rows: seq<Subscriber>
    var meta: map<(int, Value), Value>

    /** Row `i` holds id `i + 1`. */
    ghost predicate Valid()
      reads this
    {
      forall i :: 0 <= i < |rows| ==> rows[i].id == i + 1
    }

    constructor ()
      ensures Valid() && rows == [] && meta == map[]
    {
      rows := [];
      meta := map[];
    }

    function Find(col: string, v: Value): Option<nat>
      reads this
    {
      FirstMatch(rows, col, v)
    }

    /** `Subscriber::create($attrs)`. */
    method Create(attrs: seq<(Key, Value)>) returns (i: nat)
      requires Valid()
      modifies this
      ensures Valid()
      ensures i == |old(rows)| && rows == old(rows) + [Subscriber(i + 1, attrs, {}, {})]
      ensures meta == old(meta)
    {
      i := |rows|;
      rows := rows + [Subscriber(i + 1, attrs, {}, {})];
    }

    /** `$subscriber->fill($attrs); $subscriber->save();`: later keys win. */
    method Fill(i: nat, attrs: seq<(Key, Value)>)
      requires Valid() && i < |rows|
      modifies this
      ensures Valid()
      ensures rows == old(rows)[i := old(rows)[i].(attrs := OrderedMap.PutAll(old(rows)[i].attrs, attrs))]
      ensures meta == old(meta)
    {
      rows := rows[i := rows[i].(attrs := OrderedMap.PutAll(rows[i].attrs, attrs))];
    }

    /** `$subscriber->attachTags($ids)`: attaching is adding to the set. */
    method AttachTags(i: nat, ids: seq<(Key, Value)>)
      requires Valid() && i < |rows|
      modifies this
      ensures Valid()
      ensures rows == old(rows)[i := old(rows)[i].(tags := old(rows)[i].tags + IdSet(ids))]
      ensures meta == old(meta)
    {
      rows := rows[i := rows[i].(tags := rows[i].tags + IdSet(ids))];
    }

    /** `$subscriber->attachLists($ids)`. */
    method AttachLists(i: nat, ids: seq<(Key, Value)>)
      requires Valid() && i < |rows|
      modifies this
      ensures Valid()
      ensures rows == old(rows)[i := old(rows)[i].(lists := old(rows)[i].lists + IdSet(ids))]
      ensures meta == old(meta)
    {
      rows := rows[i := rows[i].(lists := rows[i].lists + IdSet(ids))];
    }

    /** `SubscriberMeta::updateOrCreate(['subscriber_id' => $id, 'key' => $key], ['value' => $v])`. */
    method UpdateOrCreateMeta(id: int, key: Value, v: Value)
      modifies this
      ensures rows == old(rows)
      ensures meta == old(meta)[(id, key) := v]
    {
      meta := meta[(id, key) := v];
    }
  }
}

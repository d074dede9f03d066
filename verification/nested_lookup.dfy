/**
 `nested_lookup(key, document)`: every value stored under `key` anywhere in a
 parsed document, in the order of the library's depth-first walk.
 */
module NestedLookup {

  import opened Json

  /**
   Every dict entry of `doc` in pre-order: an entry comes right before the
   entries inside its value, and list items are listed left to right.
   */
  ghost function PreOrder(doc: Json): seq<(string, Json)> {
    match doc
    case Arr(items) => PreOrderItems(items)
    case Obj(entries) => PreOrderEntries(entries)
    case _ => []
  }

  ghost function PreOrderItems(items: seq<Json>): seq<(string, Json)> {
    if items == [] then [] else PreOrder(items[0]) + PreOrderItems(items[1..])
  }

  ghost function PreOrderEntries(entries: seq<(string, Json)>): seq<(string, Json)> {
    if entries == [] then []
    else
      assert entries[0].1 < entries[0];
      [entries[0]] + PreOrder(entries[0].1) + PreOrderEntries(entries[1..])
  }

  /** The values of the entries stored under `key`, in the order listed. */
  ghost function ValuesUnder(key: string, es: seq<(string, Json)>): seq<Json> {
    if es == [] then []
    else (if es[0].0 == key then [es[0].1] else []) + ValuesUnder(key, es[1..])
  }

  lemma {:induction false} ValuesUnderConcat(key: string, a: seq<(string, Json)>, b: seq<(string, Json)>)
    ensures ValuesUnder(key, a + b) == ValuesUnder(key, a) + ValuesUnder(key, b)
    decreases |a|
  {
    if a == [] {
      assert a + b == b;
    } else {
      var head := if a[0].0 == key then [a[0].1] else [];
      assert (a + b)[0] == a[0];
      assert (a + b)[1..] == a[1..] + b;
      assert ValuesUnder(key, a + b) == head + ValuesUnder(key, a[1..] + b);
      ValuesUnderConcat(key, a[1..], b);
      assert ValuesUnder(key, a) == head + ValuesUnder(key, a[1..]);
    }
  }

  /**
   A list contributes the matches of its items in order; a dict walks its
   entries in order, yielding an entry's value when the key matches and then
   descending into that value when it is a dict or a list. Scalars hold nothing.
   The result is the values of the document's entries under `key`, in
   pre-order, each as often as it is stored.
   */
  function Lookup(key: string, doc: Json): (r: seq<Json>)
    ensures r == ValuesUnder(key, PreOrder(doc))
  {
    match doc
    case Arr(items) => LookupItems(key, items)
    case Obj(entries) => LookupEntries(key, entries)
    case _ => []
  }

  function LookupItems(key: string, items: seq<Json>): (r: seq<Json>)
    ensures r == ValuesUnder(key, PreOrderItems(items))
  {
    if items == [] then []
    else
      ValuesUnderConcat(key, PreOrder(items[0]), PreOrderItems(items[1..]));
      Lookup(key, items[0]) + LookupItems(key, items[1..])
  }

  function LookupEntries(key: string, entries: seq<(string, Json)>): (r: seq<Json>)
    ensures r == ValuesUnder(key, PreOrderEntries(entries))
  {
    if entries == [] then []
    else
      var v := entries[0].1;
      assert v < entries[0];
      ValuesUnderConcat(key, [entries[0]] + PreOrder(v), PreOrderEntries(entries[1..]));
      ValuesUnderConcat(key, [entries[0]], PreOrder(v));
      assert ValuesUnder(key, [entries[0]]) == if entries[0].0 == key then [v] else [];
      (if entries[0].0 == key then [v] else [])
      + (if v.Obj? || v.Arr? then Lookup(key, v) else [])
      + LookupEntries(key, entries[1..])
  }

  /** Some dict nested anywhere in `doc` (or `doc` itself) has the entry `key: v`. */
  ghost predicate EntryBelow(key: string, v: Json, doc: Json) {
    match doc
    case Arr(items) => exists i :: 0 <= i < |items| && EntryBelow(key, v, items[i])
    case Obj(entries) => EntryIn(key, v, entries)
    case _ => false
  }

  ghost predicate EntryIn(key: string, v: Json, entries: seq<(string, Json)>) {
    exists i :: 0 <= i < |entries| && ChildEntry(key, v, entries[i])
  }

  ghost predicate ChildEntry(key: string, v: Json, entry: (string, Json)) {
    entry == (key, v) || EntryBelow(key, v, entry.1)
  }

  /** The deep search finds a value exactly when some dict at some depth stores it under the key. */
  lemma {:induction false} LookupFindsEveryEntry(key: string, v: Json, doc: Json)
    ensures v in Lookup(key, doc) <==> EntryBelow(key, v, doc)
  {
    match doc
    case Arr(items) => ItemsFindEveryEntry(key, v, items);
    case Obj(entries) => EntriesFindEveryEntry(key, v, entries);
    case _ =>
  }

  lemma {:induction false} ItemsFindEveryEntry(key: string, v: Json, items: seq<Json>)
    ensures v in LookupItems(key, items) <==> exists i :: 0 <= i < |items| && EntryBelow(key, v, items[i])
  {
    if items != [] {
      LookupFindsEveryEntry(key, v, items[0]);
      ItemsFindEveryEntry(key, v, items[1..]);
      if exists i :: 0 <= i < |items| && EntryBelow(key, v, items[i]) {
        var i :| 0 <= i < |items| && EntryBelow(key, v, items[i]);
        if i > 0 {
          assert EntryBelow(key, v, items[1..][i - 1]);
        }
      }
      if exists i :: 0 <= i < |items[1..]| && EntryBelow(key, v, items[1..][i]) {
        var i :| 0 <= i < |items[1..]| && EntryBelow(key, v, items[1..][i]);
        assert EntryBelow(key, v, items[i + 1]);
      }
    }
  }

  lemma {:induction false} EntriesFindEveryEntry(key: string, v: Json, entries: seq<(string, Json)>)
    ensures v in LookupEntries(key, entries) <==> EntryIn(key, v, entries)
  {
    if entries != [] {
      var w := entries[0].1;
      assert w < entries[0];
      LookupFindsEveryEntry(key, v, w);
      EntriesFindEveryEntry(key, v, entries[1..]);
      assert ChildEntry(key, v, entries[0]) <==> entries[0] == (key, v) || v in Lookup(key, w);
      if EntryIn(key, v, entries[1..]) {
        var i :| 0 <= i < |entries[1..]| && ChildEntry(key, v, entries[1..][i]);
        assert ChildEntry(key, v, entries[i + 1]);
      }
      if EntryIn(key, v, entries) {
        var i :| 0 <= i < |entries| && ChildEntry(key, v, entries[i]);
        if i > 0 {
          assert ChildEntry(key, v, entries[1..][i - 1]);
        }
      }
    }
  }

  /** Sibling items are searched left to right: the matches come in document order. */
  lemma {:induction false} LookupItemsConcat(key: string, a: seq<Json>, b: seq<Json>)
    ensures LookupItems(key, a + b) == LookupItems(key, a) + LookupItems(key, b)
  {
    if a == [] {
      assert a + b == b;
    } else {
      assert (a + b)[1..] == a[1..] + b;
      LookupItemsConcat(key, a[1..], b);
    }
  }

  lemma {:induction false} LookupEntriesConcat(key: string, a: seq<(string, Json)>, b: seq<(string, Json)>)
    ensures LookupEntries(key, a + b) == LookupEntries(key, a) + LookupEntries(key, b)
  {
    if a == [] {
      assert a + b == b;
    } else {
      assert (a + b)[1..] == a[1..] + b;
      LookupEntriesConcat(key, a[1..], b);
    }
  }
}

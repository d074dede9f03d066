/**
 The JSON trees that `json.loads` produces, and the few pieces of Python
 semantics the scraper applies to them: truthiness, dict lookup, iteration,
 hashing for `set(...)` and `str(...)` rendering.
 */
module Json {

  import opened Wrappers
  import opened Text

  /** A parsed JSON value; an object keeps its entries in document order. */
  datatype Json =
    | Null
    | Bool(b: bool)
    | Int(i: int)
    | Str(s: string)
    | Arr(items: seq<Json>)
    | Obj(entries: seq<(string, Json)>)

  /** Python's truth value of the parsed value (`None`, `False`, `0`, `""`, `[]`, `{}` are false). */
  predicate Truthy(v: Json) {
    match v
    case Null => false
    case Bool(b) => b
    case Int(i) => i != 0
    case Str(s) => s != ""
    case Arr(items) => items != []
    case Obj(entries) => entries != []
  }
  /** The values Python treats as false. */
  const Falsy: set<Json> := {Null, Bool(false), Int(0), Str(""), Arr([]), Obj([])}

  /** A value is falsy exactly when it is None, False, zero or an empty string, list or dict. */
  lemma FalsyExactly(v: Json)
    ensures !Truthy(v) <==> v in Falsy
  {
  }


  /**
   The value stored under `key`, or Null when there is none. Trees produced by
   json.loads stand for Python dicts, whose keys are unique, so taking the
   first entry with the key selects the only one.
   */
  function Get(entries: seq<(string, Json)>, key: string): (r: Json)
    ensures (exists i :: 0 <= i < |entries| && entries[i].0 == key) ==> (key, r) in entries
    ensures (forall i :: 0 <= i < |entries| ==> entries[i].0 != key) ==> r == Null
    decreases |entries|
  {
    if entries == [] then Null
    else if entries[0].0 == key then entries[0].1
    else Get(entries[1..], key)
  }

  /** Values a Python set accepts: everything but lists and dicts. */
  predicate Hashable(v: Json) {
    !v.Arr? && !v.Obj?
  }

  /**
   The value a Python set compares a hashable element by: `True == 1` and
   `False == 0`, every other pair of distinct parsed scalars is unequal.
   */
  function HashKey(v: Json): Json
    requires Hashable(v)
  {
    match v
    case Bool(b) => Int(if b then 1 else 0)
    case _ => v
  }

  /**
   The elements `for t in v` visits: a list's items, a dict's keys, a
   string's characters; None where Python raises TypeError (None, bool, int).
   */
  function Iterate(v: Json): (r: Option<seq<Json>>)
    ensures r.Some? <==> v.Arr? || v.Obj? || v.Str?
    ensures v.Arr? ==> r == Some(v.items)
    ensures v.Obj? ==> r.Some? && |r.value| == |v.entries|
                       && forall i :: 0 <= i < |v.entries| ==> r.value[i] == Str(v.entries[i].0)
    ensures v.Str? ==> r.Some? && |r.value| == |v.s|
                       && forall i :: 0 <= i < |v.s| ==> r.value[i] == Str([v.s[i]])
  {
    match v
    case Arr(items) => Some(items)
    case Obj(entries) => Some(seq(|entries|, i requires 0 <= i < |entries| => Str(entries[i].0)))
    case Str(s) => Some(seq(|s|, i requires 0 <= i < |s| => Str([s[i]])))
    case _ => None
  }

  /** Python's `str(v)`, which an f-string uses: a string renders as itself. */
  function PyStr(v: Json): (r: string)
    ensures v.Str? ==> r == v.s
    ensures v.Null? ==> r == "None"
    ensures v.Int? ==> ParseNat(r) == if v.i >= 0 then Some(v.i) else None
    ensures v.Null? || v.Bool? || v.Int? ==> '/' !in r
  {
    match v
    case Str(s) => s
    case Int(i) =>
      if i >= 0 then DecimalRoundTrip(i); PyRepr(v)
      else assert !IsDigit(PyRepr(v)[0]); PyRepr(v)
    case _ => PyRepr(v)
  }

  /** Python's `repr(v)`; strings are quoted with single quotes and no escaping. */
  function PyRepr(v: Json): string {
    match v
    case Null => "None"
    case Bool(b) => if b then "True" else "False"
    case Int(i) => IntToDecimal(i)
    case Str(s) => "'" + s + "'"
    case Arr(items) => "[" + ReprItems(items) + "]"
    case Obj(entries) => "{" + ReprEntries(entries) + "}"
  }

  function ReprItems(items: seq<Json>): string {
    if items == [] then ""
    else if |items| == 1 then PyRepr(items[0])
    else PyRepr(items[0]) + ", " + ReprItems(items[1..])
  }

  function ReprEntries(entries: seq<(string, Json)>): string {
    if entries == [] then ""
    else
      var v := entries[0].1;
      assert v < entries[0];
      var entry := "'" + entries[0].0 + "': " + PyRepr(v);
      if |entries| == 1 then entry else entry + ", " + ReprEntries(entries[1..])
  }
}

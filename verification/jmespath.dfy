/**
 The fragment of JMESPath the record normaliser's query uses: dotted key
 paths, a non-negative index, and the flatten projection `base[].rhs`.
 */
module JmesPath {

  import opened Json

  /** One step of a path: `.key` or `[index]`. */
  datatype Step = Key(name: string) | Index(index: nat)

  type Path = seq<Step>

  /** `r` is an immediate member of `v`: the value of one of its entries, or one of its items. */
  ghost predicate ChildOf(r: Json, v: Json) {
    (v.Obj? && exists i :: 0 <= i < |v.entries| && v.entries[i].1 == r) || (v.Arr? && r in v.items)
  }

  /** A field step on a non-object, or an index step on a non-list or out of range, yields null. */
  function Apply(step: Step, v: Json): Json {
    match step
    case Key(k) => if v.Obj? then Get(v.entries, k) else Null
    case Index(n) => if v.Arr? && n < |v.items| then v.items[n] else Null
  }

  /**
   A step either misses, giving null (a field step on a non-object or a
   missing key, an index step on a non-list or out of range), or selects a
   member of the value: the entry under the key, or the item at the index.
   */
  lemma ApplySelectsMember(step: Step, v: Json)
    ensures Apply(step, v) == Null || ChildOf(Apply(step, v), v)
    ensures step.Key? && v.Obj? && (exists i :: 0 <= i < |v.entries| && v.entries[i].0 == step.name) ==>
              (step.name, Apply(step, v)) in v.entries
    ensures step.Key? && (!v.Obj? || forall i :: 0 <= i < |v.entries| ==> v.entries[i].0 != step.name) ==>
              Apply(step, v) == Null
    ensures step.Index? && v.Arr? && step.index < |v.items| ==> Apply(step, v) == v.items[step.index]
    ensures step.Index? && !(v.Arr? && step.index < |v.items|) ==> Apply(step, v) == Null
  {
  }

  /** A sub-expression `s1.s2...`: each step applied to the result of the previous one. */
  function Eval(p: Path, v: Json): (r: Json)
    ensures v == Null ==> r == Null
    decreases |p|
  {
    if p == [] then v else Eval(p[1..], Apply(p[0], v))
  }

  /** Evaluating a joined path is evaluating its second half on the result of the first. */
  lemma {:induction false} EvalConcat(p: Path, q: Path, v: Json)
    ensures Eval(p + q, v) == Eval(q, Eval(p, v))
    decreases |p|
  {
    if p == [] {
      assert p + q == q;
    } else {
      assert (p + q)[1..] == p[1..] + q;
      EvalConcat(p[1..], q, Apply(p[0], v));
    }
  }

  /** Once any prefix of a path is missing (null), the whole path is null. */
  lemma MissingStepGivesNull(p: Path, k: nat, v: Json)
    requires k <= |p| && Eval(p[..k], v) == Null
    ensures Eval(p, v) == Null
  {
    assert p == p[..k] + p[k..];
    EvalConcat(p[..k], p[k..], v);
  }

  /** The flatten operator on a list: sub-lists are merged into it, other elements kept. */
  function Flatten(xs: seq<Json>): (r: seq<Json>)
    ensures (forall i :: 0 <= i < |xs| ==> !xs[i].Arr?) ==> r == xs
    ensures |xs| == 1 && xs[0].Arr? ==> r == xs[0].items
    decreases |xs|
  {
    if xs == [] then []
    else (match xs[0] case Arr(inner) => inner case _ => [xs[0]]) + Flatten(xs[1..])
  }

  lemma {:induction false} FlattenConcat(a: seq<Json>, b: seq<Json>)
    ensures Flatten(a + b) == Flatten(a) + Flatten(b)
    decreases |a|
  {
    if a == [] {
      assert a + b == b;
    } else {
      assert (a + b)[1..] == a[1..] + b;
      FlattenConcat(a[1..], b);
    }
  }

  /** A sub-list is spliced in place: its items replace it between what comes before and after. */
  lemma FlattenSplicesSubList(a: seq<Json>, inner: seq<Json>, b: seq<Json>)
    ensures Flatten(a + [Arr(inner)] + b) == Flatten(a) + inner + Flatten(b)
  {
    FlattenConcat(a + [Arr(inner)], b);
    FlattenConcat(a, [Arr(inner)]);
  }

  /** A projection's right-hand side applied to every element, in order, null results dropped. */
  function Collect(rhs: Path, xs: seq<Json>): (r: seq<Json>)
    ensures forall i :: 0 <= i < |r| ==> r[i] != Null
    ensures |r| <= |xs|
    decreases |xs|
  {
    if xs == [] then []
    else
      var y := Eval(rhs, xs[0]);
      if y == Null then Collect(rhs, xs[1..]) else [y] + Collect(rhs, xs[1..])
  }

  /** Some element of `xs` projects to `x`. */
  ghost predicate ProjectsTo(rhs: Path, xs: seq<Json>, x: Json) {
    exists i :: 0 <= i < |xs| && Eval(rhs, xs[i]) == x
  }

  /** The projection holds exactly the non-null results of the right-hand side. */
  lemma {:induction false} CollectMembers(rhs: Path, xs: seq<Json>, x: Json)
    ensures x in Collect(rhs, xs) <==> x != Null && ProjectsTo(rhs, xs, x)
    decreases |xs|
  {
    if xs != [] {
      CollectMembers(rhs, xs[1..], x);
      if ProjectsTo(rhs, xs[1..], x) {
        var i :| 0 <= i < |xs[1..]| && Eval(rhs, xs[1..][i]) == x;
        assert Eval(rhs, xs[i + 1]) == x;
      }
      if ProjectsTo(rhs, xs, x) {
        var i :| 0 <= i < |xs| && Eval(rhs, xs[i]) == x;
        if i > 0 {
          assert Eval(rhs, xs[1..][i - 1]) == x;
        }
      }
    }
  }

  /** Projecting over a concatenation concatenates the projections: element order is kept. */
  lemma {:induction false} CollectConcat(rhs: Path, a: seq<Json>, b: seq<Json>)
    ensures Collect(rhs, a + b) == Collect(rhs, a) + Collect(rhs, b)
    decreases |a|
  {
    if a == [] {
      assert a + b == b;
    } else {
      assert (a + b)[1..] == a[1..] + b;
      CollectConcat(rhs, a[1..], b);
    }
  }

  /** When no element projects to null, the projection keeps one result per element. */
  lemma {:induction false} CollectTotal(rhs: Path, xs: seq<Json>)
    requires forall i :: 0 <= i < |xs| ==> Eval(rhs, xs[i]) != Null
    ensures |Collect(rhs, xs)| == |xs|
    ensures forall i :: 0 <= i < |xs| ==> Collect(rhs, xs)[i] == Eval(rhs, xs[i])
    decreases |xs|
  {
    if xs != [] {
      CollectTotal(rhs, xs[1..]);
    }
  }

  /**
   `base[].rhs`: null unless `base` yields a list; otherwise the flattened
   list with `rhs` applied to each element and null results dropped.
   */
  function Project(base: Path, rhs: Path, v: Json): (r: Json)
    ensures r.Null? || r.Arr?
    ensures r.Null? <==> !Eval(base, v).Arr?
    ensures r.Arr? ==> forall i :: 0 <= i < |r.items| ==> r.items[i] != Null
  {
    match Eval(base, v)
    case Arr(xs) => Arr(Collect(rhs, Flatten(xs)))
    case _ => Null
  }
}

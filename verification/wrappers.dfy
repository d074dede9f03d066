/** Option and Result, the failure-compatible wrappers used throughout the model. */
module Wrappers {

  datatype Option<+T> = None | Some(value: T)

  /** The outcome of an operation that may raise: a value, or the exception it raises. */
  datatype Result<+T, +E> = Success(value: T) | Failure(error: E) {

    predicate IsFailure() {
      Failure?
    }

    function PropagateFailure<U>(): Result<U, E>
      requires Failure?
    {
      Failure(error)
    }

    function Extract(): T
      requires Success?
    {
      value
    }
  }

  /** `[f(x) for x in xs]` where `f` may raise: the first failure, in order, propagates. */
  function MapAll<A, B, E>(f: A -> Result<B, E>, xs: seq<A>): (r: Result<seq<B>, E>)
    ensures r.Success? ==> |r.value| == |xs|
    decreases |xs|
  {
    if xs == [] then Success([])
    else
      var first := f(xs[0]);
      var rest := MapAll(f, xs[1..]);
      if first.Failure? then Failure(first.error)
      else if rest.Failure? then Failure(rest.error)
      else Success([first.value] + rest.value)
  }

  /**
   MapAll succeeds when every call does, with each call's value in place; a
   failure is that of the first call, in order, that fails.
   */
  lemma {:induction false} MapAllPointwise<A, B, E>(f: A -> Result<B, E>, xs: seq<A>)
    ensures MapAll(f, xs).Success? <==> forall i :: 0 <= i < |xs| ==> f(xs[i]).Success?
    ensures MapAll(f, xs).Success? ==> forall i :: 0 <= i < |xs| ==> MapAll(f, xs).value[i] == f(xs[i]).value
    ensures MapAll(f, xs).Failure? ==>
              exists i :: 0 <= i < |xs| && f(xs[i]) == Failure(MapAll(f, xs).error)
                          && forall j :: 0 <= j < i ==> f(xs[j]).Success?
    decreases |xs|
  {
    if xs != [] {
      MapAllPointwise(f, xs[1..]);
      assert forall i :: 1 <= i < |xs| ==> xs[i] == xs[1..][i - 1];
      if MapAll(f, xs).Failure? && f(xs[0]).Success? {
        var i :| 0 <= i < |xs[1..]| && f(xs[1..][i]) == Failure(MapAll(f, xs).error)
                 && forall j :: 0 <= j < i ==> f(xs[1..][j]).Success?;
        assert f(xs[i + 1]) == Failure(MapAll(f, xs).error);
        forall j | 0 <= j < i + 1
          ensures f(xs[j]).Success?
        {
          if j > 0 {
            assert f(xs[1..][j - 1]).Success?;
          }
        }
      }
    }
  }

  lemma {:induction false} MapAllConcat<A, B, E>(f: A -> Result<B, E>, a: seq<A>, b: seq<A>)
    ensures MapAll(f, a + b).Success? <==> MapAll(f, a).Success? && MapAll(f, b).Success?
    ensures MapAll(f, a + b).Success? ==> MapAll(f, a + b).value == MapAll(f, a).value + MapAll(f, b).value
    decreases |a|
  {
    if a == [] {
      assert a + b == b;
    } else {
      assert (a + b)[0] == a[0];
      assert (a + b)[1..] == a[1..] + b;
      MapAllConcat(f, a[1..], b);
    }
  }
}

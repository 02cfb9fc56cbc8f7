/** Option and Result, the two failure-carrying datatypes used across the model. */
module Wrappers {

  datatype Option<+T> = None | Some(value: T)

  /** A computation that either produced a value or raised an error. */
  datatype Result<+R, +E> = Ok(value: R) | Err(error: E)

  /** Puts `done` in front of a list result; an error stays the error. */
  function Prepend<T, E>(done: seq<T>, r: Result<seq<T>, E>): Result<seq<T>, E>
  {
    match r
    case Ok(rest) => Ok(done + rest)
    case Err(e) => Err(e)
  }

  lemma PrependNothing<T, E>(r: Result<seq<T>, E>)
    ensures Prepend([], r) == r
  {
    if r.Ok? {
      assert [] + r.value == r.value;
    }
  }

  lemma PrependPrepend<T, E>(a: seq<T>, b: seq<T>, r: Result<seq<T>, E>)
    ensures Prepend(a, Prepend(b, r)) == Prepend(a + b, r)
  {
    if r.Ok? {
      assert a + (b + r.value) == (a + b) + r.value;
    }
  }

  /** Applies `f` to each element in order; the first error ends the traversal and is the result. */
  function Traverse<A, B, E>(xs: seq<A>, f: A -> Result<B, E>): (r: Result<seq<B>, E>)
    ensures r.Ok? ==> |r.value| == |xs| && forall i :: 0 <= i < |xs| ==> f(xs[i]) == Ok(r.value[i])
  {
    if xs == [] then Ok([])
    else match f(xs[0])
      case Err(e) => Err(e)
      case Ok(y) => Prepend([y], Traverse(xs[1..], f))
  }

  /** One step of a traversal from position `i`, with the results so far in front. */
  lemma TraverseStep<A, B, E>(done: seq<B>, xs: seq<A>, i: nat, f: A -> Result<B, E>)
    requires i < |xs|
    ensures f(xs[i]).Err? ==> Prepend(done, Traverse(xs[i..], f)) == Err(f(xs[i]).error)
    ensures f(xs[i]).Ok? ==>
              Prepend(done, Traverse(xs[i..], f)) == Prepend(done + [f(xs[i]).value], Traverse(xs[i + 1..], f))
  {
    assert xs[i..][1..] == xs[i + 1..];
    if f(xs[i]).Ok? {
      PrependPrepend(done, [f(xs[i]).value], Traverse(xs[i + 1..], f));
    }
  }

  /** A traversal fails exactly when some element fails, and with the error of the first that does. */
  lemma {:induction false} TraverseStopsAtFirstError<A, B, E>(xs: seq<A>, f: A -> Result<B, E>)
    ensures Traverse(xs, f).Err? <==> exists i :: 0 <= i < |xs| && f(xs[i]).Err?
    ensures Traverse(xs, f).Err? ==>
              exists i :: 0 <= i < |xs| && f(xs[i]) == Err(Traverse(xs, f).error) &&
                          forall k :: 0 <= k < i ==> f(xs[k]).Ok?
  {
    if xs != [] && f(xs[0]).Ok? {
      var rest := xs[1..];
      TraverseStopsAtFirstError(rest, f);
      assert forall i :: 0 < i < |xs| ==> xs[i] == rest[i - 1];
      if Traverse(rest, f).Err? {
        var j :| 0 <= j < |rest| && f(rest[j]) == Err(Traverse(rest, f).error) &&
                 forall k :: 0 <= k < j ==> f(rest[k]).Ok?;
        assert f(xs[j + 1]) == Err(Traverse(xs, f).error);
      }
    }
  }
}

/** Failure-compatible results shared by both providers. */
module Outcome {

  datatype Option<+T> = None | Some(value: T)

  /** The ways a provider call fails: a JavaScript TypeError (a property read on
      null or undefined, destructuring undefined, calling `filter` on a value that
      is not an array), an operation the router does not know, a list response
      without a Content-Range header, or a failure reported by the transport. */
  datatype Error =
    | TypeError
    | Unsupported(message: string)
    | MissingContentRange
    | TransportFailure(reason: string)

  datatype Result<+T> = Ok(value: T) | Err(error: Error) {

    predicate IsFailure() {
      Err?
    }

    function PropagateFailure<U>(): Result<U>
      requires Err?
    {
      Err(error)
    }

    function Extract(): T
      requires Ok?
    {
      value
    }
  }

  /** `xs.map(f)` where any call may throw: the first failure, in input order,
      is the result; otherwise the results in input order. */
  function MapAll<A, B>(f: A -> Result<B>, xs: seq<A>): Result<seq<B>>
    decreases |xs|
  {
    if xs == [] then Ok([])
    else
      var first :- f(xs[0]);
      var rest :- MapAll(f, xs[1..]);
      Ok([first] + rest)
  }

  /** A map succeeds exactly when every call succeeds, and then its i-th
      result is the result of the i-th call. */
  lemma {:induction false} MapAllInOrder<A, B>(f: A -> Result<B>, xs: seq<A>)
    ensures MapAll(f, xs).Ok? <==> forall i :: 0 <= i < |xs| ==> f(xs[i]).Ok?
    ensures MapAll(f, xs).Ok? ==>
              |MapAll(f, xs).value| == |xs| &&
              forall i :: 0 <= i < |xs| ==> MapAll(f, xs).value[i] == f(xs[i]).value
    decreases |xs|
  {
    if xs != [] {
      MapAllInOrder(f, xs[1..]);
      if f(xs[0]).Ok? && MapAll(f, xs[1..]).Ok? {
        var rest := MapAll(f, xs[1..]).value;
        assert MapAll(f, xs).value == [f(xs[0]).value] + rest;
        forall i | 0 <= i < |xs| ensures MapAll(f, xs).value[i] == f(xs[i]).value {
          if i > 0 {
            assert xs[1..][i - 1] == xs[i];
          }
        }
      } else if f(xs[0]).Ok? {
        var i :| 0 <= i < |xs[1..]| && !f(xs[1..][i]).Ok?;
        assert xs[1..][i] == xs[i + 1];
      }
    }
  }

  /** The failure a map reports is that of the first call that fails. */
  lemma {:induction false} MapAllFirstFailure<A, B>(f: A -> Result<B>, xs: seq<A>, i: nat)
    requires i < |xs| && f(xs[i]).Err?
    requires forall j :: 0 <= j < i ==> f(xs[j]).Ok?
    ensures MapAll(f, xs) == Err(f(xs[i]).error)
    decreases i
  {
    if i > 0 {
      forall j | 0 <= j < i - 1 ensures f(xs[1..][j]).Ok? {
        assert xs[1..][j] == xs[j + 1];
      }
      assert xs[1..][i - 1] == xs[i];
      MapAllFirstFailure(f, xs[1..], i - 1);
    }
  }
}


/** Option and Result, the failure-compatible wrappers the rest of the model returns. */
module Wrappers {

  datatype Option<+T> = None | Some(value: T)

  /** A computation that either produced a value or raised an exception. */
  datatype Result<+T, +E> = Success(value: T) | Failure(error: E) {

    predicate IsFailure() {
      Failure?
    }

    function PropagateFailure<U>(): Result<U, E>
      requires Failure?
    {
      Failure(error)
    }

    function Extract(): T
      requires Success?
    {
      value
    }
  }

  /** Applying a fallible step to each element in order, stopping at the first
      failure (a `for` loop that raises, or a list comprehension). */
  function MapResults<A, B, E>(f: A -> Result<B, E>, xs: seq<A>): Result<seq<B>, E> {
    if xs == [] then Success([])
    else
      var init :- MapResults(f, xs[..|xs| - 1]);
      var y :- f(xs[|xs| - 1]);
      Success(init + [y])
  }

  /** The whole succeeds exactly when every step does, with one result per
      element, in order. */
  lemma {:induction false} MapResultsEach<A, B, E>(f: A -> Result<B, E>, xs: seq<A>)
    ensures MapResults(f, xs).Success? <==> forall k :: 0 <= k < |xs| ==> f(xs[k]).Success?
    ensures MapResults(f, xs).Success? ==> |MapResults(f, xs).value| == |xs|
    ensures MapResults(f, xs).Success? ==> forall k :: 0 <= k < |xs| ==> f(xs[k]) == Success(MapResults(f, xs).value[k])
    ensures MapResults(f, xs).Failure? ==> exists k :: 0 <= k < |xs| && f(xs[k]) == Failure(MapResults(f, xs).error)
  {
    if xs != [] {
      var n := |xs| - 1;
      var init := xs[..n];
      MapResultsEach(f, init);
      assert forall k :: 0 <= k < n ==> init[k] == xs[k];
      if MapResults(f, init).Failure? {
        var k :| 0 <= k < n && f(init[k]) == Failure(MapResults(f, init).error);
        assert f(xs[k]) == Failure(MapResults(f, xs).error);
      } else if f(xs[n]).Failure? {
        assert f(xs[n]) == Failure(MapResults(f, xs).error);
      }
    }
  }

  /** The failure, if any, is the first failing step's. */
  lemma {:induction false} MapResultsFirstFailure<A, B, E>(f: A -> Result<B, E>, xs: seq<A>, i: nat)
    requires i < |xs| && f(xs[i]).Failure?
    requires forall k :: 0 <= k < i ==> f(xs[k]).Success?
    ensures MapResults(f, xs) == Failure(f(xs[i]).error)
    decreases |xs|
  {
    var n := |xs| - 1;
    var init := xs[..n];
    if i < n {
      MapResultsFirstFailure(f, init, i);
    } else {
      MapResultsEach(f, init);
    }
  }

  /** One more successful step extends the results by one. */
  lemma MapResultsStep<A, B, E>(f: A -> Result<B, E>, xs: seq<A>, i: nat, ys: seq<B>, y: B)
    requires i < |xs| && MapResults(f, xs[..i]) == Success(ys) && f(xs[i]) == Success(y)
    ensures MapResults(f, xs[..i + 1]) == Success(ys + [y])
  {
    assert xs[..i + 1][..i] == xs[..i];
    assert xs[..i + 1][i] == xs[i];
  }

  /** A failing step after a successful prefix is the failure of the whole. */
  lemma MapResultsStepFails<A, B, E>(f: A -> Result<B, E>, xs: seq<A>, i: nat)
    requires i < |xs| && MapResults(f, xs[..i]).Success? && f(xs[i]).Failure?
    ensures MapResults(f, xs) == Failure(f(xs[i]).error)
  {
    assert xs[..i + 1][..i] == xs[..i];
    assert xs[..i + 1][i] == xs[i];
    MapResultsPrefixFails(f, xs, i + 1);
  }

  /** A failing prefix decides the outcome of the whole sequence. */
  lemma {:induction false} MapResultsPrefixFails<A, B, E>(f: A -> Result<B, E>, xs: seq<A>, i: nat)
    requires i <= |xs| && MapResults(f, xs[..i]).Failure?
    ensures MapResults(f, xs) == MapResults(f, xs[..i])
    decreases |xs|
  {
    if i < |xs| {
      var init := xs[..|xs| - 1];
      assert init[..i] == xs[..i];
      MapResultsPrefixFails(f, init, i);
    } else {
      assert xs[..i] == xs;
    }
  }
}

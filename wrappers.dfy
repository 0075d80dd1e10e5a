/** Optional values and results with an error, used for Go's nil values and its error returns. */
module Wrappers {

  /** A value that may be absent (a nil struct or a nil slice in Go). */
  datatype Option<+T> = None | Some(value: T)

  /** The outcome of a Go call that returns a value and an error. */
  datatype Result<+T, +E> = Success(value: T) | Failure(error: E)

  /**
   * A loop that stops at the first failing step: all the values in order when
   * every step succeeds, otherwise the error of the first step that fails.
   */
  function Collect<T, E>(rs: seq<Result<T, E>>): Result<seq<T>, E>
    decreases |rs|
  {
    if rs == [] then Success([])
    else match rs[0]
      case Failure(e) => Failure(e)
      case Success(x) =>
        match Collect(rs[1..])
        case Failure(e) => Failure(e)
        case Success(xs) => Success([x] + xs)
  }

  /** When every step succeeds, the collected values are exactly the steps' values. */
  lemma {:induction false} CollectAllSucceed<T, E>(rs: seq<Result<T, E>>, xs: seq<T>)
    requires |xs| == |rs| && forall j :: 0 <= j < |rs| ==> rs[j] == Success(xs[j])
    ensures Collect(rs) == Success(xs)
    decreases |rs|
  {
    if rs != [] {
      CollectAllSucceed(rs[1..], xs[1..]);
      assert xs == [xs[0]] + xs[1..];
    }
  }

  /** When step k is the first to fail, collecting fails with its error. */
  lemma {:induction false} CollectStopsAt<T, E>(rs: seq<Result<T, E>>, k: nat)
    requires k < |rs| && rs[k].Failure? && forall j :: 0 <= j < k ==> rs[j].Success?
    ensures Collect(rs) == Failure(rs[k].error)
    decreases k
  {
    if k > 0 {
      CollectStopsAt(rs[1..], k - 1);
    }
  }

  /** Collecting succeeds exactly when every step succeeds, and then holds each step's value at its index. */
  lemma {:induction false} CollectSucceeds<T, E>(rs: seq<Result<T, E>>)
    ensures Collect(rs).Success? <==> forall j :: 0 <= j < |rs| ==> rs[j].Success?
    ensures Collect(rs).Success? ==>
      |Collect(rs).value| == |rs| && forall j :: 0 <= j < |rs| ==> rs[j] == Success(Collect(rs).value[j])
    decreases |rs|
  {
    if rs != [] {
      CollectSucceeds(rs[1..]);
      if Collect(rs).Success? {
        var xs := Collect(rs).value;
        assert forall j :: 1 <= j < |rs| ==> rs[j] == rs[1..][j - 1];
        assert forall j :: 1 <= j < |xs| ==> xs[j] == Collect(rs[1..]).value[j - 1];
      } else if rs[0].Success? {
        var j :| 0 <= j < |rs[1..]| && !rs[1..][j].Success?;
        assert !rs[j + 1].Success?;
      }
    }
  }

  /** A failed collection reports the error of its first failing step. */
  lemma {:induction false} CollectFailsAtFirst<T, E>(rs: seq<Result<T, E>>)
    requires Collect(rs).Failure?
    ensures exists k :: 0 <= k < |rs| && rs[k] == Failure(Collect(rs).error) && forall j :: 0 <= j < k ==> rs[j].Success?
    decreases |rs|
  {
    if rs[0].Success? {
      CollectFailsAtFirst(rs[1..]);
      var k :| 0 <= k < |rs[1..]| && rs[1..][k] == Failure(Collect(rs[1..]).error)
        && forall j :: 0 <= j < k ==> rs[1..][j].Success?;
      assert rs[k + 1] == Failure(Collect(rs).error);
      assert forall j :: 1 <= j < k + 1 ==> rs[j] == rs[1..][j - 1];
    }
  }
}

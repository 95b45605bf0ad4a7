/** Outcomes shared by the model: an optional value, the Python exception a
    failing step raises, and a result that is either a value or that exception. */
module Errors {

  datatype Option<T> = None | Some(value: T)

  /** The exception a failing step raises. `Raised` is an explicit
      `raise PAWpyError(...)`, and a bare `raise Exception` in the source. */
  datatype Error =
    | ValueError
    | IndexError
    | KeyError
    | AttributeError
    | ZeroDivisionError
    | Raised

  datatype Result<T> = Ok(value: T) | Err(error: Error)

  /** Applies f to each element in order, as a loop that stops at the first
      exception does: the result is every value, or the first error. */
  function MapAll<T, S>(xs: seq<T>, f: T -> Result<S>): (r: Result<seq<S>>)
    ensures r.Ok? ==> |r.value| == |xs|
  {
    if xs == [] then Ok([])
    else
      match MapAll(xs[..|xs| - 1], f)
      case Err(e) => Err(e)
      case Ok(ys) =>
        match f(xs[|xs| - 1])
        case Err(e) => Err(e)
        case Ok(y) => Ok(ys + [y])
  }

  /** One more element: an earlier error stands, otherwise the element's own
      result decides. */
  lemma MapAllSnoc<T, S>(xs: seq<T>, x: T, f: T -> Result<S>)
    ensures MapAll(xs, f).Err? ==> MapAll(xs + [x], f) == MapAll(xs, f)
    ensures MapAll(xs, f).Ok? && f(x).Err? ==> MapAll(xs + [x], f) == Err(f(x).error)
    ensures MapAll(xs, f).Ok? && f(x).Ok? ==> MapAll(xs + [x], f) == Ok(MapAll(xs, f).value + [f(x).value])
  {
    assert (xs + [x])[..|xs|] == xs;
  }

  /** Everything succeeds exactly when every element does. */
  lemma {:induction false} MapAllOk<T, S>(xs: seq<T>, f: T -> Result<S>)
    ensures MapAll(xs, f).Ok? <==> forall t :: 0 <= t < |xs| ==> f(xs[t]).Ok?
  {
    if xs != [] {
      var init := xs[..|xs| - 1];
      MapAllOk(init, f);
      if MapAll(xs, f).Ok? {
        forall t | 0 <= t < |xs| ensures f(xs[t]).Ok? {
          if t < |init| {
            assert init[t] == xs[t];
          }
        }
      } else if MapAll(init, f).Err? {
        var v :| 0 <= v < |init| && f(init[v]).Err?;
        assert init[v] == xs[v];
      }
    }
  }

  /** A failure is the failure of one of the elements. */
  lemma {:induction false} MapAllErrorFrom<T, S>(xs: seq<T>, f: T -> Result<S>)
    requires MapAll(xs, f).Err?
    ensures exists t :: 0 <= t < |xs| && f(xs[t]) == Err(MapAll(xs, f).error)
  {
    var init := xs[..|xs| - 1];
    if MapAll(init, f).Err? {
      MapAllErrorFrom(init, f);
      var t :| 0 <= t < |init| && f(init[t]) == Err(MapAll(init, f).error);
      assert init[t] == xs[t];
    } else {
      assert f(xs[|xs| - 1]) == Err(MapAll(xs, f).error);
    }
  }

  /** Element t's value is f's value at xs[t]. */
  lemma {:induction false} MapAllAt<T, S>(xs: seq<T>, f: T -> Result<S>, t: nat)
    requires MapAll(xs, f).Ok? && t < |xs|
    ensures f(xs[t]).Ok? && MapAll(xs, f).value[t] == f(xs[t]).value
  {
    var init := xs[..|xs| - 1];
    if t < |init| {
      MapAllAt(init, f, t);
      assert init[t] == xs[t];
    }
  }

  /** The first error is the one reported: once a prefix fails, the whole
      sequence fails with the same error. */
  lemma {:induction false} MapAllFirstError<T, S>(xs: seq<T>, q: nat, f: T -> Result<S>)
    requires q <= |xs| && MapAll(xs[..q], f).Err?
    ensures MapAll(xs, f) == MapAll(xs[..q], f)
    decreases |xs|
  {
    if q < |xs| {
      var init := xs[..|xs| - 1];
      assert init[..q] == xs[..q];
      MapAllFirstError(init, q, f);
    } else {
      assert xs[..q] == xs;
    }
  }
}

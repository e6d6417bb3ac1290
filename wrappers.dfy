/** Failure-compatible and optional values shared by every module of the model. */
module Wrappers {

  /** A value that may be missing (Python's `None` for an optional argument). */
  datatype Option<+T> = None | Some(value: T)

  /** One key of a Python dictionary: missing, present and bound to `None`, or present
      with a value. The three cases behave differently under `d.get(k, default)`,
      `k in d` and `d[k]`, so the model keeps them apart. */
  datatype Field<+T> = Absent | Null | Present(value: T)

  /** The kinds of Python exception the model follows; `GraphError` is whatever the graph
      runtime raises when a run exceeds its step limit or names an undeclared node. */
  datatype PyError = AttributeError | IndexError | KeyError | TypeError | ValueError | OverflowError | GraphError

  /** The outcome of a computation that may raise. */
  datatype Result<+T, +E> = Ok(value: T) | Err(error: E)

  /** Python truthiness of an optional string: present and not empty. */
  predicate Truthy(s: Option<string>)
  {
    s.Some? && s.value != ""
  }

  /** `f` applied to each element in order, as a loop that appends each result: the first
      element on which `f` fails stops it with that failure. */
  function MapResults<A, B, E>(xs: seq<A>, f: A -> Result<B, E>): (r: Result<seq<B>, E>)
    ensures r.Ok? <==> forall i :: 0 <= i < |xs| ==> f(xs[i]).Ok?
    ensures r.Ok? ==> |r.value| == |xs|
    ensures r.Ok? ==> forall i :: 0 <= i < |xs| ==> r.value[i] == f(xs[i]).value
  {
    if xs == [] then Ok([])
    else
      match f(xs[0])
      case Err(e) => Err(e)
      case Ok(y) =>
        match MapResults(xs[1..], f)
        case Err(e) => Err(e)
        case Ok(ys) => Ok([y] + ys)
  }

  /** A failed mapping fails with the failure of the first element on which `f` fails. */
  lemma {:induction false} MapResultsFailsAtFirst<A, B, E>(xs: seq<A>, f: A -> Result<B, E>)
    requires MapResults(xs, f).Err?
    ensures exists i :: 0 <= i < |xs| && f(xs[i]).Err? && MapResults(xs, f).error == f(xs[i]).error
                        && forall j :: 0 <= j < i ==> f(xs[j]).Ok?
  {
    if f(xs[0]).Err? {
      assert f(xs[0]).Err? && MapResults(xs, f).error == f(xs[0]).error;
    } else {
      MapResultsFailsAtFirst(xs[1..], f);
      var i :| 0 <= i < |xs[1..]| && f(xs[1..][i]).Err? && MapResults(xs[1..], f).error == f(xs[1..][i]).error
               && forall j :: 0 <= j < i ==> f(xs[1..][j]).Ok?;
      assert f(xs[i + 1]).Err? && MapResults(xs, f).error == f(xs[i + 1]).error;
      forall j | 0 <= j < i + 1 ensures f(xs[j]).Ok? {
        if j > 0 { assert xs[j] == xs[1..][j - 1]; }
      }
    }
  }

  /** Mapping one more element at the end of a list that maps appends its result. */
  lemma {:induction false} MapResultsSnoc<A, B, E>(xs: seq<A>, x: A, f: A -> Result<B, E>)
    requires MapResults(xs, f).Ok? && f(x).Ok?
    ensures MapResults(xs + [x], f) == Ok(MapResults(xs, f).value + [f(x).value])
  {
    var last := f(x).value;
    if xs == [] {
      assert xs + [x] == [x] && [x][1..] == [];
      assert MapResults([x], f) == Ok([last] + []);
      assert [last] + [] == [] + [last];
    } else {
      var first := f(xs[0]).value;
      var rest := MapResults(xs[1..], f).value;
      assert (xs + [x])[1..] == xs[1..] + [x];
      assert (xs + [x])[0] == xs[0];
      MapResultsSnoc(xs[1..], x, f);
      assert MapResults(xs, f).value == [first] + rest;
      assert [first] + (rest + [last]) == ([first] + rest) + [last];
    }
  }

  /** The loop invariant of a mapping loop stopped at element `i`, which fails: the whole
      mapping fails with its failure. */
  lemma MapResultsStopsAt<A, B, E>(xs: seq<A>, i: int, f: A -> Result<B, E>)
    requires 0 <= i < |xs| && MapResults(xs[..i], f).Ok? && f(xs[i]).Err?
    ensures MapResults(xs, f) == Err(f(xs[i]).error)
  {
    assert !MapResults(xs, f).Ok?;
    MapResultsFailsAtFirst(xs, f);
    var k :| 0 <= k < |xs| && f(xs[k]).Err? && MapResults(xs, f).error == f(xs[k]).error
             && forall j :: 0 <= j < k ==> f(xs[j]).Ok?;
  }
}

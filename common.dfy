/**
 * Value wrappers shared by the whole model: optional JSON fields, the
 * exceptions the Python code raises, and a few sequence helpers.
 */
module Common {

  /** A JSON field or attribute that may be absent (Python's `None`). */
  datatype Option<+T> = None | Some(value: T) {
    /** Python's `d.get(key, default)`. */
    function GetOr(default: T): T {
      match this
      case Some(v) => v
      case None => default
    }
  }

  /** The Python exception classes the modelled code can raise. */
  datatype PyError =
    | IndexError         // list index out of range
    | KeyError           // missing dictionary key
    | TypeError          // int(None), len(None)
    | ValueError         // raised explicitly, or int() of a non-numeric string
    | ZeroDivisionError  // a stat ratio with a zero divisor
    | AttributeError     // an attribute read on None

  /** The value a Python call returns, or the exception it raises. */
  datatype Result<+T> = Ok(value: T) | Err(error: PyError)

  /** The outcome of a Python call that returns None or raises. */
  datatype Outcome = Pass | Fail(error: PyError)

  /** The loop `for x in xs: out.append(f(x))` where `f` may raise: the results in
      order, or the exception of the first element that raises. */
  function MapAll<A, B>(f: A -> Result<B>, xs: seq<A>): (r: Result<seq<B>>)
    ensures r.Ok? <==> forall i :: 0 <= i < |xs| ==> f(xs[i]).Ok?
    ensures r.Ok? ==> |r.value| == |xs| && forall i :: 0 <= i < |xs| ==> f(xs[i]) == Ok(r.value[i])
    ensures r.Err? ==> exists i :: FirstFailure(f, xs, i) && f(xs[i]) == Err(r.error)
  {
    if |xs| == 0 then Ok([])
    else
      var last := |xs| - 1;
      assert forall i :: 0 <= i < last ==> xs[..last][i] == xs[i];
      match MapAll(f, xs[..last])
      case Err(e) =>
        assert forall i :: FirstFailure(f, xs[..last], i) ==> FirstFailure(f, xs, i);
        Err(e)
      case Ok(prev) =>
        match f(xs[last])
        case Err(e) =>
          assert FirstFailure(f, xs, last);
          Err(e)
        case Ok(y) => Ok(prev + [y])
  }

  /** Element `i` is the first whose call raises. */
  ghost predicate FirstFailure<A, B>(f: A -> Result<B>, xs: seq<A>, i: int) {
    0 <= i < |xs| && f(xs[i]).Err? && forall j :: 0 <= j < i ==> f(xs[j]).Ok?
  }

  /** The loop stops with the exception of the first element that raises. */
  lemma MapAllFirstError<A, B>(f: A -> Result<B>, xs: seq<A>, i: int)
    requires FirstFailure(f, xs, i)
    ensures MapAll(f, xs) == Err(f(xs[i]).error)
  {
    var r := MapAll(f, xs);
    var w :| FirstFailure(f, xs, w) && f(xs[w]) == Err(r.error);
    assert w == i;
  }

  /** When every element maps to a value, `MapAll` gives exactly those values. */
  lemma MapAllValues<A, B>(f: A -> Result<B>, xs: seq<A>, vs: seq<B>)
    requires |vs| == |xs| && forall i :: 0 <= i < |xs| ==> f(xs[i]) == Ok(vs[i])
    ensures MapAll(f, xs) == Ok(vs)
  {
    assert MapAll(f, xs).Ok?;
    assert MapAll(f, xs).value == vs;
  }

  /** No object or value occurs twice. */
  ghost predicate Distinct<T>(s: seq<T>) {
    forall i, j :: 0 <= i < j < |s| ==> s[i] != s[j]
  }

  function Min(a: int, b: int): int {
    if a <= b then a else b
  }
}

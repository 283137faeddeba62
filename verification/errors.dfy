/** Failure values shared by the whole model: the Python exceptions the
    engine raises become `Err` values carrying the exception class. */
module Errors {

  /** The exception classes the engine raises. `TypeError` also stands for
      the `AttributeError`s Python raises when a configuration value has
      the wrong shape (calling `.get` on a list, `.split` on an int, ...). */
  datatype ErrorKind = ValueError | KeyError | TypeError | RuntimeError | ValidationError

  datatype Error = Error(kind: ErrorKind, message: string)

  datatype Option<+T> = None | Some(value: T)

  datatype Result<+T> = Ok(value: T) | Err(error: Error) {
    predicate IsFailure() { Err? }

    function PropagateFailure<U>(): Result<U>
      requires Err?
    {
      Err(error)
    }

    function Extract(): T
      requires Ok?
    {
      value
    }
  }

  function Fail<T>(kind: ErrorKind, message: string): Result<T>
  {
    Err(Error(kind, message))
  }

  /** True when `r` failed with an exception of class `kind`. */
  predicate FailedWith<T>(r: Result<T>, kind: ErrorKind)
  {
    r.Err? && r.error.kind == kind
  }

  /** `f` applied to every item in order; the first failure stops it, as a
      `for` loop whose body raises does. */
  function Traverse<T, U>(f: T -> Result<U>, xs: seq<T>): (r: Result<seq<U>>)
    ensures r.Ok? <==> forall i :: 0 <= i < |xs| ==> f(xs[i]).Ok?
    ensures r.Ok? ==> |r.value| == |xs|
    ensures r.Ok? ==> forall i :: 0 <= i < |xs| ==> r.value[i] == f(xs[i]).value
    decreases |xs|
  {
    if xs == [] then Ok([])
    else
      var n := |xs| - 1;
      assert forall i :: 0 <= i < n ==> xs[..n][i] == xs[i];
      match Traverse(f, xs[..n])
      case Err(e) => Err(e)
      case Ok(init) =>
        match f(xs[n])
        case Err(e) => Err(e)
        case Ok(last) => Ok(init + [last])
  }

  /** A failure on a prefix is the failure of the whole. */
  lemma {:induction false} TraversePrefixError<T, U>(f: T -> Result<U>, xs: seq<T>, n: nat)
    requires n <= |xs| && Traverse(f, xs[..n]).Err?
    ensures Traverse(f, xs) == Traverse(f, xs[..n])
    decreases |xs| - n
  {
    if n < |xs| {
      assert xs[..n + 1][..n] == xs[..n];
      TraversePrefixError(f, xs, n + 1);
    } else {
      assert xs[..n] == xs;
    }
  }

  /** One step of a loop that applies `f` to the items in order: a success
      extends the results, a failure is the failure of the whole. */
  lemma TraverseStep<T, U>(f: T -> Result<U>, xs: seq<T>, i: nat, done: seq<U>)
    requires i < |xs| && Traverse(f, xs[..i]) == Ok(done)
    ensures f(xs[i]).Ok? ==> Traverse(f, xs[..i + 1]) == Ok(done + [f(xs[i]).value])
    ensures f(xs[i]).Err? ==> Traverse(f, xs) == Err(f(xs[i]).error)
  {
    assert xs[..i + 1][..i] == xs[..i];
    if f(xs[i]).Err? {
      TraversePrefixError(f, xs, i + 1);
    }
  }

  /** When every item succeeds, the results are the items' results. */
  lemma TraverseOk<T, U>(f: T -> Result<U>, xs: seq<T>, ys: seq<U>)
    requires |ys| == |xs| && forall i :: 0 <= i < |xs| ==> f(xs[i]) == Ok(ys[i])
    ensures Traverse(f, xs) == Ok(ys)
  {
    assert Traverse(f, xs).value == ys;
  }

  /** The first item that fails decides the failure. */
  lemma TraverseFirstError<T, U>(f: T -> Result<U>, xs: seq<T>, i: nat)
    requires i < |xs| && f(xs[i]).Err?
    requires forall j :: 0 <= j < i ==> f(xs[j]).Ok?
    ensures Traverse(f, xs) == Err(f(xs[i]).error)
  {
    var p := xs[..i + 1];
    assert p[..i] == xs[..i];
    assert forall j :: 0 <= j < i ==> xs[..i][j] == xs[j];
    assert Traverse(f, xs[..i]).Ok?;
    assert p[i] == xs[i];
    TraversePrefixError(f, xs, i + 1);
  }

  /** A failure is the failure of some item. */
  lemma {:induction false} TraverseFailure<T, U>(f: T -> Result<U>, xs: seq<T>)
    ensures Traverse(f, xs).Err? ==> exists i :: 0 <= i < |xs| && f(xs[i]) == Err(Traverse(f, xs).error)
    decreases |xs|
  {
    if xs != [] && Traverse(f, xs).Err? {
      var n := |xs| - 1;
      TraverseFailure(f, xs[..n]);
      if Traverse(f, xs[..n]).Err? {
        var i :| 0 <= i < n && f(xs[..n][i]) == Err(Traverse(f, xs[..n]).error);
        assert xs[..n][i] == xs[i];
      } else {
        assert f(xs[n]) == Err(Traverse(f, xs).error);
      }
    }
  }
}

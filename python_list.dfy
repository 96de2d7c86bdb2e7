/**
 The small part of Python's list semantics that the emulator relies on: a
 list of length n accepts any index in [-n, n), a negative index counting from
 the end, and raises IndexError for every other index. Exceptions are values.
 */
module PyList {

  /** The two exceptions the emulator can raise. */
  datatype Exception = IndexError | UnsupportedAluOperation

  datatype Option<T> = None | Some(value: T)

  datatype Result<T> = Ok(value: T) | Err(exc: Exception)

  /** The position that Python's `xs[i]` addresses in a list of length `n`, if any. */
  function PyIndex(i: int, n: nat): (r: Option<nat>)
    ensures r.Some? <==> -(n as int) <= i < n
    ensures r.Some? ==> r.value < n && (r.value - i == 0 || r.value - i == n)
  {
    if 0 <= i < n then Some(i)
    else if -(n as int) <= i < 0 then Some(i + n)
    else None
  }

  /** Python's `xs[i]`. */
  function Get(xs: seq<int>, i: int): (r: Result<int>)
    ensures r.Ok? <==> -|xs| <= i < |xs|
    ensures r.Err? ==> r.exc == IndexError
    ensures r.Ok? && 0 <= i ==> r.value == xs[i]
    ensures r.Ok? && i < 0 ==> r.value == xs[|xs| + i]
  {
    match PyIndex(i, |xs|)
    case None => Err(IndexError)
    case Some(k) => Ok(xs[k])
  }

  /** Python's `xs[i] = v`, giving the updated list. */
  function Set(xs: seq<int>, i: int, v: int): (r: Result<seq<int>>)
    ensures r.Ok? <==> -|xs| <= i < |xs|
    ensures r.Err? ==> r.exc == IndexError
    ensures r.Ok? ==> |r.value| == |xs|
  {
    match PyIndex(i, |xs|)
    case None => Err(IndexError)
    case Some(k) => Ok(xs[k := v])
  }

  /** Writing a cell and reading it back gives the written value; every cell
      that is not the written one reads as before. */
  lemma SetThenGet(xs: seq<int>, i: int, v: int)
    requires -|xs| <= i < |xs|
    ensures Set(xs, i, v).Ok?
    ensures Get(Set(xs, i, v).value, i) == Ok(v)
    ensures forall j :: PyIndex(j, |xs|) != PyIndex(i, |xs|) ==>
                          Get(Set(xs, i, v).value, j) == Get(xs, j)
  {
  }
}

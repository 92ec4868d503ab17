/** The parts of java.util.ArrayList behaviour that a cycle relies on:
    indexed access that throws on a bad index, and indexOf. */
module JavaLists {

  /** The exceptions a list access can raise in the modelled code. */
  datatype Fault =
    | IndexOutOfBounds(index: int)  // ArrayList.get with an index outside the list
    | NullReference                 // a field still holding null

  datatype Result<T> = Ok(value: T) | Failure(fault: Fault)

  /** A reference field that may still be null. */
  datatype Option<T> = None | Some(value: T)

  /** Number of iterations of `for (int i = 0; i < n; i++)`. */
  function Count(n: int): nat
  {
    if n < 0 then 0 else n
  }

  /** ArrayList.get: the element at i, or the exception Java throws. */
  function Get<T>(xs: seq<T>, i: int): (r: Result<T>)
    ensures r.Ok? <==> 0 <= i < |xs|
    ensures r.Ok? ==> r.value == xs[i]
    ensures r.Failure? ==> r.fault == IndexOutOfBounds(i)
  {
    if 0 <= i < |xs| then Ok(xs[i]) else Failure(IndexOutOfBounds(i))
  }

  /** `xss.get(i).get(j)` on a list of lists. */
  function GetIn<T>(xss: seq<seq<T>>, i: int, j: int): (r: Result<T>)
    ensures r.Ok? <==> 0 <= i < |xss| && 0 <= j < |xss[i]|
    ensures r.Ok? ==> r.value == xss[i][j]
    ensures !(0 <= i < |xss|) ==> r == Failure(IndexOutOfBounds(i))
  {
    match Get(xss, i)
    case Failure(f) => Failure(f)
    case Ok(row) => Get(row, j)
  }

  /** ArrayList.indexOf: the first position holding x, or -1 when there is none. */
  function IndexOf(xs: seq<int>, x: int): (r: int)
    ensures -1 <= r < |xs|
    ensures r == -1 <==> x !in xs
    ensures r >= 0 ==> xs[r] == x && x !in xs[..r]
  {
    if |xs| == 0 then -1
    else
      var k := IndexOf(xs[..|xs| - 1], x);
      if k >= 0 then k
      else if xs[|xs| - 1] == x then |xs| - 1
      else -1
  }

  predicate NoDuplicates(xs: seq<int>)
  {
    forall i, j :: 0 <= i < j < |xs| ==> xs[i] != xs[j]
  }

  /** In a list without duplicates, indexOf finds every element at its own position. */
  lemma IndexOfDistinct(xs: seq<int>, k: int)
    requires NoDuplicates(xs)
    requires 0 <= k < |xs|
    ensures IndexOf(xs, xs[k]) == k
  {
  }

  /** Appending a fresh element leaves every earlier position as it was and puts
      the new one last. */
  lemma IndexOfAppend(xs: seq<int>, p: int, q: int)
    requires p !in xs
    ensures IndexOf(xs + [p], q) == if q == p then |xs| else IndexOf(xs, q)
  {
  }
}

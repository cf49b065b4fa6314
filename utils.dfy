/** The generic slice helper. */
module Utils {
  /** The elements of `s` through `fn`, in order. */
  function MapSeq<T, R>(s: seq<T>, fn: T -> R): (r: seq<R>)
    ensures |r| == |s| && forall i :: 0 <= i < |s| ==> r[i] == fn(s[i])
  {
    if |s| == 0 then [] else [fn(s[0])] + MapSeq(s[1..], fn)
  }

  /** Map: a new slice holding `fn` of each element, in order; the input
      is only read. */
  method Map<T, R(0)>(slice: array<T>, fn: T -> R) returns (result: array<R>)
    ensures fresh(result)
    ensures result.Length == slice.Length
    ensures forall i :: 0 <= i < slice.Length ==> result[i] == fn(slice[i])
    ensures result[..] == MapSeq(slice[..], fn)
  {
    result := new R[slice.Length];
    for i := 0 to slice.Length
      invariant forall j :: 0 <= j < i ==> result[j] == fn(slice[j])
    {
      result[i] := fn(slice[i]);
    }
  }
}

/** Shapes shared by every route: optional values, sequence filtering, and the ways a request ends. */
module Common {

  datatype Option<+T> = None | Some(value: T)

  /** The error kinds the routes hand to `next` (bad request, payment required, forbidden,
      not found, internal server error). */
  datatype ApiError = BadRequest | PaymentRequired | Forbidden | NotFound | InternalError

  /** How a request ends: a success body, an error passed to `next`, or no answer at all, which is
      what happens when an exception escapes an async callback that nothing awaits. */
  datatype Reply = Success | Failure(error: ApiError) | Unanswered

  /** The elements of `s` that satisfy `keep`, in their original order (a query's `find`). */
  function Filter<T(!new)>(s: seq<T>, keep: T -> bool): (r: seq<T>)
    ensures |r| <= |s|
    ensures forall x :: x in r <==> x in s && keep(x)
    ensures multiset(r) <= multiset(s)
  {
    if s == [] then []
    else
      var rest := Filter(s[1..], keep);
      assert s == [s[0]] + s[1..];
      if keep(s[0]) then [s[0]] + rest else rest
  }

  /** The position of the first element of `s` that satisfies `keep` (a query's `findOne`). */
  function FindFirst<T>(s: seq<T>, keep: T -> bool): (r: Option<nat>)
    ensures r.Some? ==> r.value < |s| && keep(s[r.value]) && forall j :: 0 <= j < r.value ==> !keep(s[j])
    ensures r.None? ==> forall j :: 0 <= j < |s| ==> !keep(s[j])
  {
    if s == [] then None
    else if keep(s[0]) then Some(0)
    else match FindFirst(s[1..], keep)
      case None => None
      case Some(k) => Some(k + 1)
  }

  /** `s` with the element at `k` taken out. */
  function RemoveAt<T>(s: seq<T>, k: nat): (r: seq<T>)
    requires k < |s|
    ensures |r| == |s| - 1
    ensures forall i :: 0 <= i < |r| ==> r[i] == s[if i < k then i else i + 1]
  {
    s[..k] + s[k + 1..]
  }
}

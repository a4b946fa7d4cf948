/** Small shared vocabulary: optional values, JavaScript truthiness of
    optional strings, and the order-preserving filter and first-match search
    that the SQL `DELETE ... WHERE` / `SELECT ... WHERE` statements and the
    JavaScript `Array.prototype.filter` calls of the system reduce to. */
module Common {

  datatype Option<+T> = None | Some(value: T)

  /** JavaScript truthiness of a string that may be missing: `undefined`,
      `null` and the empty string are falsy, every other string is truthy. */
  predicate Truthy(o: Option<string>) {
    o.Some? && o.value != ""
  }

  /** `String(v)` of a string that may be `undefined`, as a template
      literal or `localStorage.setItem` renders it. */
  function JsString(v: Option<string>): (s: string)
    ensures v.Some? ==> s == v.value
    ensures v.None? ==> s == "undefined"
  {
    if v.Some? then v.value else "undefined"
  }

  /** `a` is obtained from `b` by deleting elements (order is kept). */
  predicate IsSubsequence<T(==)>(a: seq<T>, b: seq<T>)
    decreases |b|
  {
    |a| == 0 ||
    (|b| > 0 &&
      ((a[0] == b[0] && IsSubsequence(a[1..], b[1..])) || IsSubsequence(a, b[1..])))
  }

  /** The elements of `s` satisfying `p`, in their original order. Together
      the three postconditions determine the result uniquely. */
  function Filter<T(==,!new)>(s: seq<T>, p: T -> bool): (r: seq<T>)
    ensures IsSubsequence(r, s)
    ensures forall x :: x in r ==> p(x)
    ensures forall x :: multiset(r)[x] == if p(x) then multiset(s)[x] else 0
  {
    if |s| == 0 then []
    else
      assert s == [s[0]] + s[1..];
      var rest := Filter(s[1..], p);
      if p(s[0]) then [s[0]] + rest else rest
  }

  /** Filtering twice with the same predicate is filtering once. */
  lemma {:induction false} FilterIdempotent<T(!new)>(s: seq<T>, p: T -> bool)
    ensures Filter(Filter(s, p), p) == Filter(s, p)
  {
    if |s| > 0 {
      FilterIdempotent(s[1..], p);
      if p(s[0]) {
        var rest := Filter(s[1..], p);
        assert ([s[0]] + rest)[1..] == rest;
      }
    }
  }

  /** A filter that keeps every element is the identity. */
  lemma {:induction false} FilterKeepsAll<T(!new)>(s: seq<T>, p: T -> bool)
    requires forall i :: 0 <= i < |s| ==> p(s[i])
    ensures Filter(s, p) == s
  {
    if |s| > 0 {
      FilterKeepsAll(s[1..], p);
      assert s == [s[0]] + s[1..];
    }
  }

  /** Index of the first element satisfying `p`, if any. */
  function Find<T>(s: seq<T>, p: T -> bool): (r: Option<nat>)
    ensures r.Some? ==> r.value < |s| && p(s[r.value])
    ensures r.Some? ==> forall j :: 0 <= j < r.value ==> !p(s[j])
    ensures r.None? <==> forall j :: 0 <= j < |s| ==> !p(s[j])
  {
    if |s| == 0 then None
    else if p(s[0]) then Some(0)
    else match Find(s[1..], p)
      case None => None
      case Some(k) => Some(k + 1)
  }
}

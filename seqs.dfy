/** Sequence helpers shared by the catalog, the cart and the request helper:
    the `find` and `filter` array operations the application code relies on. */
module Seqs {

  datatype Option<+T> = None | Some(value: T)

  /** Index of the first element satisfying `p`, as `Array.prototype.find`
      (and `findIndex`) select it; None when no element does. */
  function Find<T>(s: seq<T>, p: T -> bool): (r: Option<nat>)
    ensures r.Some? ==> r.value < |s| && p(s[r.value])
    ensures r.Some? ==> forall j :: 0 <= j < r.value ==> !p(s[j])
    ensures r.None? <==> forall j :: 0 <= j < |s| ==> !p(s[j])
  {
    if s == [] then None
    else if p(s[0]) then Some(0)
    else match Find(s[1..], p)
      case None => None
      case Some(i) => Some(i + 1)
  }

  /** The loop behind `find`: scans from the front and stops at the first hit. */
  method FindIndex<T>(s: seq<T>, p: T -> bool) returns (r: Option<nat>)
    ensures r == Find(s, p)
  {
    var i := 0;
    while i < |s|
      invariant 0 <= i <= |s|
      invariant forall j :: 0 <= j < i ==> !p(s[j])
    {
      if p(s[i]) {
        FindIsFirst(s, p, i);
        return Some(i);
      }
      i := i + 1;
    }
    return None;
  }

  /** A hit preceded only by misses is the one `Find` reports. */
  lemma FindIsFirst<T>(s: seq<T>, p: T -> bool, i: nat)
    requires i < |s| && p(s[i])
    requires forall j :: 0 <= j < i ==> !p(s[j])
    ensures Find(s, p) == Some(i)
  {
    assert Find(s, p).Some?;
  }

  /** `Array.prototype.filter`: the elements satisfying `p`, in their original order. */
  function Filter<T>(s: seq<T>, p: T -> bool): (r: seq<T>)
    ensures |r| <= |s|
    ensures forall i :: 0 <= i < |r| ==> r[i] in s && p(r[i])
    ensures forall j :: 0 <= j < |s| && p(s[j]) ==> s[j] in r
  {
    if s == [] then []
    else (if p(s[0]) then [s[0]] else []) + Filter(s[1..], p)
  }

  /** Filtering distributes over concatenation: the kept elements stay in order. */
  lemma {:induction false} FilterConcat<T>(a: seq<T>, b: seq<T>, p: T -> bool)
    ensures Filter(a + b, p) == Filter(a, p) + Filter(b, p)
  {
    if a == [] {
      assert a + b == b;
    } else {
      assert (a + b)[1..] == a[1..] + b;
      FilterConcat(a[1..], b, p);
    }
  }

  /** A filter that every element passes changes nothing. */
  lemma {:induction false} FilterKeepsAll<T>(s: seq<T>, p: T -> bool)
    requires forall j :: 0 <= j < |s| ==> p(s[j])
    ensures Filter(s, p) == s
  {
    if s != [] {
      FilterKeepsAll(s[1..], p);
    }
  }

  /** When exactly the element at `k` fails `p`, the filter drops that one
      element and keeps the rest in their original order. */
  lemma {:induction false} FilterDropsOne<T>(s: seq<T>, p: T -> bool, k: nat)
    requires k < |s| && !p(s[k])
    requires forall j :: 0 <= j < |s| && j != k ==> p(s[j])
    ensures Filter(s, p) == s[..k] + s[k + 1..]
  {
    var rest := s[1..];
    if k == 0 {
      assert forall j :: 0 <= j < |rest| ==> rest[j] == s[j + 1];
      FilterKeepsAll(rest, p);
    } else {
      assert forall j :: 0 <= j < |rest| ==> rest[j] == s[j + 1];
      FilterDropsOne(rest, p, k - 1);
      assert s[..k] + s[k + 1..] == [s[0]] + (rest[..k - 1] + rest[k..]);
    }
  }

}

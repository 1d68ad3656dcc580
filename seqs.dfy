/** The array operations the store and the components are written with:
    `filter`, `findIndex`/`find` and a stable `sort` by a numeric key, descending. */
module Seqs {
  import opened Wrappers

  /** `s.filter(f)`: the elements of `s` that satisfy `f`, in their order in `s`. */
  function Filter<T>(s: seq<T>, f: T -> bool): (r: seq<T>)
    ensures |r| <= |s|
    ensures forall i :: 0 <= i < |r| ==> f(r[i])
    ensures forall i :: 0 <= i < |r| ==> r[i] in s
    ensures forall i :: 0 <= i < |s| && f(s[i]) ==> s[i] in r
  {
    if s == [] then []
    else
      assert s == [s[0]] + s[1..];
      if f(s[0]) then [s[0]] + Filter(s[1..], f) else Filter(s[1..], f)
  }

  /** Filtering distributes over concatenation, so it keeps the order of `s`. */
  lemma {:induction false} FilterConcat<T>(a: seq<T>, b: seq<T>, f: T -> bool)
    ensures Filter(a + b, f) == Filter(a, f) + Filter(b, f)
  {
    if a == [] {
      assert a + b == b;
    } else {
      assert (a + b)[0] == a[0];
      assert (a + b)[1..] == a[1..] + b;
      FilterConcat(a[1..], b, f);
    }
  }

  /** Filtering keeps everything when every element passes. */
  lemma {:induction false} FilterAll<T>(s: seq<T>, f: T -> bool)
    requires forall i :: 0 <= i < |s| ==> f(s[i])
    ensures Filter(s, f) == s
  {
    if s != [] {
      FilterAll(s[1..], f);
    }
  }

  /** Filtering keeps nothing when no element passes. */
  lemma {:induction false} FilterNone<T>(s: seq<T>, f: T -> bool)
    requires forall i :: 0 <= i < |s| ==> !f(s[i])
    ensures Filter(s, f) == []
  {
    if s != [] {
      FilterNone(s[1..], f);
    }
  }

  /** Two tests that agree on every element of `s` select the same subsequence. */
  lemma {:induction false} FilterExt<T>(s: seq<T>, f: T -> bool, g: T -> bool)
    requires forall i :: 0 <= i < |s| ==> f(s[i]) == g(s[i])
    ensures Filter(s, f) == Filter(s, g)
  {
    if s != [] {
      FilterExt(s[1..], f, g);
    }
  }

  /** Filtering twice is filtering once by the conjunction. */
  lemma {:induction false} FilterFilter<T>(s: seq<T>, f: T -> bool, g: T -> bool, h: T -> bool)
    requires forall i :: 0 <= i < |s| ==> h(s[i]) == (f(s[i]) && g(s[i]))
    ensures Filter(Filter(s, f), g) == Filter(s, h)
  {
    if s != [] {
      FilterFilter(s[1..], f, g, h);
    }
  }

  /** `s.findIndex(f)`, with "not found" as `None`: the first position whose element satisfies `f`. */
  function IndexOf<T>(s: seq<T>, f: T -> bool): (r: Option<nat>)
    ensures r.None? <==> forall i :: 0 <= i < |s| ==> !f(s[i])
    ensures r.Some? ==> r.value < |s| && f(s[r.value])
    ensures r.Some? ==> forall j :: 0 <= j < r.value ==> !f(s[j])
  {
    if s == [] then None
    else if f(s[0]) then Some(0)
    else
      match IndexOf(s[1..], f)
      case None => None
      case Some(k) => Some(k + 1)
  }

  /** Two tests that agree position by position on two equally long sequences
      find the same first position. */
  lemma {:induction false} IndexOfPointwise<T, U>(s: seq<T>, f: T -> bool, t: seq<U>, g: U -> bool)
    requires |s| == |t|
    requires forall i :: 0 <= i < |s| ==> f(s[i]) == g(t[i])
    ensures IndexOf(s, f) == IndexOf(t, g)
  {
    if s != [] {
      IndexOfPointwise(s[1..], f, t[1..], g);
    }
  }

  /** `s.find(f)`: the first element that satisfies `f`, or `None` (`undefined`). */
  function Find<T>(s: seq<T>, f: T -> bool): (r: Option<T>)
    ensures r.None? <==> forall i :: 0 <= i < |s| ==> !f(s[i])
    ensures r.Some? ==> exists k :: 0 <= k < |s| && s[k] == r.value && f(s[k])
                                    && forall j :: 0 <= j < k ==> !f(s[j])
  {
    match IndexOf(s, f)
    case None => None
    case Some(k) => Some(s[k])
  }

  /** Every element's key is at least that of every later element. */
  predicate SortedDesc<T>(s: seq<T>, key: T -> int) {
    forall i, j :: 0 <= i < j < |s| ==> key(s[i]) >= key(s[j])
  }

  /** Inserts `x` before the first element with a strictly smaller key. */
  function InsertDesc<T>(x: T, s: seq<T>, key: T -> int): (r: seq<T>)
    requires SortedDesc(s, key)
    ensures |r| == |s| + 1
    ensures r[0] == x || (s != [] && r[0] == s[0])
    ensures SortedDesc(r, key)
    ensures multiset(r) == multiset(s) + multiset{x}
  {
    if s == [] || key(x) >= key(s[0]) then [x] + s
    else
      var t := InsertDesc(x, s[1..], key);
      assert s == [s[0]] + s[1..];
      assert key(s[0]) >= key(t[0]);
      [s[0]] + t
  }

  /** `s.sort((a, b) => key(b) - key(a))`: insertion sort, stable like
      `Array.prototype.sort`, largest key first. */
  function SortDesc<T>(s: seq<T>, key: T -> int): (r: seq<T>)
    ensures |r| == |s|
    ensures SortedDesc(r, key)
    ensures multiset(r) == multiset(s)
  {
    if s == [] then []
    else
      assert s == [s[0]] + s[1..];
      InsertDesc(s[0], SortDesc(s[1..], key), key)
  }

  /** Sorting keeps exactly the elements of the input. */
  lemma SortDescMembers<T>(s: seq<T>, key: T -> int)
    ensures forall i :: 0 <= i < |s| ==> s[i] in SortDesc(s, key)
    ensures forall i :: 0 <= i < |s| ==> SortDesc(s, key)[i] in s
  {
    var r := SortDesc(s, key);
    forall i | 0 <= i < |s| ensures s[i] in r && r[i] in s {
      assert s[i] in multiset(s);
      assert r[i] in multiset(r);
    }
  }
}

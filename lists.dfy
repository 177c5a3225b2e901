/**
 * `Array.prototype.filter`, `find` and `some` over sequences, with the
 * facts the rest of the model needs about them.
 */
module Lists {
  import opened JsValues

  /** `s.filter(f)`: the elements satisfying `f`, in their order. */
  function Filter<T(!new)>(s: seq<T>, f: T -> bool): (r: seq<T>)
    ensures |r| <= |s|
    ensures forall i :: 0 <= i < |r| ==> f(r[i])
  {
    if s == [] then [] else (if f(s[0]) then [s[0]] else []) + Filter(s[1..], f)
  }

  /** The filtered list holds exactly the elements of the list that satisfy `f`. */
  lemma {:induction false} FilterMembers<T(!new)>(s: seq<T>, f: T -> bool)
    ensures forall x :: x in Filter(s, f) <==> x in s && f(x)
    decreases |s|
  {
    if s != [] {
      FilterMembers(s[1..], f);
      assert s == [s[0]] + s[1..];
    }
  }

  /** Filtering a concatenation filters each part. */
  lemma {:induction false} FilterAppend<T(!new)>(a: seq<T>, b: seq<T>, f: T -> bool)
    ensures Filter(a + b, f) == Filter(a, f) + Filter(b, f)
    decreases |a|
  {
    if a == [] {
      assert a + b == b;
    } else {
      assert (a + b)[0] == a[0] && (a + b)[1..] == a[1..] + b;
      FilterAppend(a[1..], b, f);
      var h := if f(a[0]) then [a[0]] else [];
      assert Filter(a + b, f) == h + (Filter(a[1..], f) + Filter(b, f));
      assert h + (Filter(a[1..], f) + Filter(b, f)) == (h + Filter(a[1..], f)) + Filter(b, f);
    }
  }

  /** A filter keeps every occurrence of a kept element and none of a dropped one. */
  lemma {:induction false} FilterCount<T(!new)>(s: seq<T>, f: T -> bool, x: T)
    ensures multiset(Filter(s, f))[x] == if f(x) then multiset(s)[x] else 0
    decreases |s|
  {
    if s != [] {
      FilterCount(s[1..], f, x);
      assert s == [s[0]] + s[1..];
    }
  }

  /** Filtering by a condition that every element meets changes nothing. */
  lemma {:induction false} FilterAll<T(!new)>(s: seq<T>, f: T -> bool)
    requires forall i :: 0 <= i < |s| ==> f(s[i])
    ensures Filter(s, f) == s
    decreases |s|
  {
    if s != [] {
      FilterAll(s[1..], f);
      assert s == [s[0]] + s[1..];
    }
  }

  /** `r` is `s` with some elements left out, the rest in their order. */
  predicate Subsequence<T(==)>(r: seq<T>, s: seq<T>)
    decreases |s|
  {
    if r == [] then true
    else if s == [] then false
    else (r[0] == s[0] && Subsequence(r[1..], s[1..])) || Subsequence(r, s[1..])
  }

  /** A filter keeps its elements in their order. */
  lemma {:induction false} FilterSubsequence<T(!new)>(s: seq<T>, f: T -> bool)
    ensures Subsequence(Filter(s, f), s)
    decreases |s|
  {
    if s != [] {
      FilterSubsequence(s[1..], f);
      var r := Filter(s, f);
      if f(s[0]) {
        assert r[0] == s[0] && r[1..] == Filter(s[1..], f);
      } else {
        assert r == Filter(s[1..], f);
      }
    }
  }

  /** Two filters in a row are one filter by both conditions. */
  lemma {:induction false} FilterFilter<T(!new)>(s: seq<T>, f: T -> bool, g: T -> bool)
    ensures Filter(Filter(s, f), g) == Filter(s, x => f(x) && g(x))
    decreases |s|
  {
    if s != [] {
      var h := if f(s[0]) then [s[0]] else [];
      assert Filter(s, f) == h + Filter(s[1..], f);
      FilterAppend(h, Filter(s[1..], f), g);
      FilterFilter(s[1..], f, g);
    }
  }

  /** Every sequence is a subsequence of itself. */
  lemma {:induction false} SubsequenceRefl<T>(s: seq<T>)
    ensures Subsequence(s, s)
    decreases |s|
  {
    if s != [] {
      SubsequenceRefl(s[1..]);
    }
  }

  /** Two filters in a row keep the order and exactly the elements meeting both conditions. */
  lemma TwoFilters<T(!new)>(s: seq<T>, f: T -> bool, g: T -> bool)
    ensures Subsequence(Filter(Filter(s, f), g), s)
    ensures forall x :: x in Filter(Filter(s, f), g) <==> x in s && f(x) && g(x)
  {
    FilterFilter(s, f, g);
    FilterSubsequence(s, x => f(x) && g(x));
    FilterMembers(s, x => f(x) && g(x));
  }

  /** `s.find(f)`: the first element satisfying `f`, if any. */
  function Find<T>(s: seq<T>, f: T -> bool): (r: Option<T>)
    ensures r.Some? ==> r.value in s && f(r.value)
    ensures r.None? <==> forall i :: 0 <= i < |s| ==> !f(s[i])
  {
    if s == [] then None else if f(s[0]) then Some(s[0]) else Find(s[1..], f)
  }

  /** What `find` returns is the element at the first index satisfying `f`. */
  lemma {:induction false} FindIsFirst<T>(s: seq<T>, f: T -> bool)
    requires exists i :: 0 <= i < |s| && f(s[i])
    ensures exists k :: 0 <= k < |s| && Find(s, f) == Some(s[k]) && f(s[k]) && forall i :: 0 <= i < k ==> !f(s[i])
    decreases |s|
  {
    if !f(s[0]) {
      var i :| 0 <= i < |s| && f(s[i]);
      assert s[1..][i - 1] == s[i];
      FindIsFirst(s[1..], f);
      var k :| 0 <= k < |s[1..]| && Find(s[1..], f) == Some(s[1..][k]) && f(s[1..][k])
               && forall i :: 0 <= i < k ==> !f(s[1..][i]);
      assert s[k + 1] == s[1..][k];
      forall i | 0 <= i < k + 1
        ensures !f(s[i])
      {
        if i > 0 {
          assert s[i] == s[1..][i - 1];
        }
      }
    } else {
      assert Find(s, f) == Some(s[0]);
    }
  }

  /** An element at an index that satisfies `f` and has no satisfying element before it is what `find` returns. */
  lemma {:induction false} FindAt<T>(s: seq<T>, f: T -> bool, i: nat)
    requires i < |s| && f(s[i]) && forall j :: 0 <= j < i ==> !f(s[j])
    ensures Find(s, f) == Some(s[i])
    decreases i
  {
    if i > 0 {
      assert !f(s[0]);
      forall j | 0 <= j < i - 1
        ensures !f(s[1..][j])
      {
        assert s[1..][j] == s[j + 1];
      }
      FindAt(s[1..], f, i - 1);
    }
  }

  predicate Distinct<T(==)>(s: seq<T>)
  {
    forall i, j :: 0 <= i < j < |s| ==> s[i] != s[j]
  }

  /** `new Set(xs)` as a mathematical set. */
  function Elements<T(!new)>(s: seq<T>): (r: set<T>)
    ensures forall x :: x in r <==> x in s
  {
    set x | x in s
  }

  /** `[...new Set(xs)]`: the distinct elements, each at its first occurrence. */
  function Unique<T(==,!new)>(s: seq<T>): (r: seq<T>)
    ensures Distinct(r)
    ensures forall x :: x in r <==> x in s
  {
    UniqueFrom(s, [])
  }

  function UniqueFrom<T(==,!new)>(s: seq<T>, acc: seq<T>): (r: seq<T>)
    requires Distinct(acc)
    ensures Distinct(r)
    ensures forall x :: x in r <==> x in s || x in acc
    ensures |acc| <= |r| && r[..|acc|] == acc
    decreases |s|
  {
    if s == [] then acc
    else if s[0] in acc then UniqueFrom(s[1..], acc)
    else UniqueFrom(s[1..], acc + [s[0]])
  }
}

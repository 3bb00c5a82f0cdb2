/**
 * An insertion sort parameterised by a "less than or equal" test. It stands
 * for the JavaScript `Array.prototype.sort` as the source calls it with a
 * comparator (`normalizeTiers`, the report sort). The result is ordered and a
 * permutation of the input, and a list already in order comes back unchanged.
 */
module Sorting {

  /** Every two elements of `s` are ordered by `le` one way or the other. */
  ghost predicate TotalOn<T>(le: (T, T) -> bool, s: seq<T>)
  {
    forall i, j :: 0 <= i < |s| && 0 <= j < |s| ==> le(s[i], s[j]) || le(s[j], s[i])
  }

  /** `le` is transitive on the elements of `s`. */
  ghost predicate TransitiveOn<T>(le: (T, T) -> bool, s: seq<T>)
  {
    forall i, j, k :: 0 <= i < |s| && 0 <= j < |s| && 0 <= k < |s| && le(s[i], s[j]) && le(s[j], s[k]) ==> le(s[i], s[k])
  }

  /** `le` is a total preorder on the elements of `s`. */
  ghost predicate PreorderOn<T>(le: (T, T) -> bool, s: seq<T>)
  {
    TotalOn(le, s) && TransitiveOn(le, s)
  }

  /** Each element is `le` every later one. */
  predicate Sorted<T>(s: seq<T>, le: (T, T) -> bool)
  {
    forall i, j :: 0 <= i < j < |s| ==> le(s[i], s[j])
  }

  /** Puts `x` in front of the first element it is `le`, so after every element it is not. */
  function Insert<T>(x: T, s: seq<T>, le: (T, T) -> bool): (r: seq<T>)
    ensures |r| == |s| + 1
    ensures multiset(r) == multiset(s) + multiset{x}
  {
    if s == [] then [x]
    else if le(x, s[0]) then [x] + s
    else
      assert s == [s[0]] + s[1..];
      [s[0]] + Insert(x, s[1..], le)
  }

  /** Sorts `s` by `le`: the result holds the same elements as `s`. */
  function Sort<T>(s: seq<T>, le: (T, T) -> bool): (r: seq<T>)
    ensures |r| == |s|
    ensures multiset(r) == multiset(s)
  {
    if s == [] then []
    else
      assert s == [s[0]] + s[1..];
      Insert(s[0], Sort(s[1..], le), le)
  }

  lemma {:induction false} PreorderOnSubset<T>(le: (T, T) -> bool, s: seq<T>, t: seq<T>)
    requires PreorderOn(le, s)
    requires multiset(t) <= multiset(s)
    ensures PreorderOn(le, t)
  {
    forall i, j | 0 <= i < |t| && 0 <= j < |t|
      ensures le(t[i], t[j]) || le(t[j], t[i])
    {
      assert t[i] in multiset(s) && t[j] in multiset(s);
    }
    forall i, j, k | 0 <= i < |t| && 0 <= j < |t| && 0 <= k < |t| && le(t[i], t[j]) && le(t[j], t[k])
      ensures le(t[i], t[k])
    {
      assert t[i] in multiset(s) && t[j] in multiset(s) && t[k] in multiset(s);
      var a, b, c :| 0 <= a < |s| && 0 <= b < |s| && 0 <= c < |s| && s[a] == t[i] && s[b] == t[j] && s[c] == t[k];
    }
  }

  /** An element `le` every element of a sorted sequence can go in front of it. */
  lemma SortedCons<T>(y: T, t: seq<T>, le: (T, T) -> bool)
    requires Sorted(t, le)
    requires forall j :: 0 <= j < |t| ==> le(y, t[j])
    ensures Sorted([y] + t, le)
  {
    var yt := [y] + t;
    forall i, j | 0 <= i < j < |yt| ensures le(yt[i], yt[j]) {
      assert yt[j] == t[j - 1];
      if i > 0 {
        assert yt[i] == t[i - 1];
      }
    }
  }

  lemma {:induction false} InsertSorted<T>(x: T, s: seq<T>, le: (T, T) -> bool)
    requires Sorted(s, le)
    requires PreorderOn(le, [x] + s)
    ensures Sorted(Insert(x, s, le), le)
  {
    var xs := [x] + s;
    if s == [] {
    } else if le(x, s[0]) {
      forall j | 0 <= j < |s| ensures le(x, s[j]) {
        if j > 0 {
          assert le(s[0], s[j]);
          assert xs[0] == x && xs[1] == s[0] && xs[j + 1] == s[j];
        }
      }
      SortedCons(x, s, le);
    } else {
      assert xs[0] == x && xs[1] == s[0];
      assert le(s[0], x);
      assert multiset([x] + s[1..]) <= multiset(xs) by {
        assert xs == [x, s[0]] + s[1..];
      }
      PreorderOnSubset(le, xs, [x] + s[1..]);
      InsertSorted(x, s[1..], le);
      var tail := Insert(x, s[1..], le);
      forall j | 0 <= j < |tail| ensures le(s[0], tail[j]) {
        assert tail[j] in multiset(tail);
        if tail[j] != x {
          assert tail[j] in multiset(s[1..]);
          var k :| 0 <= k < |s[1..]| && s[1..][k] == tail[j];
          assert s[k + 1] == tail[j];
        }
      }
      SortedCons(s[0], tail, le);
    }
  }

  /** The result of `Sort` is sorted whenever `le` is a total preorder on the input. */
  lemma {:induction false} SortSorted<T>(s: seq<T>, le: (T, T) -> bool)
    requires PreorderOn(le, s)
    ensures Sorted(Sort(s, le), le)
  {
    if s != [] {
      assert s == [s[0]] + s[1..];
      PreorderOnSubset(le, s, s[1..]);
      SortSorted(s[1..], le);
      var rest := Sort(s[1..], le);
      assert multiset([s[0]] + rest) == multiset(s) by {
        assert s == [s[0]] + s[1..];
      }
      PreorderOnSubset(le, s, [s[0]] + rest);
      InsertSorted(s[0], rest, le);
    }
  }

  /** Sorting an already sorted sequence returns it unchanged. */
  lemma {:induction false} SortOfSorted<T>(s: seq<T>, le: (T, T) -> bool)
    requires Sorted(s, le)
    ensures Sort(s, le) == s
  {
    if s != [] {
      SortOfSorted(s[1..], le);
      if |s| > 1 {
        assert le(s[0], s[1]);
      }
      assert [s[0]] + s[1..] == s;
    }
  }

  /** Sorting twice is sorting once. */
  lemma {:induction false} SortIdempotent<T>(s: seq<T>, le: (T, T) -> bool)
    requires PreorderOn(le, s)
    ensures Sort(Sort(s, le), le) == Sort(s, le)
  {
    SortSorted(s, le);
    SortOfSorted(Sort(s, le), le);
  }
}

/**
 * The stable sort used by `sort_by_key`: a specification function (insertion
 * sort that places each element after every element it is not smaller than)
 * and an in-place array method proved to produce exactly that sequence.
 */
module Sorting {

  /** `le` orders `s`: every earlier element is `le` every later one. */
  predicate SortedBy<T>(s: seq<T>, le: (T, T) -> bool)
  {
    forall i, j :: 0 <= i < j < |s| ==> le(s[i], s[j])
  }

  /** `le` is total and transitive: a key comparison `key(a) <= key(b)` is one. */
  ghost predicate TotalPreorder<T(!new)>(le: (T, T) -> bool)
  {
    && (forall a, b :: le(a, b) || le(b, a))
    && (forall a, b, c :: le(a, b) && le(b, c) ==> le(a, c))
  }

  /** Inserts `x` into `p`, after the last element that is `le` it. */
  function Insert<T>(p: seq<T>, x: T, le: (T, T) -> bool): (r: seq<T>)
    ensures |r| == |p| + 1
    decreases |p|
  {
    if |p| == 0 || le(p[|p| - 1], x) then p + [x]
    else Insert(p[..|p| - 1], x, le) + [p[|p| - 1]]
  }

  /** Stable sort of `s` by `le`. */
  function SortBy<T>(s: seq<T>, le: (T, T) -> bool): (r: seq<T>)
    ensures |r| == |s|
    decreases |s|
  {
    if |s| == 0 then [] else Insert(SortBy(s[..|s| - 1], le), s[|s| - 1], le)
  }

  lemma {:induction false} InsertPermutes<T>(p: seq<T>, x: T, le: (T, T) -> bool)
    ensures multiset(Insert(p, x, le)) == multiset(p) + multiset{x}
    decreases |p|
  {
    if |p| == 0 || le(p[|p| - 1], x) {
    } else {
      var q := p[..|p| - 1];
      InsertPermutes(q, x, le);
      assert p == q + [p[|p| - 1]];
    }
  }

  /** The sort only reorders: the result is a permutation of the input. */
  lemma {:induction false} SortByPermutes<T>(s: seq<T>, le: (T, T) -> bool)
    ensures multiset(SortBy(s, le)) == multiset(s)
    decreases |s|
  {
    if |s| > 0 {
      var q := s[..|s| - 1];
      SortByPermutes(q, le);
      InsertPermutes(SortBy(q, le), s[|s| - 1], le);
      assert s == q + [s[|s| - 1]];
    }
  }

  lemma {:induction false} InsertKeepsSorted<T(!new)>(p: seq<T>, x: T, le: (T, T) -> bool)
    requires TotalPreorder(le)
    requires SortedBy(p, le)
    ensures SortedBy(Insert(p, x, le), le)
    decreases |p|
  {
    if |p| == 0 || le(p[|p| - 1], x) {
      var r := p + [x];
      forall i, j | 0 <= i < j < |r| ensures le(r[i], r[j]) {
        if j == |p| && i < |p| - 1 {
          assert le(p[i], p[|p| - 1]);
        }
      }
    } else {
      var q := p[..|p| - 1];
      var last := p[|p| - 1];
      InsertKeepsSorted(q, x, le);
      InsertPermutes(q, x, le);
      var ins := Insert(q, x, le);
      var r := ins + [last];
      assert le(x, last);
      forall i, j | 0 <= i < j < |r| ensures le(r[i], r[j]) {
        if j == |r| - 1 {
          assert r[i] in multiset(ins);
          assert r[i] == x || r[i] in multiset(q);
          if r[i] != x {
            var k :| 0 <= k < |q| && q[k] == r[i];
            assert le(p[k], p[|p| - 1]);
          }
        }
      }
    }
  }

  /** The sort's result is ordered by `le`. */
  lemma {:induction false} SortBySorted<T(!new)>(s: seq<T>, le: (T, T) -> bool)
    requires TotalPreorder(le)
    ensures SortedBy(SortBy(s, le), le)
    decreases |s|
  {
    if |s| > 0 {
      SortBySorted(s[..|s| - 1], le);
      InsertKeepsSorted(SortBy(s[..|s| - 1], le), s[|s| - 1], le);
    }
  }

  /** Inserting `x` lands it at the first position `j` after which nothing is `le` it. */
  lemma {:induction false} InsertAt<T>(p: seq<T>, x: T, le: (T, T) -> bool, j: nat)
    requires j <= |p|
    requires j == 0 || le(p[j - 1], x)
    requires forall k :: j <= k < |p| ==> !le(p[k], x)
    ensures Insert(p, x, le) == p[..j] + [x] + p[j..]
    decreases |p|
  {
    if j < |p| {
      var q := p[..|p| - 1];
      InsertAt(q, x, le, j);
      assert q[..j] == p[..j];
      assert q[j..] + [p[|p| - 1]] == p[j..];
    }
  }

  /** One insertion-sort step: moves `a[i]` left into the sorted prefix `a[..i]`. */
  method InsertStep<T>(a: array<T>, i: nat, le: (T, T) -> bool)
    requires i < a.Length
    modifies a
    ensures a[..i + 1] == Insert(old(a[..i]), old(a[i]), le)
    ensures a[i + 1..] == old(a[i + 1..])
  {
    ghost var prefix := a[..i];
    ghost var rest := a[i + 1..];
    var x := a[i];
    var j := i;
    while j > 0 && !le(a[j - 1], x)
      invariant 0 <= j <= i
      invariant a[..j] == prefix[..j]
      invariant a[j + 1..i + 1] == prefix[j..i]
      invariant a[i + 1..] == rest
      invariant forall k :: j <= k < i ==> !le(prefix[k], x)
    {
      a[j] := a[j - 1];
      j := j - 1;
    }
    a[j] := x;
    InsertAt(prefix, x, le, j);
    assert a[..i + 1] == a[..j] + [x] + a[j + 1..i + 1];
  }

  /**
   * `slice::sort_by_key`: sorts the array in place, stably, by `le`.
   * The result is exactly `SortBy` of the old contents.
   */
  method SortInPlace<T>(a: array<T>, le: (T, T) -> bool)
    modifies a
    ensures a[..] == SortBy(old(a[..]), le)
  {
    ghost var input := a[..];
    var i := 0;
    while i < a.Length
      invariant 0 <= i <= a.Length
      invariant a[..i] == SortBy(input[..i], le)
      invariant a[i..] == input[i..]
    {
      InsertStep(a, i, le);
      assert input[..i + 1][..i] == input[..i];
      i := i + 1;
    }
    assert input[..a.Length] == input;
  }
}

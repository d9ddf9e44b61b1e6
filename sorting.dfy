/** The reordering routines the load balancer and the matchmaker call
    (`QuickSort`, `WeightedQuickSort` and `SingleSort` of core/lib/algorithm).
    Their bodies are not part of this model: they are stood in for by an
    insertion sort and by a one-element insertion, and only what a caller
    relies on is claimed about them: they permute their input, and they order
    it by the comparator they are given when that comparator is a total
    preorder. */
module Sorting {

  /** `le` is reflexive-total and transitive: a comparator a sort can obey. */
  ghost predicate TotalPreorder<T(!new)>(le: (T, T) -> bool) {
    && (forall a, b :: le(a, b) || le(b, a))
    && (forall a, b, c :: le(a, b) && le(b, c) ==> le(a, c))
  }

  /** `le` is a total preorder on the elements of `s`. */
  ghost predicate TotalPreorderOn<T>(s: seq<T>, le: (T, T) -> bool) {
    && (forall a, b :: a in s && b in s ==> le(a, b) || le(b, a))
    && (forall a, b, c :: a in s && b in s && c in s && le(a, b) && le(b, c) ==> le(a, c))
  }

  /** Every element is `le` every later element. */
  ghost predicate Sorted<T>(s: seq<T>, le: (T, T) -> bool) {
    forall i, j :: 0 <= i < j < |s| ==> le(s[i], s[j])
  }

  /** Puts `x` in front of the first element of `s` it is `le` to. */
  function Insert<T>(x: T, s: seq<T>, le: (T, T) -> bool): (r: seq<T>)
    ensures |r| == |s| + 1
  {
    if s == [] then [x]
    else if le(x, s[0]) then [x] + s
    else [s[0]] + Insert(x, s[1..], le)
  }

  /** A full sort: insert every element into the sorted rest. */
  function SortBy<T>(s: seq<T>, le: (T, T) -> bool): (r: seq<T>)
    ensures |r| == |s|
  {
    if s == [] then [] else Insert(s[0], SortBy(s[1..], le), le)
  }

  /** Re-sorts only the element at position `i` relative to the others, which
      keep their order; an index outside the sequence changes nothing. */
  function SingleSort<T>(s: seq<T>, i: int, le: (T, T) -> bool): (r: seq<T>)
    ensures |r| == |s|
  {
    if 0 <= i < |s| then Insert(s[i], s[..i] + s[i + 1..], le) else s
  }

  lemma {:induction false} InsertPermutes<T>(x: T, s: seq<T>, le: (T, T) -> bool)
    ensures multiset(Insert(x, s, le)) == multiset(s) + multiset{x}
  {
    if s != [] && !le(x, s[0]) {
      InsertPermutes(x, s[1..], le);
      assert s == [s[0]] + s[1..];
    }
  }

  /** An insertion puts `x` at one position and leaves the old elements in
      their order around it. */
  lemma {:induction false} InsertSplits<T>(x: T, s: seq<T>, le: (T, T) -> bool)
    ensures exists k :: 0 <= k <= |s| && Insert(x, s, le) == s[..k] + [x] + s[k..]
  {
    if s == [] || le(x, s[0]) {
      assert Insert(x, s, le) == s[..0] + [x] + s[0..];
    } else {
      InsertSplits(x, s[1..], le);
      var k :| 0 <= k <= |s[1..]| && Insert(x, s[1..], le) == s[1..][..k] + [x] + s[1..][k..];
      assert [s[0]] + s[1..][..k] == s[..k + 1];
      assert s[1..][k..] == s[k + 1..];
      assert Insert(x, s, le) == s[..k + 1] + [x] + s[k + 1..];
    }
  }

  /** Every element of an insertion is the inserted one or an old one. */
  lemma InsertElements<T>(x: T, s: seq<T>, le: (T, T) -> bool)
    ensures forall y :: y in Insert(x, s, le) ==> y == x || y in s
  {
    InsertPermutes(x, s, le);
    forall y | y in Insert(x, s, le) ensures y == x || y in s {
      assert y in multiset(Insert(x, s, le));
    }
  }

  /** A sorted sequence stays sorted under a head that is `le` all of it. */
  lemma HeadBeforeAll<T>(h: T, s: seq<T>, le: (T, T) -> bool)
    requires Sorted(s, le) && forall y :: y in s ==> le(h, y)
    ensures Sorted([h] + s, le)
  {
    var r := [h] + s;
    forall i, j | 0 <= i < j < |r| ensures le(r[i], r[j]) {
      if i == 0 {
        assert r[j] == s[j - 1];
      } else {
        assert r[i] == s[i - 1] && r[j] == s[j - 1];
      }
    }
  }

  lemma {:induction false} InsertKeepsSorted<T>(x: T, s: seq<T>, le: (T, T) -> bool)
    requires TotalPreorderOn([x] + s, le) && Sorted(s, le)
    ensures Sorted(Insert(x, s, le), le)
  {
    if s == [] {
    } else if le(x, s[0]) {
      forall y | y in s ensures le(x, y) {
        var k :| 0 <= k < |s| && s[k] == y;
        if k > 0 {
          assert le(s[0], s[k]);
          assert x in [x] + s && s[0] in [x] + s && y in [x] + s;
        }
      }
      HeadBeforeAll(x, s, le);
    } else {
      var rest := Insert(x, s[1..], le);
      assert forall a :: a in [x] + s[1..] ==> a in [x] + s;
      InsertKeepsSorted(x, s[1..], le);
      InsertElements(x, s[1..], le);
      assert s[0] in [x] + s && x in [x] + s;
      forall y | y in rest ensures le(s[0], y) {
        if y != x {
          var k :| 0 <= k < |s[1..]| && s[1..][k] == y;
          assert s[k + 1] == y;
        }
      }
      HeadBeforeAll(s[0], rest, le);
    }
  }

  /** The full sort returns a permutation of its input. */
  lemma {:induction false} SortByPermutes<T>(s: seq<T>, le: (T, T) -> bool)
    ensures multiset(SortBy(s, le)) == multiset(s)
  {
    if s != [] {
      SortByPermutes(s[1..], le);
      InsertPermutes(s[0], SortBy(s[1..], le), le);
      assert s == [s[0]] + s[1..];
    }
  }

  /** The full sort orders its input by any total preorder. */
  lemma {:induction false} SortBySorts<T>(s: seq<T>, le: (T, T) -> bool)
    requires TotalPreorderOn(s, le)
    ensures Sorted(SortBy(s, le), le)
  {
    if s != [] {
      assert forall a :: a in s[1..] ==> a in s;
      SortBySorts(s[1..], le);
      SortByPermutes(s[1..], le);
      forall a | a in [s[0]] + SortBy(s[1..], le) ensures a in s {
        if a != s[0] {
          assert a in multiset(SortBy(s[1..], le));
        }
      }
      InsertKeepsSorted(s[0], SortBy(s[1..], le), le);
    }
  }

  /** Single-element re-sorting returns a permutation of its input. */
  lemma SingleSortPermutes<T>(s: seq<T>, i: int, le: (T, T) -> bool)
    ensures multiset(SingleSort(s, i, le)) == multiset(s)
  {
    if 0 <= i < |s| {
      InsertPermutes(s[i], s[..i] + s[i + 1..], le);
      assert s == s[..i] + [s[i]] + s[i + 1..];
    }
  }

  /** When everything but the element at `i` is already in order, re-sorting
      that one element orders the whole sequence. */
  lemma SingleSortSorts<T>(s: seq<T>, i: int, le: (T, T) -> bool)
    requires TotalPreorderOn(s, le)
    requires 0 <= i < |s| && Sorted(s[..i] + s[i + 1..], le)
    ensures Sorted(SingleSort(s, i, le), le)
  {
    forall a | a in [s[i]] + (s[..i] + s[i + 1..]) ensures a in s {
      if a != s[i] {
        if a in s[..i] {
          var k :| 0 <= k < i && s[..i][k] == a;
          assert s[k] == a;
        } else {
          assert a in s[i + 1..];
          var k :| 0 <= k < |s| - i - 1 && s[i + 1..][k] == a;
          assert s[i + 1 + k] == a;
        }
      }
    }
    InsertKeepsSorted(s[i], s[..i] + s[i + 1..], le);
  }
}

/**
 * The two array operations the pages use on their state lists: `Array.prototype.filter`
 * and the stable `Array.prototype.sort` with a comparator.
 */
module Seqs {

  /** `r` can be obtained from `s` by deleting elements: its order is that of `s`. */
  ghost predicate IsSubsequence<T>(r: seq<T>, s: seq<T>)
    decreases |s|
  {
    if r == [] then true
    else if s == [] then false
    else (r[0] == s[0] && IsSubsequence(r[1..], s[1..])) || IsSubsequence(r, s[1..])
  }

  /**
   * `s.filter(keep)`: the elements of `s` that satisfy `keep`, in their order,
   * each with its full multiplicity, and nothing else.
   */
  function Filter<T(!new)>(s: seq<T>, keep: T -> bool): (r: seq<T>)
    ensures forall i :: 0 <= i < |r| ==> keep(r[i])
    ensures forall x :: multiset(r)[x] == if keep(x) then multiset(s)[x] else 0
    ensures IsSubsequence(r, s)
  {
    if s == [] then []
    else
      var rest := Filter(s[1..], keep);
      assert s == [s[0]] + s[1..];
      if keep(s[0]) then [s[0]] + rest else rest
  }

  /** Filtering with a test every element passes returns the list unchanged. */
  lemma {:induction false} FilterKeepsAll<T(!new)>(s: seq<T>, keep: T -> bool)
    requires forall i :: 0 <= i < |s| ==> keep(s[i])
    ensures Filter(s, keep) == s
  {
    if s != [] {
      FilterKeepsAll(s[1..], keep);
    }
  }

  /** Filtering with a test no element passes returns the empty list. */
  lemma {:induction false} FilterKeepsNone<T(!new)>(s: seq<T>, keep: T -> bool)
    requires forall i :: 0 <= i < |s| ==> !keep(s[i])
    ensures Filter(s, keep) == []
  {
    if s != [] {
      FilterKeepsNone(s[1..], keep);
    }
  }

  /** `le` as a comparator's "a may come before b" is total and transitive. */
  ghost predicate TotalPreorder<T(!new)>(le: (T, T) -> bool) {
    && (forall a, b :: le(a, b) || le(b, a))
    && (forall a, b, c :: le(a, b) && le(b, c) ==> le(a, c))
  }

  /** Every element may come before every later one. */
  ghost predicate SortedBy<T>(s: seq<T>, le: (T, T) -> bool) {
    forall i, j :: 0 <= i < j < |s| ==> le(s[i], s[j])
  }

  /** Inserts `x` in front of the first element it may come before. */
  function Insert<T>(x: T, s: seq<T>, le: (T, T) -> bool): (r: seq<T>)
    ensures multiset(r) == multiset(s) + multiset{x}
  {
    if s == [] then [x]
    else if le(x, s[0]) then [x] + s
    else
      assert s == [s[0]] + s[1..];
      [s[0]] + Insert(x, s[1..], le)
  }

  /**
   * A stable sort by the comparator test `le` (insertion sort): an element is placed
   * before every later element it may come before, so ties keep their input order,
   * as `Array.prototype.sort` does.
   */
  function SortBy<T>(s: seq<T>, le: (T, T) -> bool): (r: seq<T>)
    ensures multiset(r) == multiset(s)
  {
    if s == [] then []
    else
      assert s == [s[0]] + s[1..];
      Insert(s[0], SortBy(s[1..], le), le)
  }

  /** Inserting into a sorted list keeps it sorted. */
  lemma {:induction false} InsertSorted<T(!new)>(x: T, s: seq<T>, le: (T, T) -> bool)
    requires TotalPreorder(le)
    requires SortedBy(s, le)
    ensures SortedBy(Insert(x, s, le), le)
  {
    if s != [] && !le(x, s[0]) {
      InsertSorted(x, s[1..], le);
      var r := Insert(x, s, le);
      var t := Insert(x, s[1..], le);
      assert le(s[0], x);
      forall j | 1 <= j < |r| ensures le(r[0], r[j]) {
        assert r[j] == t[j - 1];
        assert r[j] in multiset(t);
        assert r[j] == x || r[j] in multiset(s[1..]);
        if r[j] != x {
          var k :| 0 <= k < |s[1..]| && s[1..][k] == r[j];
          assert s[k + 1] == r[j];
        }
      }
    }
  }

  /** The sort's result is ordered by `le` whenever `le` is a total preorder. */
  lemma {:induction false} SortBySorted<T(!new)>(s: seq<T>, le: (T, T) -> bool)
    requires TotalPreorder(le)
    ensures SortedBy(SortBy(s, le), le)
  {
    if s != [] {
      SortBySorted(s[1..], le);
      InsertSorted(s[0], SortBy(s[1..], le), le);
    }
  }

  /** A comparator that calls every pair a tie leaves the order as it was. */
  lemma {:induction false} SortByAllTiesIsIdentity<T>(s: seq<T>, le: (T, T) -> bool)
    requires forall a, b :: le(a, b)
    ensures SortBy(s, le) == s
  {
    if s != [] {
      SortByAllTiesIsIdentity(s[1..], le);
      assert s == [s[0]] + s[1..];
    }
  }

  /** The test "tied with `c`": `c` may come before it and it may come before `c`. */
  function Tied<T>(le: (T, T) -> bool, c: T): T -> bool {
    z => le(z, c) && le(c, z)
  }

  /** Filtering a list with a given head: the head if it passes, then the filtered tail. */
  lemma FilterCons<T(!new)>(x: T, s: seq<T>, keep: T -> bool)
    ensures Filter([x] + s, keep) == (if keep(x) then [x] else []) + Filter(s, keep)
  {
    assert ([x] + s)[0] == x && ([x] + s)[1..] == s;
  }

  /**
   * For a class `p` of elements that may all come before one another, inserting `x` adds `x`
   * in front of the class exactly when it belongs to it: no member of the class is passed over.
   */
  lemma {:induction false} InsertKeepsClassOrder<T(!new)>(x: T, s: seq<T>, le: (T, T) -> bool, p: T -> bool)
    requires forall a, b :: p(a) && p(b) ==> le(a, b)
    ensures Filter(Insert(x, s, le), p) == (if p(x) then [x] else []) + Filter(s, p)
  {
    if s == [] {
      FilterCons(x, [], p);
      assert [x] + [] == [x];
    } else if le(x, s[0]) {
      FilterCons(x, s, p);
    } else {
      var t := s[1..];
      InsertKeepsClassOrder(x, t, le, p);
      assert Insert(x, s, le) == [s[0]] + Insert(x, t, le);
      assert s == [s[0]] + t;
      FilterPassesOver(x, s[0], Insert(x, t, le), t, p);
    }
  }

  /**
   * Putting `y` in front of two lists whose filtered forms differ only by a leading `x`
   * keeps that difference, when `x` and `y` do not both pass.
   */
  lemma FilterPassesOver<T(!new)>(x: T, y: T, u: seq<T>, t: seq<T>, p: T -> bool)
    requires !(p(x) && p(y))
    requires Filter(u, p) == (if p(x) then [x] else []) + Filter(t, p)
    ensures Filter([y] + u, p) == (if p(x) then [x] else []) + Filter([y] + t, p)
  {
    FilterCons(y, u, p);
    FilterCons(y, t, p);
    if !p(x) {
      assert [] + Filter(t, p) == Filter(t, p);
    }
  }

  /** Under a total preorder, the elements tied with `c` may all come before one another. */
  lemma TiedIsClass<T(!new)>(le: (T, T) -> bool, c: T)
    requires TotalPreorder(le)
    ensures forall a, b :: Tied(le, c)(a) && Tied(le, c)(b) ==> le(a, b)
  {
    forall a, b | Tied(le, c)(a) && Tied(le, c)(b)
      ensures le(a, b)
    {
      assert le(a, c) && le(c, b);
    }
  }

  /**
   * The sort is stable: the elements tied with any `c` appear in the result in exactly the
   * order (and number) they had in the input.
   */
  lemma {:induction false} SortByStable<T(!new)>(s: seq<T>, le: (T, T) -> bool, c: T)
    requires TotalPreorder(le)
    ensures Filter(SortBy(s, le), Tied(le, c)) == Filter(s, Tied(le, c))
  {
    if s != [] {
      SortByStable(s[1..], le, c);
      TiedIsClass(le, c);
      InsertKeepsClassOrder(s[0], SortBy(s[1..], le), le, Tied(le, c));
      assert s == [s[0]] + s[1..];
    }
  }
}

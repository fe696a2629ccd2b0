/**
 * Newest-first ordering by an integer date key: the order of MongoDB's
 * `.sort({ date: -1 })` and of `Array.prototype.sort` with the comparator
 * `(a, b) => date(b) - date(a)`. The contracts state order and permutation;
 * the order among equal dates is not stated.
 */
module Sorting {

  ghost predicate NewestFirst<T>(s: seq<T>, date: T -> int) {
    forall i, j :: 0 <= i < j < |s| ==> date(s[i]) >= date(s[j])
  }

  /** An element not older than everything in a newest-first sequence may lead it. */
  lemma Prepend<T>(h: T, r: seq<T>, date: T -> int)
    requires NewestFirst(r, date)
    requires forall k :: 0 <= k < |r| ==> date(r[k]) <= date(h)
    ensures NewestFirst([h] + r, date)
  {
    forall i, j | 0 <= i < j < |[h] + r| ensures date(([h] + r)[i]) >= date(([h] + r)[j]) {
      if i > 0 {
        assert ([h] + r)[i] == r[i - 1];
      }
      assert ([h] + r)[j] == r[j - 1];
    }
  }

  /** Inserts `x` before the first element that is not newer than it. */
  function Insert<T(==)>(x: T, s: seq<T>, date: T -> int): (r: seq<T>)
    requires NewestFirst(s, date)
    ensures NewestFirst(r, date)
    ensures multiset(r) == multiset(s) + multiset{x}
  {
    if s == [] || date(s[0]) <= date(x) then
      Prepend(x, s, date);
      [x] + s
    else
      var rest := Insert(x, s[1..], date);
      assert s == [s[0]] + s[1..];
      assert forall k :: 0 <= k < |rest| ==> date(rest[k]) <= date(s[0]) by {
        forall k | 0 <= k < |rest| ensures date(rest[k]) <= date(s[0]) {
          assert rest[k] in multiset(rest);
          if rest[k] != x {
            assert rest[k] in multiset(s[1..]);
            var m :| 0 <= m < |s[1..]| && s[1..][m] == rest[k];
            assert s[1..][m] == s[m + 1];
          }
        }
      }
      Prepend(s[0], rest, date);
      [s[0]] + rest
  }

  /** A sorted copy of `s`: newest first and a permutation of `s`. */
  function SortNewestFirst<T(==)>(s: seq<T>, date: T -> int): (r: seq<T>)
    ensures NewestFirst(r, date)
    ensures multiset(r) == multiset(s)
    ensures |r| == |s|
  {
    if s == [] then []
    else
      assert s == [s[0]] + s[1..];
      Insert(s[0], SortNewestFirst(s[1..], date), date)
  }
}

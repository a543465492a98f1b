/** Stable sorting by a key, as the specification of the library sorts used by the program. */
module Sorting {

  /** Inserts `x` before the elements with the same key, as the last step of a stable sort
      that works from the right. */
  function Insert<T>(key: T -> real, x: T, s: seq<T>): seq<T>
  {
    if s == [] || key(x) <= key(s[0]) then [x] + s
    else [s[0]] + Insert(key, x, s[1..])
  }

  function SortBy<T>(key: T -> real, s: seq<T>): seq<T>
  {
    if s == [] then [] else Insert(key, s[0], SortBy(key, s[1..]))
  }

  ghost predicate SortedBy<T>(key: T -> real, s: seq<T>)
  {
    forall i, j | 0 <= i < j < |s| :: key(s[i]) <= key(s[j])
  }

  lemma {:induction false} InsertKeepsElements<T>(key: T -> real, x: T, s: seq<T>)
    ensures multiset(Insert(key, x, s)) == multiset(s) + multiset{x}
  {
    if s != [] {
      InsertKeepsElements(key, x, s[1..]);
      assert s == [s[0]] + s[1..];
    }
  }

  lemma {:induction false} InsertSorts<T>(key: T -> real, x: T, s: seq<T>)
    requires SortedBy(key, s)
    ensures SortedBy(key, Insert(key, x, s))
  {
    if s != [] && key(x) > key(s[0]) {
      InsertSorts(key, x, s[1..]);
      InsertKeepsElements(key, x, s[1..]);
      HeadIsLeast(key, s[0], Insert(key, x, s[1..]), multiset(s[1..]) + multiset{x});
    }
  }

  lemma HeadIsLeast<T>(key: T -> real, x: T, s: seq<T>, elements: multiset<T>)
    requires SortedBy(key, s) && multiset(s) == elements
    requires forall y | y in elements :: key(x) <= key(y)
    ensures SortedBy(key, [x] + s)
  {
    assert forall i | 0 <= i < |s| :: s[i] in elements;
  }

  /** The result is sorted and holds the same elements as often. */
  lemma {:induction false} SortBySorts<T>(key: T -> real, s: seq<T>)
    ensures SortedBy(key, SortBy(key, s))
    ensures multiset(SortBy(key, s)) == multiset(s)
  {
    if s != [] {
      SortBySorts(key, s[1..]);
      InsertSorts(key, s[0], SortBy(key, s[1..]));
      InsertKeepsElements(key, s[0], SortBy(key, s[1..]));
      assert s == [s[0]] + s[1..];
    }
  }
}

/** Array.prototype.sort: a stable sort by a comparator. */
module Sorting {

  /** x goes behind every element that does not come after it. */
  function Insert<T>(cmp: (T, T) -> int, s: seq<T>, x: T): seq<T> {
    if s == [] || cmp(s[|s| - 1], x) <= 0 then s + [x]
    else Insert(cmp, s[..|s| - 1], x) + [s[|s| - 1]]
  }

  function Sort<T>(cmp: (T, T) -> int, s: seq<T>): seq<T> {
    if s == [] then [] else Insert(cmp, Sort(cmp, s[..|s| - 1]), s[|s| - 1])
  }

  ghost predicate IsSorted<T>(cmp: (T, T) -> int, s: seq<T>) {
    forall i, j :: 0 <= i < j < |s| ==> cmp(s[i], s[j]) <= 0
  }

  /** The comparator is a total order on these elements, in which different elements may tie. */
  ghost predicate Orders<T>(cmp: (T, T) -> int, s: multiset<T>) {
    && (forall x, y :: x in s && y in s ==> cmp(x, y) <= 0 || cmp(y, x) <= 0)
    && (forall x, y, z :: x in s && y in s && z in s && cmp(x, y) <= 0 && cmp(y, z) <= 0 ==> cmp(x, z) <= 0)
  }

  /** A strict one: a tie means the same element. */
  ghost predicate StrictlyOrders<T>(cmp: (T, T) -> int, s: multiset<T>) {
    && Orders(cmp, s)
    && (forall x, y :: x in s && y in s && cmp(x, y) <= 0 && cmp(y, x) <= 0 ==> x == y)
  }

  lemma {:induction false} InsertKeeps<T>(cmp: (T, T) -> int, s: seq<T>, x: T)
    ensures multiset(Insert(cmp, s, x)) == multiset(s) + multiset{x}
  {
    if s != [] && cmp(s[|s| - 1], x) > 0 {
      InsertKeeps(cmp, s[..|s| - 1], x);
      assert s == s[..|s| - 1] + [s[|s| - 1]];
    }
  }

  lemma {:induction false} SortKeeps<T>(cmp: (T, T) -> int, s: seq<T>)
    ensures multiset(Sort(cmp, s)) == multiset(s)
    ensures |Sort(cmp, s)| == |s|
  {
    if s != [] {
      SortKeeps(cmp, s[..|s| - 1]);
      InsertKeeps(cmp, Sort(cmp, s[..|s| - 1]), s[|s| - 1]);
      assert s == s[..|s| - 1] + [s[|s| - 1]];
    }
    assert |multiset(Sort(cmp, s))| == |multiset(s)|;
  }

  // One instance of the order's laws at a time.
  lemma Either<T>(cmp: (T, T) -> int, all: multiset<T>, x: T, y: T)
    requires Orders(cmp, all) && x in all && y in all
    ensures cmp(x, y) <= 0 || cmp(y, x) <= 0
  {
  }

  lemma Ties<T>(cmp: (T, T) -> int, all: multiset<T>, x: T, y: T)
    requires StrictlyOrders(cmp, all) && x in all && y in all && cmp(x, y) <= 0 && cmp(y, x) <= 0
    ensures x == y
  {
  }

  lemma Through<T>(cmp: (T, T) -> int, all: multiset<T>, x: T, y: T, z: T)
    requires Orders(cmp, all) && x in all && y in all && z in all
    requires cmp(x, y) <= 0 && cmp(y, z) <= 0
    ensures cmp(x, z) <= 0
  {
  }

  lemma {:induction false} InsertSorts<T>(cmp: (T, T) -> int, s: seq<T>, x: T, all: multiset<T>)
    requires Orders(cmp, all) && IsSorted(cmp, s)
    requires x in all && forall y :: y in s ==> y in all
    ensures IsSorted(cmp, Insert(cmp, s, x))
  {
    hide Orders;
    var n := |s|;
    if s == [] {
    } else if cmp(s[n - 1], x) <= 0 {
      var last := s[n - 1];
      forall i | 0 <= i < n ensures cmp(s[i], x) <= 0 {
        if i < n - 1 {
          Through(cmp, all, s[i], last, x);
        }
      }
    } else {
      var last := s[n - 1];
      Either(cmp, all, last, x);
      InsertSorts(cmp, s[..n - 1], x, all);
      InsertKeeps(cmp, s[..n - 1], x);
      var r := Insert(cmp, s[..n - 1], x);
      forall i | 0 <= i < |r| ensures cmp(r[i], last) <= 0 {
        AllBelow(cmp, s[..n - 1], x, last, r, r[i]);
      }
    }
  }

  lemma AllBelow<T>(cmp: (T, T) -> int, s: seq<T>, x: T, last: T, r: seq<T>, y: T)
    requires multiset(r) == multiset(s) + multiset{x} && y in r
    requires cmp(x, last) <= 0 && forall i :: 0 <= i < |s| ==> cmp(s[i], last) <= 0
    ensures cmp(y, last) <= 0
  {
    assert y in multiset(r);
    if y != x {
      assert y in multiset(s);
    }
  }

  lemma {:induction false} SortSorts<T>(cmp: (T, T) -> int, s: seq<T>, all: multiset<T>)
    requires Orders(cmp, all) && forall y :: y in s ==> y in all
    ensures IsSorted(cmp, Sort(cmp, s))
  {
    if s != [] {
      SortSorts(cmp, s[..|s| - 1], all);
      SortKeeps(cmp, s[..|s| - 1]);
      forall y | y in Sort(cmp, s[..|s| - 1]) ensures y in all {
        assert y in multiset(s[..|s| - 1]);
      }
      InsertSorts(cmp, Sort(cmp, s[..|s| - 1]), s[|s| - 1], all);
    }
  }

  lemma LastIsGreatest<T>(cmp: (T, T) -> int, s: seq<T>, x: T)
    requires IsSorted(cmp, s) && x in s
    ensures x == s[|s| - 1] || cmp(x, s[|s| - 1]) <= 0
  {
  }

  lemma WithoutLast<T>(s: seq<T>)
    requires s != []
    ensures multiset(s[..|s| - 1]) == multiset(s) - multiset{s[|s| - 1]}
  {
    assert s == s[..|s| - 1] + [s[|s| - 1]];
  }

  lemma {:induction false} SortedIsUnique<T>(cmp: (T, T) -> int, s: seq<T>, t: seq<T>, all: multiset<T>)
    requires StrictlyOrders(cmp, all) && forall y :: y in s ==> y in all
    requires multiset(s) == multiset(t) && IsSorted(cmp, s) && IsSorted(cmp, t)
    ensures s == t
  {
    hide StrictlyOrders;
    SameLength(s, t);
    if s != [] {
      SameLast(cmp, s, t, all);
      WithoutLast(s);
      WithoutLast(t);
      SortedIsUnique(cmp, s[..|s| - 1], t[..|t| - 1], all);
      FromInit(s, t);
    }
  }

  lemma FromInit<T>(s: seq<T>, t: seq<T>)
    requires |s| == |t| > 0 && s[..|s| - 1] == t[..|t| - 1] && s[|s| - 1] == t[|t| - 1]
    ensures s == t
  {
    assert s == s[..|s| - 1] + [s[|s| - 1]] && t == t[..|t| - 1] + [t[|t| - 1]];
  }

  lemma SameLength<T>(s: seq<T>, t: seq<T>)
    requires multiset(s) == multiset(t)
    ensures |s| == |t|
  {
    assert |multiset(s)| == |s| && |multiset(t)| == |t|;
  }

  lemma SameLast<T>(cmp: (T, T) -> int, s: seq<T>, t: seq<T>, all: multiset<T>)
    requires StrictlyOrders(cmp, all) && s != [] && t != [] && forall y :: y in s ==> y in all
    requires multiset(s) == multiset(t) && IsSorted(cmp, s) && IsSorted(cmp, t)
    ensures s[|s| - 1] == t[|t| - 1]
  {
    hide StrictlyOrders;
    var x, y := s[|s| - 1], t[|t| - 1];
    assert x in multiset(t) && y in multiset(s);
    LastIsGreatest(cmp, t, x);
    LastIsGreatest(cmp, s, y);
    if x != y {
      Ties(cmp, all, x, y);
    }
  }

  /** Where no two elements tie, the result does not depend on the order they came in. */
  lemma SortIsCanonical<T>(cmp: (T, T) -> int, s: seq<T>, t: seq<T>)
    requires multiset(s) == multiset(t) && StrictlyOrders(cmp, multiset(s))
    ensures Sort(cmp, s) == Sort(cmp, t)
  {
    SortKeeps(cmp, s);
    SortKeeps(cmp, t);
    forall y | y in t ensures y in multiset(s) {
      assert y in multiset(t);
    }
    SortSorts(cmp, s, multiset(s));
    SortSorts(cmp, t, multiset(s));
    forall y | y in Sort(cmp, s) ensures y in multiset(s) {
      assert y in multiset(Sort(cmp, s));
    }
    SortedIsUnique(cmp, Sort(cmp, s), Sort(cmp, t), multiset(s));
  }

  /** What is sorted stays as it is. */
  lemma {:induction false} SortOfSorted<T>(cmp: (T, T) -> int, s: seq<T>)
    requires IsSorted(cmp, s)
    ensures Sort(cmp, s) == s
  {
    if s != [] {
      SortOfSorted(cmp, s[..|s| - 1]);
      assert s == s[..|s| - 1] + [s[|s| - 1]];
    }
  }
}

/** Stable sorting by a comparator, as JavaScript's Array.prototype.sort does it. The one-element-at-a-time
    definition loses nothing: a stable sorted arrangement is unique. */
module StableSort {

  /** A comparator a sort can rely on: any two values compare consistently both ways round, and "not after" chains. */
  ghost predicate Consistent<T(!new)>(cmp: (T, T) -> int) {
    && (forall a, b :: cmp(a, b) < 0 <==> cmp(b, a) > 0)
    && (forall a, b, c :: cmp(a, b) <= 0 && cmp(b, c) <= 0 ==> cmp(a, c) <= 0)
  }

  ghost predicate Sorted<T>(cmp: (T, T) -> int, s: seq<T>) {
    forall i, j :: 0 <= i < j < |s| ==> cmp(s[i], s[j]) <= 0
  }

  function Insert<T>(cmp: (T, T) -> int, x: T, s: seq<T>): seq<T> {
    if s == [] then [x]
    else if cmp(x, s[0]) <= 0 then [x] + s
    else [s[0]] + Insert(cmp, x, s[1..])
  }

  function Sort<T>(cmp: (T, T) -> int, s: seq<T>): seq<T> {
    if s == [] then [] else Insert(cmp, s[0], Sort(cmp, s[1..]))
  }

  function Filter<T(!new)>(s: seq<T>, p: T -> bool): (r: seq<T>)
    ensures forall x :: x in r <==> x in s && p(x)
    ensures |r| <= |s|
  {
    if s == [] then [] else (if p(s[0]) then [s[0]] else []) + Filter(s[1..], p)
  }

  /** The elements of s that tie with x, in their order in s. */
  function Ties<T(!new)>(cmp: (T, T) -> int, x: T, s: seq<T>): (r: seq<T>)
    ensures forall y :: y in r <==> y in s && cmp(x, y) == 0
  {
    if s == [] then [] else (if cmp(x, s[0]) == 0 then [s[0]] else []) + Ties(cmp, x, s[1..])
  }

  ghost predicate SameTies<T(!new)>(cmp: (T, T) -> int, s: seq<T>, t: seq<T>) {
    forall x :: Ties(cmp, x, s) == Ties(cmp, x, t)
  }

  lemma {:induction false} InsertIsPermutation<T>(cmp: (T, T) -> int, x: T, s: seq<T>)
    ensures multiset(Insert(cmp, x, s)) == multiset{x} + multiset(s)
  {
    if s != [] && cmp(x, s[0]) > 0 {
      InsertIsPermutation(cmp, x, s[1..]);
      assert s == [s[0]] + s[1..];
    }
  }

  lemma {:induction false} SortIsPermutation<T>(cmp: (T, T) -> int, s: seq<T>)
    ensures multiset(Sort(cmp, s)) == multiset(s) && |Sort(cmp, s)| == |s|
  {
    if s != [] {
      SortIsPermutation(cmp, s[1..]);
      InsertIsPermutation(cmp, s[0], Sort(cmp, s[1..]));
      assert s == [s[0]] + s[1..];
    }
    assert |multiset(Sort(cmp, s))| == |multiset(s)|;
  }

  lemma SortedBehind<T>(cmp: (T, T) -> int, x: T, s: seq<T>)
    requires Sorted(cmp, s) && forall j :: 0 <= j < |s| ==> cmp(x, s[j]) <= 0
    ensures Sorted(cmp, [x] + s)
  {
  }

  lemma {:induction false} InsertSorts<T(!new)>(cmp: (T, T) -> int, x: T, s: seq<T>)
    requires Consistent(cmp) && Sorted(cmp, s)
    ensures Sorted(cmp, Insert(cmp, x, s))
  {
    if s != [] {
      if cmp(x, s[0]) <= 0 {
        forall j | 0 <= j < |s| ensures cmp(x, s[j]) <= 0 {
          assert cmp(s[0], s[j]) <= 0 || j == 0;
        }
        SortedBehind(cmp, x, s);
      } else {
        InsertSorts(cmp, x, s[1..]);
        var r := Insert(cmp, x, s[1..]);
        forall j | 0 <= j < |r| ensures cmp(s[0], r[j]) <= 0 { InsertedFrom(cmp, x, s[1..], j); }
        SortedBehind(cmp, s[0], r);
      }
    }
  }

  lemma InsertedFrom<T(!new)>(cmp: (T, T) -> int, x: T, s: seq<T>, j: nat)
    requires j < |Insert(cmp, x, s)|
    ensures Insert(cmp, x, s)[j] == x || Insert(cmp, x, s)[j] in s
  {
    InsertIsPermutation(cmp, x, s);
    assert Insert(cmp, x, s)[j] in multiset(Insert(cmp, x, s));
  }

  lemma {:induction false} SortSorts<T(!new)>(cmp: (T, T) -> int, s: seq<T>)
    requires Consistent(cmp)
    ensures Sorted(cmp, Sort(cmp, s))
  {
    if s != [] {
      SortSorts(cmp, s[1..]);
      InsertSorts(cmp, s[0], Sort(cmp, s[1..]));
    }
  }

  lemma TiesHead<T(!new)>(cmp: (T, T) -> int, y: T, x: T, s: seq<T>)
    ensures Ties(cmp, y, [x] + s) == (if cmp(y, x) == 0 then [x] else []) + Ties(cmp, y, s)
  {
  }

  lemma AfterDoesNotTie<T(!new)>(cmp: (T, T) -> int, y: T, a: T, b: T)
    requires Consistent(cmp) && cmp(a, b) > 0
    ensures cmp(y, a) != 0 || cmp(y, b) != 0
  {
  }

  /** Passing x over an element it comes after swaps two that do not both tie with y. */
  lemma SwapTies<T(!new)>(cmp: (T, T) -> int, y: T, a: T, b: T, s: seq<T>)
    requires cmp(y, a) != 0 || cmp(y, b) != 0
    ensures Ties(cmp, y, [a] + ([b] + s)) == Ties(cmp, y, [b] + ([a] + s))
  {
  }

  lemma {:induction false} InsertTies<T(!new)>(cmp: (T, T) -> int, x: T, s: seq<T>, y: T)
    requires Consistent(cmp)
    ensures Ties(cmp, y, Insert(cmp, x, s)) == Ties(cmp, y, [x] + s)
  {
    if s != [] && cmp(x, s[0]) > 0 {
      InsertTies(cmp, x, s[1..], y);
      AfterDoesNotTie(cmp, y, x, s[0]);
      SwapTies(cmp, y, s[0], x, s[1..]);
      assert [s[0]] + s[1..] == s;
      TiesHead(cmp, y, s[0], Insert(cmp, x, s[1..]));
      TiesHead(cmp, y, s[0], [x] + s[1..]);
    }
  }

  /** Sorting keeps tied elements in the order they had. */
  lemma {:induction false} SortIsStable<T(!new)>(cmp: (T, T) -> int, s: seq<T>)
    requires Consistent(cmp)
    ensures SameTies(cmp, Sort(cmp, s), s)
  {
    if s != [] {
      SortIsStable(cmp, s[1..]);
      forall y ensures Ties(cmp, y, Sort(cmp, s)) == Ties(cmp, y, s) {
        InsertTies(cmp, s[0], Sort(cmp, s[1..]), y);
        TiesHead(cmp, y, s[0], Sort(cmp, s[1..]));
      }
    }
  }

  lemma TiedHead<T(!new)>(cmp: (T, T) -> int, s: seq<T>, t: seq<T>)
    requires Consistent(cmp) && Sorted(cmp, s) && Sorted(cmp, t) && SameTies(cmp, s, t) && s != [] && t != []
    ensures s[0] == t[0]
  {
    NotAfter(cmp, s, t);
    NotAfter(cmp, t, s);
    assert Ties(cmp, s[0], s)[0] == s[0];
    assert Ties(cmp, s[0], t)[0] == t[0];
  }

  lemma NotAfter<T(!new)>(cmp: (T, T) -> int, s: seq<T>, t: seq<T>)
    requires Consistent(cmp) && Sorted(cmp, s) && SameTies(cmp, s, t) && s != [] && t != []
    ensures cmp(s[0], t[0]) <= 0
  {
    var x := t[0];
    assert x in Ties(cmp, x, t);
    assert x in Ties(cmp, x, s);
    assert x in s;
  }

  lemma TiesWithItself<T(!new)>(cmp: (T, T) -> int, s: seq<T>)
    requires Consistent(cmp) && s != []
    ensures Ties(cmp, s[0], s) != []
  {
  }

  lemma TailTies<T(!new)>(cmp: (T, T) -> int, s: seq<T>, t: seq<T>)
    requires SameTies(cmp, s, t) && s != [] && t != [] && s[0] == t[0]
    ensures SameTies(cmp, s[1..], t[1..])
  {
    forall x ensures Ties(cmp, x, s[1..]) == Ties(cmp, x, t[1..]) {
      assert Ties(cmp, x, s) == Ties(cmp, x, t);
      if cmp(x, s[0]) == 0 {
        assert Ties(cmp, x, s)[1..] == Ties(cmp, x, s[1..]);
        assert Ties(cmp, x, t)[1..] == Ties(cmp, x, t[1..]);
      } else {
        assert Ties(cmp, x, s) == Ties(cmp, x, s[1..]);
        assert Ties(cmp, x, t) == Ties(cmp, x, t[1..]);
      }
    }
  }

  lemma {:induction false} StableArrangementIsUnique<T(!new)>(cmp: (T, T) -> int, s: seq<T>, t: seq<T>)
    requires Consistent(cmp) && Sorted(cmp, s) && Sorted(cmp, t) && SameTies(cmp, s, t)
    ensures s == t
  {
    if s == [] {
      if t != [] { TiesWithItself(cmp, t); }
    } else if t == [] {
      TiesWithItself(cmp, s);
    } else {
      TiedHead(cmp, s, t);
      TailTies(cmp, s, t);
      StableArrangementIsUnique(cmp, s[1..], t[1..]);
      assert s == [s[0]] + s[1..] && t == [t[0]] + t[1..];
    }
  }

  /** Whatever algorithm an engine uses, if its result is sorted and keeps ties in order it is this one. */
  lemma AnyStableSortIsThisOne<T(!new)>(cmp: (T, T) -> int, s: seq<T>, r: seq<T>)
    requires Consistent(cmp) && Sorted(cmp, r) && SameTies(cmp, r, s)
    ensures r == Sort(cmp, s)
  {
    SortSorts(cmp, s);
    SortIsStable(cmp, s);
    StableArrangementIsUnique(cmp, r, Sort(cmp, s));
  }
}

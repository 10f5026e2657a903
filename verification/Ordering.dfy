/** Orders, sorting and filtering shared by the other modules.

    Go's cmp.Compare on strings, and slices.SortFunc / slices.SortStableFunc as
    a stable insertion sort.  What matters about a sort is stated once: it is a
    sorted permutation, and under an order that tells its elements apart a
    sorted permutation is unique, so the algorithm chosen cannot matter. */
module Ordering {

  // ----- comparing strings ------------------------------------------------

  /** cmp.Compare on strings: -1, 0 or 1, byte by byte. */
  function Compare(a: string, b: string): int
  {
    if a == b then 0
    else if a == [] then -1
    else if b == [] then 1
    else if a[0] != b[0] then (if a[0] < b[0] then -1 else 1)
    else Compare(a[1..], b[1..])
  }

  /** a is before b: they agree up to i, where a ends or has the smaller letter. */
  ghost predicate Before(a: string, b: string, i: nat)
  {
    i <= |a| && i < |b| && a[..i] == b[..i] && (i == |a| || a[i] < b[i])
  }

  /** Strings are compared letter by letter, a prefix first. */
  lemma {:induction false} CompareIsAlphabetic(a: string, b: string)
    ensures Compare(a, b) < 0 <==> exists i: nat :: Before(a, b, i)
  {
    if a != [] && b != [] && a[0] == b[0] {
      var s, t := a[1..], b[1..];
      CompareIsAlphabetic(s, t);
      if i: nat :| Before(s, t, i) {
        assert a[..i + 1] == [a[0]] + s[..i] && b[..i + 1] == [b[0]] + t[..i];
        assert Before(a, b, i + 1);
      }
      if i: nat :| Before(a, b, i) {
        assert i > 0;
        assert s[..i - 1] == a[..i][1..] && t[..i - 1] == b[..i][1..];
        assert Before(s, t, i - 1);
      }
    } else {
      assert Compare(a, b) < 0 ==> Before(a, b, 0);
      forall i: nat | Before(a, b, i) && i > 0 ensures Compare(a, b) < 0 { assert a[..i][0] == b[..i][0]; }
    }
  }

  lemma {:induction false} CompareZero(a: string, b: string)
    ensures Compare(a, b) == 0 <==> a == b
  {
    if a != b && a != [] && b != [] && a[0] == b[0] {
      CompareZero(a[1..], b[1..]);
      assert a == [a[0]] + a[1..] && b == [b[0]] + b[1..];
    }
  }

  lemma {:induction false} CompareFlips(a: string, b: string)
    ensures Compare(a, b) == -Compare(b, a)
  {
    if a != b && a != [] && b != [] && a[0] == b[0] {
      CompareFlips(a[1..], b[1..]);
    }
  }

  lemma {:induction false} CompareTransitive(a: string, b: string, c: string)
    requires Compare(a, b) <= 0 && Compare(b, c) <= 0
    ensures Compare(a, c) <= 0
  {
    CompareZero(a, b);
    CompareZero(b, c);
    if a != b && b != c && a != [] && c != [] && a[0] == b[0] == c[0] {
      CompareTransitive(a[1..], b[1..], c[1..]);
    }
  }

  // ----- sorting -----------------------------------------------------------

  ghost predicate TotalPreorder<T(!new)>(le: (T, T) -> bool)
  {
    && (forall a, b :: le(a, b) || le(b, a))
    && (forall a, b, c :: le(a, b) && le(b, c) ==> le(a, c))
  }

  ghost predicate Sorted<T>(le: (T, T) -> bool, s: seq<T>)
  {
    forall i, j :: 0 <= i < j < |s| ==> le(s[i], s[j])
  }

  /** Names in ascending order. */
  function ByName(): (string, string) -> bool { (a: string, b: string) => Compare(a, b) <= 0 }

  lemma ByNameIsTotal()
    ensures TotalPreorder(ByName())
  {
    forall a: string, b: string ensures ByName()(a, b) || ByName()(b, a) { CompareFlips(a, b); }
    forall a: string, b: string, c: string | ByName()(a, b) && ByName()(b, c) ensures ByName()(a, c) { CompareTransitive(a, b, c); }
  }

  /** le never ties two different elements of s. */
  ghost predicate Separates<T>(le: (T, T) -> bool, s: seq<T>)
  {
    forall i, j :: 0 <= i < |s| && 0 <= j < |s| && le(s[i], s[j]) && le(s[j], s[i]) ==> s[i] == s[j]
  }

  function Insert<T>(le: (T, T) -> bool, s: seq<T>, x: T): (r: seq<T>)
    ensures multiset(r) == multiset(s) + multiset{x}
  {
    if s == [] || le(s[|s| - 1], x) then s + [x]
    else
      assert s == s[..|s| - 1] + [s[|s| - 1]];
      Insert(le, s[..|s| - 1], x) + [s[|s| - 1]]
  }

  /** Stable insertion sort. */
  function Sort<T>(le: (T, T) -> bool, s: seq<T>): (r: seq<T>)
    ensures multiset(r) == multiset(s)
    ensures |r| == |s|
  {
    if s == [] then []
    else
      assert s == s[..|s| - 1] + [s[|s| - 1]];
      var r := Insert(le, Sort(le, s[..|s| - 1]), s[|s| - 1]);
      assert |multiset(r)| == |r| && |multiset(s)| == |s|;
      r
  }

  /** The first k of a sorted sequence come before everything else in it. */
  lemma PrefixIsFirst<T(!new)>(le: (T, T) -> bool, s: seq<T>, k: nat)
    requires Sorted(le, s) && k <= |s|
    ensures forall x, y :: x in s[..k] && y in s && y !in s[..k] ==> le(x, y)
  {
    assert s == s[..k] + s[k..];
    forall x, y | x in s[..k] && y in s && y !in s[..k] ensures le(x, y) {
      assert y in s[k..];
      var i :| 0 <= i < k && s[i] == x;
      var j :| 0 <= j < |s[k..]| && s[k..][j] == y;
      assert le(s[i], s[k + j]);
    }
  }

  lemma {:induction false} InsertSorts<T(!new)>(le: (T, T) -> bool, s: seq<T>, x: T)
    requires TotalPreorder(le) && Sorted(le, s)
    ensures Sorted(le, Insert(le, s, x))
  {
    if s == [] || le(s[|s| - 1], x) {
      forall y | y in s ensures le(y, x) { LastIsGreatest(le, s, y); }
      SortedSnoc(le, s, x);
    } else {
      var init, last := s[..|s| - 1], s[|s| - 1];
      InitKeeps(le, s);
      InsertSorts(le, init, x);
      var r := Insert(le, init, x);
      forall y | y in r ensures le(y, last) {
        assert y in multiset(r);
        assert y == x || y in multiset(init);
        if y in s { LastIsGreatest(le, s, y); }
      }
      SortedSnoc(le, r, last);
    }
  }

  lemma SortedSnoc<T(!new)>(le: (T, T) -> bool, s: seq<T>, x: T)
    requires Sorted(le, s) && forall y :: y in s ==> le(y, x)
    ensures Sorted(le, s + [x])
  {
  }

  lemma {:induction false} SortSorts<T(!new)>(le: (T, T) -> bool, s: seq<T>)
    requires TotalPreorder(le)
    ensures Sorted(le, Sort(le, s))
  {
    if s != [] {
      SortSorts(le, s[..|s| - 1]);
      InsertSorts(le, Sort(le, s[..|s| - 1]), s[|s| - 1]);
    }
  }

  lemma LastIsGreatest<T(!new)>(le: (T, T) -> bool, s: seq<T>, x: T)
    requires TotalPreorder(le) && Sorted(le, s) && s != [] && x in s
    ensures le(x, s[|s| - 1])
  {
    var i :| 0 <= i < |s| && s[i] == x;
    assert le(x, x);
  }

  lemma LastsAgree<T(!new)>(le: (T, T) -> bool, s: seq<T>, t: seq<T>)
    requires TotalPreorder(le) && Sorted(le, s) && Sorted(le, t) && Separates(le, s)
    requires s != [] && t != [] && multiset(s) == multiset(t)
    ensures s[|s| - 1] == t[|t| - 1]
  {
    var a, b := s[|s| - 1], t[|t| - 1];
    SameElements(s, t);
    LastIsGreatest(le, t, a);
    LastIsGreatest(le, s, b);
    var j :| 0 <= j < |s| && s[j] == b;
    assert le(s[|s| - 1], s[j]) && le(s[j], s[|s| - 1]);
  }

  lemma InitKeeps<T(!new)>(le: (T, T) -> bool, s: seq<T>)
    requires s != []
    ensures multiset(s[..|s| - 1]) == multiset(s) - multiset{s[|s| - 1]}
    ensures Sorted(le, s) ==> Sorted(le, s[..|s| - 1])
    ensures Separates(le, s) ==> Separates(le, s[..|s| - 1])
  {
    assert s == s[..|s| - 1] + [s[|s| - 1]];
  }

  lemma SameLength<T>(s: seq<T>, t: seq<T>)
    requires multiset(s) == multiset(t)
    ensures |s| == |t|
  {
    assert |s| == |multiset(s)| && |t| == |multiset(t)|;
  }

  lemma Rejoin<T>(s: seq<T>, t: seq<T>)
    requires |s| == |t| && s != [] && s[..|s| - 1] == t[..|t| - 1] && s[|s| - 1] == t[|t| - 1]
    ensures s == t
  {
    assert s == s[..|s| - 1] + [s[|s| - 1]] && t == t[..|t| - 1] + [t[|t| - 1]];
  }

  /** Two sorted permutations of the same elements are the same sequence when
      the order separates the elements. */
  lemma {:induction false} SortedUnique<T(!new)>(le: (T, T) -> bool, s: seq<T>, t: seq<T>)
    requires TotalPreorder(le) && Sorted(le, s) && Sorted(le, t) && Separates(le, s)
    requires multiset(s) == multiset(t)
    ensures s == t
  {
    SameLength(s, t);
    if s != [] {
      LastsAgree(le, s, t);
      hide TotalPreorder, Sorted, Separates;
      InitKeeps(le, s);
      InitKeeps(le, t);
      SortedUnique(le, s[..|s| - 1], t[..|t| - 1]);
      Rejoin(s, t);
    }
  }

  /** Sorting does not depend on the order the elements arrive in. */
  lemma {:induction false} SortIgnoresOrder<T(!new)>(le: (T, T) -> bool, s: seq<T>, t: seq<T>)
    requires TotalPreorder(le) && Separates(le, s)
    requires multiset(s) == multiset(t)
    ensures Sort(le, s) == Sort(le, t)
  {
    SortSorts(le, s);
    SortSorts(le, t);
    var a := Sort(le, s);
    forall i, j | 0 <= i < |a| && 0 <= j < |a| && le(a[i], a[j]) && le(a[j], a[i]) ensures a[i] == a[j] {
      assert a[i] in multiset(s) && a[j] in multiset(s);
    }
    SortedUnique(le, a, Sort(le, t));
  }

  lemma SameElements<T(!new)>(s: seq<T>, t: seq<T>)
    requires multiset(s) == multiset(t)
    ensures forall x :: x in s <==> x in t
  {
    forall x ensures x in s <==> x in t {
      assert x in s <==> x in multiset(s);
      assert x in t <==> x in multiset(t);
    }
  }

  // ----- filtering ----------------------------------------------------------

  function Filter<T(!new)>(f: T -> bool, s: seq<T>): (r: seq<T>)
    ensures forall x :: x in r <==> x in s && f(x)
    ensures |r| <= |s|
  {
    if s == [] then []
    else Filter(f, s[..|s| - 1]) + (if f(s[|s| - 1]) then [s[|s| - 1]] else [])
  }

  lemma FilterStep<T(!new)>(f: T -> bool, s: seq<T>, i: nat)
    requires i < |s|
    ensures Filter(f, s[..i + 1]) == Filter(f, s[..i]) + (if f(s[i]) then [s[i]] else [])
  {
    assert s[..i + 1][..i] == s[..i];
  }

  lemma FilterSnoc<T(!new)>(f: T -> bool, s: seq<T>, x: T)
    ensures Filter(f, s + [x]) == Filter(f, s) + (if f(x) then [x] else [])
  {
    assert (s + [x])[..|s|] == s;
  }

  lemma {:induction false} FilterAppend<T(!new)>(f: T -> bool, a: seq<T>, b: seq<T>)
    ensures Filter(f, a + b) == Filter(f, a) + Filter(f, b)
  {
    hide Filter;
    if b == [] {
      assert a + b == a;
    } else {
      var init, last := b[..|b| - 1], b[|b| - 1];
      FilterAppend(f, a, init);
      FilterSnoc(f, a + init, last);
      FilterSnoc(f, init, last);
      assert b == init + [last] && a + b == (a + init) + [last];
    }
  }

  ghost predicate Distinct<T>(s: seq<T>)
  {
    forall i, j :: 0 <= i < |s| && 0 <= j < |s| && s[i] == s[j] ==> i == j
  }

  /** Having no element twice is a property of the multiset alone. */
  lemma {:induction false} DistinctMultiset<T(!new)>(s: seq<T>)
    ensures Distinct(s) <==> forall x :: multiset(s)[x] <= 1
  {
    if s != [] {
      var init, last := s[..|s| - 1], s[|s| - 1];
      DistinctMultiset(init);
      assert s == init + [last];
      assert multiset(s) == multiset(init) + multiset{last};
      assert last in init <==> last in multiset(init);
      if Distinct(s) {
        forall i, j | 0 <= i < |init| && 0 <= j < |init| && init[i] == init[j] ensures i == j {
          assert s[i] == s[j];
        }
        assert forall i :: 0 <= i < |init| ==> init[i] == s[i] && s[i] != s[|s| - 1];
        forall x ensures multiset(s)[x] <= 1 { assert multiset(init)[x] <= 1; }
      }
      if forall x :: multiset(s)[x] <= 1 {
        forall x ensures multiset(init)[x] <= 1 { assert multiset(s)[x] <= 1; }
        assert multiset(s)[last] <= 1;
        assert forall i :: 0 <= i < |init| ==> init[i] in init;
      }
    }
  }

  lemma DistinctInit<T>(s: seq<T>)
    requires Distinct(s) && s != []
    ensures Distinct(s[..|s| - 1]) && s[|s| - 1] !in s[..|s| - 1]
  {
    var init := s[..|s| - 1];
    assert forall i, j :: 0 <= i < |init| && 0 <= j < |init| && init[i] == init[j] ==> s[i] == s[j];
    assert forall i :: 0 <= i < |init| ==> init[i] == s[i] && s[i] != s[|s| - 1];
  }

  lemma RemoveOne<T>(s: seq<T>, k: nat)
    requires k < |s|
    ensures multiset(s[..k] + s[k + 1..]) == multiset(s) - multiset{s[k]}
  {
    assert s == s[..k] + [s[k]] + s[k + 1..];
  }

  /** The last element of s, found in its permutation t. */
  lemma FindLast<T(!new)>(s: seq<T>, t: seq<T>) returns (k: nat)
    requires s != [] && multiset(s) == multiset(t)
    ensures k < |t| && t[k] == s[|s| - 1]
    ensures multiset(t[..k] + t[k + 1..]) == multiset(s[..|s| - 1])
  {
    var n := |s| - 1;
    assert s[n] in s;
    SameElements(s, t);
    k :| 0 <= k < |t| && t[k] == s[n];
    RemoveOne(t, k);
    assert s == s[..n] + [s[n]];
    assert multiset(s[..n]) == multiset(s) - multiset{s[n]};
  }

  lemma {:induction false} FilterMultiset<T(!new)>(f: T -> bool, s: seq<T>, x: T)
    ensures multiset(Filter(f, s))[x] == if f(x) then multiset(s)[x] else 0
  {
    if s != [] {
      FilterMultiset(f, s[..|s| - 1], x);
      assert s == s[..|s| - 1] + [s[|s| - 1]];
    }
  }

  lemma FilterIgnoresOrder<T(!new)>(f: T -> bool, s: seq<T>, t: seq<T>)
    requires multiset(s) == multiset(t)
    ensures multiset(Filter(f, s)) == multiset(Filter(f, t))
  {
    forall x ensures multiset(Filter(f, s))[x] == multiset(Filter(f, t))[x] {
      FilterMultiset(f, s, x);
      FilterMultiset(f, t, x);
    }
  }

  lemma SubsetSize<T>(s: set<T>, t: set<T>)
    requires s <= t
    ensures |s| <= |t|
  {
    assert t == s + (t - s);
  }

  lemma SubsetOfSameSize<T>(s: set<T>, t: set<T>)
    ensures s <= t && |s| == |t| ==> s == t
  {
    if s <= t {
      assert t == s + (t - s);
      assert |t| == |s| + |t - s|;
    }
  }

  /** The last min(k, |s|) elements of s. */
  function Last<T>(s: seq<T>, k: nat): seq<T>
  {
    if |s| <= k then s else s[|s| - k..]
  }

  lemma LastAppend<T>(s: seq<T>, t: seq<T>, k: nat)
    ensures Last(s + t, k) == Last(Last(s, k) + t, k)
  {
    var a, b := s + t, Last(s, k) + t;
    assert |s| > k ==> b == a[|s| - k..];
  }

  function Min(a: int, b: int): int { if a < b then a else b }
  function Max(a: int, b: int): int { if a < b then b else a }
}

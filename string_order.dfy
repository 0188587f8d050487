/**
 * Go's ordering of strings (byte-wise on UTF-8, which is code-point order,
 * with a proper prefix first) and `sort.Strings`.
 */
module StringOrder {

  /** Lexicographic "less than" on code points. */
  predicate Lt(a: string, b: string) {
    if a == [] then b != []
    else if b == [] then false
    else a[0] < b[0] || (a[0] == b[0] && Lt(a[1..], b[1..]))
  }

  predicate Le(a: string, b: string) {
    a == b || Lt(a, b)
  }

  lemma {:induction false} LtIrreflexive(a: string)
    ensures !Lt(a, a)
  {
    if a != [] { LtIrreflexive(a[1..]); }
  }

  lemma {:induction false} LtTransitive(a: string, b: string, c: string)
    requires Lt(a, b) && Lt(b, c)
    ensures Lt(a, c)
  {
    if a != [] && a[0] == b[0] && b[0] == c[0] {
      LtTransitive(a[1..], b[1..], c[1..]);
    }
  }

  lemma {:induction false} LtTrichotomy(a: string, b: string)
    ensures a == b || Lt(a, b) || Lt(b, a)
  {
    if a != [] && b != [] && a[0] == b[0] {
      LtTrichotomy(a[1..], b[1..]);
      if a[1..] == b[1..] {
        assert a == [a[0]] + a[1..] && b == [b[0]] + b[1..];
      }
    }
  }

  lemma LtAsymmetric(a: string, b: string)
    requires Lt(a, b)
    ensures !Lt(b, a) && a != b
  {
    LtIrreflexive(a);
    if Lt(b, a) { LtTransitive(a, b, a); }
  }

  /** Le is a total order. */
  lemma LeTotalOrder(a: string, b: string, c: string)
    ensures Le(a, a)
    ensures Le(a, b) || Le(b, a)
    ensures Le(a, b) && Le(b, a) ==> a == b
    ensures Le(a, b) && Le(b, c) ==> Le(a, c)
  {
    LtTrichotomy(a, b);
    if Lt(a, b) { LtAsymmetric(a, b); }
    if Lt(a, b) && Lt(b, c) { LtTransitive(a, b, c); }
  }

  /** Ascending order, as `sort.Strings` leaves a slice. */
  predicate Sorted(s: seq<string>) {
    forall i, j :: 0 <= i < j < |s| ==> Le(s[i], s[j])
  }

  /** Strictly ascending: sorted and without repetitions. */
  predicate StrictlySorted(s: seq<string>) {
    forall i, j :: 0 <= i < j < |s| ==> Lt(s[i], s[j])
  }

  /** Inserting into a sorted sequence keeps it sorted and adds one
      occurrence of `x`. */
  function Insert(x: string, s: seq<string>): (r: seq<string>)
    requires Sorted(s)
    ensures Sorted(r)
    ensures multiset(r) == multiset(s) + multiset{x}
  {
    if s == [] then [x]
    else if Le(x, s[0]) then
      ConsSorted(x, s);
      [x] + s
    else
      TailSortedSame(s);
      var t := Insert(x, s[1..]);
      InsertBehind(x, s, t);
      [s[0]] + t
  }

  /** The step of `Insert` that keeps the head of `s` in front of the
      insertion into its tail. */
  lemma InsertBehind(x: string, s: seq<string>, t: seq<string>)
    requires Sorted(s) && s != [] && !Le(x, s[0])
    requires Sorted(t) && multiset(t) == multiset(s[1..]) + multiset{x}
    ensures Sorted([s[0]] + t)
    ensures multiset([s[0]] + t) == multiset(s) + multiset{x}
  {
    assert Le(s[0], x) by { LeTotalOrder(x, s[0], x); }
    forall y | y in multiset(t) ensures Le(s[0], y) {
      if y != x {
        assert y in multiset(s[1..]);
        var k :| 0 <= k < |s[1..]| && s[1..][k] == y;
        assert s[k + 1] == y;
      }
    }
    ConsSorted(s[0], t);
    assert s == [s[0]] + s[1..];
  }

  /** An element no greater than the first of a sorted sequence, or than
      every element of it, can be put in front. */
  lemma ConsSorted(x: string, s: seq<string>)
    requires Sorted(s)
    requires (s != [] && Le(x, s[0])) || forall y :: y in multiset(s) ==> Le(x, y)
    ensures Sorted([x] + s)
  {
    var r := [x] + s;
    forall i, j | 0 <= i < j < |r| ensures Le(r[i], r[j]) {
      assert r[j] == s[j - 1];
      if i > 0 {
        assert r[i] == s[i - 1];
      } else if forall y :: y in multiset(s) ==> Le(x, y) {
        assert s[j - 1] in multiset(s);
      } else {
        LeTotalOrder(x, s[0], s[j - 1]);
      }
    }
  }

  /** `sort.Strings`: an ascending permutation of its argument. */
  function SortStrings(s: seq<string>): (r: seq<string>)
    ensures Sorted(r)
    ensures multiset(r) == multiset(s)
  {
    if s == [] then []
    else
      assert s == [s[0]] + s[1..];
      Insert(s[0], SortStrings(s[1..]))
  }

  /** A non-empty finite set of strings has a least element. */
  lemma {:induction false} LeastOf(s: set<string>) returns (m: string)
    requires s != {}
    ensures m in s && forall x :: x in s ==> Le(m, x)
  {
    var y :| y in s;
    if s == {y} {
      m := y;
      LeTotalOrder(y, y, y);
    } else {
      var least := LeastOf(s - {y});
      LeTotalOrder(y, least, y);
      if Le(y, least) {
        m := y;
        forall x | x in s ensures Le(m, x) {
          if x != y { LeTotalOrder(y, least, x); }
        }
      } else {
        m := least;
      }
    }
  }

  lemma MinExists(s: set<string>)
    requires s != {}
    ensures exists m :: m in s && forall x :: x in s ==> Le(m, x)
  {
    var m := LeastOf(s);
  }

  /** A least element put in front of a strictly ascending sequence of the
      other elements gives a strictly ascending sequence of all of them. */
  lemma ConsLeast(m: string, t: seq<string>, s: set<string>)
    requires m in s && StrictlySorted(t)
    requires forall x :: x in t <==> x in s - {m}
    requires multiset(t) == multiset(s - {m})
    requires forall x :: x in s ==> Le(m, x)
    ensures StrictlySorted([m] + t)
    ensures forall x :: x in [m] + t <==> x in s
    ensures multiset([m] + t) == multiset(s)
  {
    ConsLeastSorted(m, t, s);
    assert s == {m} + (s - {m});
    assert multiset(s) == multiset{m} + multiset(s - {m});
  }

  lemma ConsLeastSorted(m: string, t: seq<string>, s: set<string>)
    requires StrictlySorted(t)
    requires forall x :: x in t ==> x in s - {m}
    requires forall x :: x in s ==> Le(m, x)
    ensures StrictlySorted([m] + t)
  {
    var r := [m] + t;
    forall i, j | 0 <= i < j < |r| ensures Lt(r[i], r[j]) {
      assert r[j] == t[j - 1];
      if i > 0 {
        assert r[i] == t[i - 1];
      } else {
        assert t[j - 1] in s - {m};
        assert Le(m, t[j - 1]);
      }
    }
  }

  /** The elements of a set in ascending order: the reference definition the
      help index sections are measured against. */
  ghost function SortSet(s: set<string>): (r: seq<string>)
    ensures StrictlySorted(r)
    ensures forall x :: x in r <==> x in s
    ensures multiset(r) == multiset(s)
    decreases |s|
  {
    if s == {} then []
    else
      MinExists(s);
      var m :| m in s && forall x :: x in s ==> Le(m, x);
      var t := SortSet(s - {m});
      ConsLeast(m, t, s);
      [m] + t
  }

  /** The first element of a non-empty ascending sequence is its least. */
  lemma HeadIsLeast(a: seq<string>, x: string)
    requires Sorted(a) && x in multiset(a)
    ensures Le(a[0], x)
  {
    var i :| 0 <= i < |a| && a[i] == x;
    if i == 0 { LeTotalOrder(x, x, x); }
  }

  lemma TailSortedSame(a: seq<string>)
    requires Sorted(a) && a != []
    ensures Sorted(a[1..])
    ensures multiset(a[1..]) == multiset(a) - multiset{a[0]}
  {
    assert a == [a[0]] + a[1..];
  }

  /** Two ascending sequences with the same elements are equal, so the outcome
      of sorting does not depend on the order of its input. */
  lemma {:induction false} SortedUnique(a: seq<string>, b: seq<string>)
    requires Sorted(a) && Sorted(b)
    requires multiset(a) == multiset(b)
    ensures a == b
  {
    if a == [] {
      assert |multiset(b)| == 0;
    } else {
      assert b != [] by { assert |multiset(b)| == |a|; }
      HeadIsLeast(a, b[0]);
      HeadIsLeast(b, a[0]);
      LeTotalOrder(a[0], b[0], a[0]);
      TailSortedSame(a);
      TailSortedSame(b);
      SortedUnique(a[1..], b[1..]);
    }
  }

  /** Sorting the elements of a set, in whatever order they are presented,
      yields `SortSet` of that set. */
  lemma SortStringsOfSet(s: seq<string>, elems: set<string>)
    requires multiset(s) == multiset(elems)
    ensures SortStrings(s) == SortSet(elems)
  {
    var sorted := SortStrings(s);
    var ref := SortSet(elems);
    assert Sorted(ref) by {
      forall i, j | 0 <= i < j < |ref| ensures Le(ref[i], ref[j]) { }
    }
    SortedUnique(sorted, ref);
  }
}

/**
 Sorting finite sets, and the order of Go strings.
 */
module Ordering {

  ghost predicate StrictTotal<T(!new)>(lt: (T, T) -> bool)
  {
    && (forall x :: !lt(x, x))
    && (forall x, y :: lt(x, y) || lt(y, x) || x == y)
    && (forall x, y, z :: lt(x, y) && lt(y, z) ==> lt(x, z))
  }

  ghost predicate IsLeast<T>(m: T, s: set<T>, lt: (T, T) -> bool)
  {
    m in s && forall x :: x in s ==> x == m || lt(m, x)
  }

  lemma LeastOfTwo<T(!new)>(e: T, m: T, s: set<T>, lt: (T, T) -> bool)
    requires StrictTotal(lt) && e in s && IsLeast(m, s - {e}, lt)
    ensures IsLeast(if lt(e, m) then e else m, s, lt)
  {
    forall x | x in s && x != e && lt(e, m)
      ensures lt(e, x)
    {
      assert x in s - {e};
    }
    forall x | x in s && x != m && !lt(e, m)
      ensures lt(m, x)
    {
      assert x != e ==> x in s - {e};
    }
  }

  lemma LeastExists<T(!new)>(s: set<T>, lt: (T, T) -> bool)
    requires StrictTotal(lt) && s != {}
    ensures exists m :: IsLeast(m, s, lt)
  {
    hide StrictTotal;
    var e :| e in s;
    if s == {e} {
      assert IsLeast(e, s, lt);
    } else {
      LeastExists(s - {e}, lt);
      var m :| IsLeast(m, s - {e}, lt);
      LeastOfTwo(e, m, s, lt);
    }
  }

  function Least<T(!new, ==)>(s: set<T>, lt: (T, T) -> bool): (m: T)
    requires StrictTotal(lt) && s != {}
    ensures IsLeast(m, s, lt)
  {
    LeastExists(s, lt);
    assert exists m :: m in s && forall x :: x in s ==> x == m || lt(m, x) by {
      var m :| IsLeast(m, s, lt);
    }
    var m :| m in s && forall x :: x in s ==> x == m || lt(m, x);
    m
  }

  /** The elements of s in ascending order. */
  function Sorted<T(!new, ==)>(s: set<T>, lt: (T, T) -> bool): (q: seq<T>)
    requires StrictTotal(lt)
    ensures |q| == |s|
    decreases |s|
  {
    if s == {} then []
    else
      var m := Least(s, lt);
      [m] + Sorted(s - {m}, lt)
  }

  lemma {:induction false} SortedElements<T(!new)>(s: set<T>, lt: (T, T) -> bool)
    requires StrictTotal(lt)
    ensures forall x :: x in Sorted(s, lt) <==> x in s
    decreases |s|
  {
    if s != {} {
      var m := Least(s, lt);
      SortedElements(s - {m}, lt);
      forall x
        ensures x in Sorted(s, lt) <==> x in s
      {
        assert x in Sorted(s, lt) <==> x == m || x in Sorted(s - {m}, lt);
      }
    }
  }

  lemma {:induction false} SortedAscends<T(!new)>(s: set<T>, lt: (T, T) -> bool)
    requires StrictTotal(lt)
    ensures forall i, j :: 0 <= i < j < |s| ==> lt(Sorted(s, lt)[i], Sorted(s, lt)[j])
    decreases |s|
  {
    if s != {} {
      var m := Least(s, lt);
      var rest := Sorted(s - {m}, lt);
      SortedAscends(s - {m}, lt);
      SortedElements(s - {m}, lt);
      assert Sorted(s, lt) == [m] + rest;
      forall i, j | 0 <= i < j < |s|
        ensures lt(Sorted(s, lt)[i], Sorted(s, lt)[j])
      {
        assert Sorted(s, lt)[j] == rest[j - 1];
        assert rest[j - 1] in s - {m};
        assert i > 0 ==> Sorted(s, lt)[i] == rest[i - 1];
      }
    }
  }

  ghost predicate Ascends<T>(q: seq<T>, lt: (T, T) -> bool)
  {
    forall i, j :: 0 <= i < j < |q| ==> lt(q[i], q[j])
  }

  /** There is one ascending arrangement of a set. */
  lemma {:induction false} AscendingIsSorted<T(!new)>(q: seq<T>, s: set<T>, lt: (T, T) -> bool)
    requires StrictTotal(lt) && Ascends(q, lt) && forall x :: x in q <==> x in s
    ensures q == Sorted(s, lt)
    decreases |s|
  {
    if q == [] {
      assert s == {};
    } else {
      assert q[0] in s;
      var m := Least(s, lt);
      var i :| 0 <= i < |q| && q[i] == m;
      assert i == 0;
      assert q == [m] + q[1..];
      forall x
        ensures x in q[1..] <==> x in s - {m}
      {
        if x in q[1..] {
          var j :| 1 <= j < |q| && q[j] == x;
        }
      }
      AscendingIsSorted(q[1..], s - {m}, lt);
    }
  }

  function Filter<T>(q: seq<T>, keep: T -> bool): seq<T>
  {
    if q == [] then []
    else Filter(q[..|q| - 1], keep) + (if keep(q[|q| - 1]) then [q[|q| - 1]] else [])
  }

  lemma {:induction false} FilterElements<T>(q: seq<T>, keep: T -> bool)
    ensures forall x :: x in Filter(q, keep) <==> x in q && keep(x)
  {
    if q != [] {
      FilterElements(q[..|q| - 1], keep);
      assert q == q[..|q| - 1] + [q[|q| - 1]];
    }
  }

  /** Go's < on strings: rune by rune. */
  predicate Before(a: string, b: string)
  {
    if b == "" then false
    else if a == "" then true
    else a[0] < b[0] || (a[0] == b[0] && Before(a[1..], b[1..]))
  }

  lemma {:induction false} BeforeTotal(a: string, b: string)
    ensures !Before(a, a)
    ensures Before(a, b) || Before(b, a) || a == b
    decreases |a| + |b|
  {
    if a != "" && b != "" {
      BeforeTotal(a[1..], b[1..]);
      assert a == [a[0]] + a[1..] && b == [b[0]] + b[1..];
    } else if a != "" {
      BeforeTotal(a[1..], b);
    }
  }

  lemma {:induction false} BeforeTransitive(a: string, b: string, c: string)
    requires Before(a, b) && Before(b, c)
    ensures Before(a, c)
  {
    if a != "" && a[0] == b[0] && b[0] == c[0] {
      BeforeTransitive(a[1..], b[1..], c[1..]);
    }
  }

  lemma BeforeIsStrictTotal()
    ensures StrictTotal(Before)
  {
    forall x: string, y: string
      ensures !Before(x, x) && (Before(x, y) || Before(y, x) || x == y)
    {
      BeforeTotal(x, y);
    }
    forall x: string, y: string, z: string | Before(x, y) && Before(y, z)
      ensures Before(x, z)
    {
      BeforeTransitive(x, y, z);
    }
  }

  /** sort.Strings over the keys of a map. */
  function SortedStrings(s: set<string>): (q: seq<string>)
    ensures |q| == |s|
  {
    BeforeIsStrictTotal();
    Sorted(s, Before)
  }

  lemma SortedStringsElements(s: set<string>)
    ensures forall x :: x in SortedStrings(s) <==> x in s
    ensures forall i, j :: 0 <= i < j < |s| ==> Before(SortedStrings(s)[i], SortedStrings(s)[j])
    ensures forall i, j :: 0 <= i < j < |s| ==> SortedStrings(s)[i] != SortedStrings(s)[j]
  {
    BeforeIsStrictTotal();
    SortedElements(s, Before);
    SortedAscends(s, Before);
  }
}

/**
  Sorting as `Array.prototype.sort` promises it (section 23.1.3.30 of ECMA-262, 2024
  edition): the result is ordered and elements that compare equal keep their order.
  `Sort` is one such sorting; `StableSortIsUnique` shows that there is no other, so every
  statement about `Sort` is a statement about any conforming implementation.
*/
module StableSort {

  ghost predicate TotalPreorder<T(!new)>(le: (T, T) -> bool) {
    && (forall x, y :: le(x, y) || le(y, x))
    && (forall x, y, z :: le(x, y) && le(y, z) ==> le(x, z))
  }

  ghost predicate Sorted<T>(s: seq<T>, le: (T, T) -> bool) {
    forall i, j | 0 <= i < j < |s| :: le(s[i], s[j])
  }

  /** Keeps, in order, the elements that satisfy `p`: `Array.prototype.filter`. */
  function Keep<T>(s: seq<T>, p: T -> bool): (r: seq<T>)
    ensures forall x | x in r :: x in s && p(x)
    ensures forall x | x in s && p(x) :: x in r
    ensures |r| <= |s|
  {
    if s == [] then []
    else
      var front := Keep(s[..|s| - 1], p);
      var last := s[|s| - 1];
      assert s == s[..|s| - 1] + [last];
      if p(last) then front + [last] else front
  }

  /** Inserts `x` after the last element that is not greater than it. */
  function Insert<T>(s: seq<T>, x: T, le: (T, T) -> bool): (r: seq<T>)
    ensures |r| == |s| + 1
  {
    if s == [] then [x]
    else if le(s[|s| - 1], x) then s + [x]
    else Insert(s[..|s| - 1], x, le) + [s[|s| - 1]]
  }

  function Sort<T>(s: seq<T>, le: (T, T) -> bool): (r: seq<T>)
    ensures |r| == |s|
  {
    if s == [] then [] else Insert(Sort(s[..|s| - 1], le), s[|s| - 1], le)
  }

  /** Inserts the elements of `xs` one after the other. */
  function InsertAll<T>(s: seq<T>, xs: seq<T>, le: (T, T) -> bool): seq<T> {
    if xs == [] then s else Insert(InsertAll(s, xs[..|xs| - 1], le), xs[|xs| - 1], le)
  }

  /** The elements of `s` that compare equal to `x`, in the order of `s`. */
  function TiesOf<T>(s: seq<T>, x: T, le: (T, T) -> bool): seq<T> {
    Keep(s, y => le(x, y) && le(y, x))
  }

  /** `t` is a stable sorting of `s`: ordered, and every class of ties keeps its order. */
  ghost predicate IsStableSortOf<T(!new)>(t: seq<T>, s: seq<T>, le: (T, T) -> bool) {
    && Sorted(t, le)
    && |t| == |s|
    && forall x :: TiesOf(t, x, le) == TiesOf(s, x, le)
  }

  // ---------------------------------------------------------------- filtering

  lemma {:induction false} KeepAppend<T>(a: seq<T>, b: seq<T>, p: T -> bool)
    ensures Keep(a + b, p) == Keep(a, p) + Keep(b, p)
  {
    if b == [] {
      assert a + b == a;
    } else {
      var front := b[..|b| - 1];
      assert (a + b)[..|a + b| - 1] == a + front;
      KeepAppend(a, front, p);
    }
  }

  lemma {:induction false} KeepAll<T>(s: seq<T>, p: T -> bool)
    requires forall x | x in s :: p(x)
    ensures Keep(s, p) == s
  {
    if s != [] {
      KeepAll(s[..|s| - 1], p);
      assert s == s[..|s| - 1] + [s[|s| - 1]];
    }
  }

  lemma {:induction false} KeepNone<T>(s: seq<T>, p: T -> bool)
    requires forall x | x in s :: !p(x)
    ensures Keep(s, p) == []
  {
    if s != [] {
      KeepNone(s[..|s| - 1], p);
    }
  }

  lemma {:induction false} KeepAlike<T>(s: seq<T>, p: T -> bool, q: T -> bool)
    requires forall x :: p(x) == q(x)
    ensures Keep(s, p) == Keep(s, q)
  {
    if s != [] {
      KeepAlike(s[..|s| - 1], p, q);
    }
  }

  lemma TiesAlike<T>(s: seq<T>, x: T, p: (T, T) -> bool, q: (T, T) -> bool)
    requires forall a, b :: p(a, b) == q(a, b)
    ensures TiesOf(s, x, p) == TiesOf(s, x, q)
  {
    KeepAlike(s, y => p(x, y) && p(y, x), y => q(x, y) && q(y, x));
  }

  lemma {:induction false} KeepBoth<T>(s: seq<T>, p: T -> bool, q: T -> bool)
    ensures Keep(Keep(s, p), q) == Keep(Keep(s, q), p)
  {
    if s != [] {
      var front, last := s[..|s| - 1], s[|s| - 1];
      KeepBoth(front, p, q);
      KeepSnoc(Keep(front, p), last, q);
      KeepSnoc(Keep(front, q), last, p);
    }
  }

  lemma {:induction false} KeepSorted<T>(s: seq<T>, p: T -> bool, le: (T, T) -> bool)
    requires Sorted(s, le)
    ensures Sorted(Keep(s, p), le)
  {
    if s != [] {
      KeepSorted(s[..|s| - 1], p, le);
      var kept := Keep(s[..|s| - 1], p);
      forall i | 0 <= i < |kept| ensures le(kept[i], s[|s| - 1]) {
        assert kept[i] in s[..|s| - 1];
      }
    }
  }

  // ---------------------------------------------------------------- insertion

  lemma {:induction false} InsertMultiset<T>(s: seq<T>, x: T, le: (T, T) -> bool)
    ensures multiset(Insert(s, x, le)) == multiset(s) + multiset{x}
    ensures forall y :: y in Insert(s, x, le) <==> y in s || y == x
  {
    if s != [] && !le(s[|s| - 1], x) {
      InsertMultiset(s[..|s| - 1], x, le);
      assert s == s[..|s| - 1] + [s[|s| - 1]];
    }
    assert forall y :: y in Insert(s, x, le) <==> y in multiset(Insert(s, x, le));
  }

  lemma {:induction false} InsertSorted<T(!new)>(s: seq<T>, x: T, le: (T, T) -> bool)
    requires TotalPreorder(le) && Sorted(s, le)
    ensures Sorted(Insert(s, x, le), le)
  {
    if s != [] && !le(s[|s| - 1], x) {
      var front := s[..|s| - 1];
      InsertSorted(front, x, le);
      InsertMultiset(front, x, le);
      var grown := Insert(front, x, le);
      forall i | 0 <= i < |grown| ensures le(grown[i], s[|s| - 1]) {
        assert grown[i] in front || grown[i] == x;
        if grown[i] in front { var k :| 0 <= k < |front| && front[k] == grown[i]; }
      }
    }
  }

  /** An element not below any of `a` is inserted behind `a`. */
  lemma {:induction false} InsertBehind<T>(a: seq<T>, b: seq<T>, x: T, le: (T, T) -> bool)
    requires forall y | y in a :: le(y, x)
    ensures Insert(a + b, x, le) == a + Insert(b, x, le)
  {
    if b == [] {
      assert a + b == a;
    } else {
      var s := a + b;
      assert s[|s| - 1] == b[|b| - 1];
      assert s[..|s| - 1] == a + b[..|b| - 1];
      if !le(b[|b| - 1], x) { InsertBehind(a, b[..|b| - 1], x, le); }
    }
  }

  lemma {:induction false} InsertFirst<T>(s: seq<T>, x: T, le: (T, T) -> bool)
    requires forall y | y in s :: !le(y, x)
    ensures Insert(s, x, le) == [x] + s
  {
    if s != [] { InsertFirst(s[..|s| - 1], x, le); }
  }

  lemma {:induction false} InsertKept<T(!new)>(s: seq<T>, x: T, p: T -> bool, le: (T, T) -> bool)
    requires TotalPreorder(le) && Sorted(s, le)
    ensures Keep(Insert(s, x, le), p) == if p(x) then Insert(Keep(s, p), x, le) else Keep(s, p)
  {
    if s == [] {
      assert Keep([x], p) == if p(x) then [x] else [] by { KeepAppend([], [x], p); }
    } else {
      var front, last := s[..|s| - 1], s[|s| - 1];
      if le(last, x) {
        assert (s + [x])[..|s|] == s;
        if p(x) {
          assert forall y | y in Keep(s, p) :: le(y, x);
          var kept := Keep(s, p);
          assert kept != [] ==> le(kept[|kept| - 1], x);
        }
      } else {
        InsertKept(front, x, p, le);
        var grown := Insert(front, x, le) + [last];
        assert grown[..|grown| - 1] == Insert(front, x, le);
        if p(last) {
          var kept := Keep(front, p) + [last];
          assert kept[..|kept| - 1] == Keep(front, p);
        }
      }
    }
  }

  // ------------------------------------------------------------------ sorting

  lemma {:induction false} SortMultiset<T>(s: seq<T>, le: (T, T) -> bool)
    ensures multiset(Sort(s, le)) == multiset(s)
    ensures forall y :: y in Sort(s, le) <==> y in s
  {
    if s != [] {
      SortMultiset(s[..|s| - 1], le);
      InsertMultiset(Sort(s[..|s| - 1], le), s[|s| - 1], le);
      hide Insert;
      assert s == s[..|s| - 1] + [s[|s| - 1]];
      assert forall y :: y in s <==> y in s[..|s| - 1] || y == s[|s| - 1];
    }
  }

  lemma {:induction false} SortSorted<T(!new)>(s: seq<T>, le: (T, T) -> bool)
    requires TotalPreorder(le)
    ensures Sorted(Sort(s, le), le)
  {
    if s != [] {
      SortSorted(s[..|s| - 1], le);
      InsertSorted(Sort(s[..|s| - 1], le), s[|s| - 1], le);
    }
  }

  lemma {:induction false} SortOfSorted<T>(s: seq<T>, le: (T, T) -> bool)
    requires Sorted(s, le)
    ensures Sort(s, le) == s
  {
    if s != [] {
      SortOfSorted(s[..|s| - 1], le);
      assert s == s[..|s| - 1] + [s[|s| - 1]];
      assert |s| > 1 ==> le(s[|s| - 2], s[|s| - 1]);
    }
  }

  lemma {:induction false} SortAppend<T>(a: seq<T>, b: seq<T>, le: (T, T) -> bool)
    ensures Sort(a + b, le) == InsertAll(Sort(a, le), b, le)
  {
    if b == [] {
      assert a + b == a;
    } else {
      assert (a + b)[..|a + b| - 1] == a + b[..|b| - 1];
      SortAppend(a, b[..|b| - 1], le);
    }
  }

  /** Sorting a list whose front part was sorted already changes nothing. */
  lemma SortResorted<T(!new)>(a: seq<T>, b: seq<T>, le: (T, T) -> bool)
    requires TotalPreorder(le)
    ensures Sort(Sort(a, le) + b, le) == Sort(a + b, le)
  {
    SortAppend(Sort(a, le), b, le);
    SortAppend(a, b, le);
    SortSorted(a, le);
    SortOfSorted(Sort(a, le), le);
  }

  lemma {:induction false} InsertAllBehind<T>(a: seq<T>, b: seq<T>, xs: seq<T>, le: (T, T) -> bool)
    requires forall y, x | y in a && x in xs :: le(y, x)
    ensures InsertAll(a + b, xs, le) == a + InsertAll(b, xs, le)
  {
    if xs != [] {
      InsertAllBehind(a, b, xs[..|xs| - 1], le);
      InsertBehind(a, InsertAll(b, xs[..|xs| - 1], le), xs[|xs| - 1], le);
    }
  }

  /** New elements not below any of `a` leave `a` where it is. */
  lemma SortKeepsFront<T(!new)>(a: seq<T>, b: seq<T>, xs: seq<T>, le: (T, T) -> bool)
    requires TotalPreorder(le) && Sorted(a + b, le)
    requires forall y, x | y in a && x in xs :: le(y, x)
    ensures Sort(a + b + xs, le) == a + Sort(b + xs, le)
  {
    SortAppend(a + b, xs, le);
    SortOfSorted(a + b, le);
    InsertAllBehind(a, b, xs, le);
    SortAppend(b, xs, le);
    assert Sorted(b, le) by {
      forall i, j | 0 <= i < j < |b| ensures le(b[i], b[j]) {
        assert (a + b)[|a| + i] == b[i] && (a + b)[|a| + j] == b[j];
      }
    }
    SortOfSorted(b, le);
  }

  /** Filtering and sorting commute. */
  lemma {:induction false} SortKept<T(!new)>(s: seq<T>, p: T -> bool, le: (T, T) -> bool)
    requires TotalPreorder(le)
    ensures Keep(Sort(s, le), p) == Sort(Keep(s, p), le)
  {
    if s != [] {
      var front := s[..|s| - 1];
      SortKept(front, p, le);
      SortSorted(front, le);
      InsertKept(Sort(front, le), s[|s| - 1], p, le);
      var kept := Keep(front, p) + [s[|s| - 1]];
      assert kept[..|kept| - 1] == Keep(front, p);
    }
  }

  /** `Sort` meets the contract of `Array.prototype.sort`. */
  lemma SortIsStable<T(!new)>(s: seq<T>, le: (T, T) -> bool)
    requires TotalPreorder(le)
    ensures IsStableSortOf(Sort(s, le), s, le)
  {
    SortSorted(s, le);
    forall x ensures TiesOf(Sort(s, le), x, le) == TiesOf(s, x, le) {
      SortKeepsTies(s, x, le);
    }
  }

  lemma SortKeepsTies<T(!new)>(s: seq<T>, x: T, le: (T, T) -> bool)
    requires TotalPreorder(le)
    ensures TiesOf(Sort(s, le), x, le) == TiesOf(s, x, le)
  {
    var ties := TiesOf(s, x, le);
    SortKept(s, y => le(x, y) && le(y, x), le);
    forall i, j | 0 <= i < j < |ties| ensures le(ties[i], ties[j]) {
      assert ties[i] in ties && ties[j] in ties;
    }
    SortOfSorted(ties, le);
  }

  lemma StableAlike<T(!new)>(t: seq<T>, s: seq<T>, p: (T, T) -> bool, q: (T, T) -> bool)
    requires IsStableSortOf(t, s, p) && forall a, b :: p(a, b) == q(a, b)
    ensures IsStableSortOf(t, s, q)
  {
    forall x ensures TiesOf(t, x, q) == TiesOf(s, x, q) {
      TiesAlike(t, x, p, q);
      TiesAlike(s, x, p, q);
    }
  }

  /** Any two stable sortings of the same list are equal. */
  lemma {:induction false} StableSortIsUnique<T(!new)>(t: seq<T>, u: seq<T>, s: seq<T>, le: (T, T) -> bool)
    requires TotalPreorder(le)
    requires IsStableSortOf(t, s, le) && IsStableSortOf(u, s, le)
    ensures t == u
  {
    SameTiesEqual(t, u, le);
  }

  lemma {:induction false} SameTiesEqual<T(!new)>(t: seq<T>, u: seq<T>, le: (T, T) -> bool)
    requires TotalPreorder(le) && Sorted(t, le) && Sorted(u, le)
    requires |t| == |u|
    requires forall x :: TiesOf(t, x, le) == TiesOf(u, x, le)
    ensures t == u
  {
    if t != [] {
      var n := |t| - 1;
      SameLast(t, u, le);
      forall x ensures TiesOf(t[..n], x, le) == TiesOf(u[..n], x, le) {
        LastTie(t, u, x, le);
      }
      SameTiesEqual(t[..n], u[..n], le);
      assert t == t[..n] + [t[n]] && u == u[..n] + [u[n]];
    }
  }

  lemma SameLast<T(!new)>(t: seq<T>, u: seq<T>, le: (T, T) -> bool)
    requires TotalPreorder(le) && Sorted(t, le) && Sorted(u, le)
    requires |t| == |u| > 0
    requires forall x :: TiesOf(t, x, le) == TiesOf(u, x, le)
    ensures t[|t| - 1] == u[|u| - 1]
  {
    var n := |t| - 1;
    LastIsGreatest(t, u, le);
    LastIsGreatest(u, t, le);
    var p, q := TiesOf(t[..n], t[n], le), TiesOf(u[..n], t[n], le);
    assert le(t[n], t[n]);
    assert TiesOf(t, t[n], le) == p + [t[n]];
    assert TiesOf(u, t[n], le) == q + [u[n]];
    assert (p + [t[n]])[|p|] == (q + [u[n]])[|p|];
  }

  lemma LastIsGreatest<T(!new)>(t: seq<T>, u: seq<T>, le: (T, T) -> bool)
    requires TotalPreorder(le) && Sorted(u, le)
    requires |t| == |u| > 0
    requires forall x :: TiesOf(t, x, le) == TiesOf(u, x, le)
    ensures le(t[|t| - 1], u[|u| - 1])
  {
    var a := t[|t| - 1];
    assert le(a, a);
    assert a in TiesOf(t, a, le);
    assert a in TiesOf(u, a, le);
    var i :| 0 <= i < |u| && u[i] == a;
  }

  lemma LastTie<T>(t: seq<T>, u: seq<T>, x: T, le: (T, T) -> bool)
    requires t != [] && u != [] && t[|t| - 1] == u[|u| - 1]
    requires TiesOf(t, x, le) == TiesOf(u, x, le)
    ensures TiesOf(t[..|t| - 1], x, le) == TiesOf(u[..|u| - 1], x, le)
  {
    var last := t[|t| - 1];
    var p, q := TiesOf(t[..|t| - 1], x, le), TiesOf(u[..|u| - 1], x, le);
    if le(x, last) && le(last, x) {
      assert (p + [last])[..|p|] == p && (q + [last])[..|q|] == q;
    }
  }

  // ------------------------------------------------------ extracting a minimum

  /** The first position of a least element. */
  function FirstMin<T>(s: seq<T>, le: (T, T) -> bool): (m: nat)
    requires s != []
    ensures m < |s|
  {
    if |s| == 1 then 0
    else
      var m := FirstMin(s[..|s| - 1], le);
      if le(s[m], s[|s| - 1]) then m else |s| - 1
  }

  function Without<T>(s: seq<T>, i: nat): (r: seq<T>)
    requires i < |s|
    ensures |r| == |s| - 1
  {
    s[..i] + s[i + 1..]
  }

  lemma SplitAround<T>(s: seq<T>, i: nat)
    requires i < |s|
    ensures s == s[..i] + [s[i]] + s[i + 1..] && Without(s, i) == s[..i] + s[i + 1..]
  {
  }

  lemma {:induction false} FirstMinLeast<T(!new)>(s: seq<T>, le: (T, T) -> bool)
    requires TotalPreorder(le) && s != []
    ensures forall x | x in s :: le(s[FirstMin(s, le)], x)
  {
    if |s| > 1 {
      FirstMinLeast(s[..|s| - 1], le);
      assert s == s[..|s| - 1] + [s[|s| - 1]];
    }
  }

  /** Repeated extraction of the first minimum is stable sorting. */
  lemma {:induction false} SortTakesFirstMin<T(!new)>(s: seq<T>, le: (T, T) -> bool)
    requires TotalPreorder(le) && s != []
    ensures Sort(s, le) == [s[FirstMin(s, le)]] + Sort(Without(s, FirstMin(s, le)), le)
  {
    var front, last := s[..|s| - 1], s[|s| - 1];
    if |s| == 1 {
      assert s == [last] && Without(s, 0) == [];
      assert Sort(front, le) == [];
    } else {
      assert s == front + [last];
      SortTakesFirstMin(front, le);
      FirstMinOfGrown(front, last, le);
      hide TotalPreorder;
    }
  }

  /** One more element behind a list whose first minimum sorts first. */
  lemma FirstMinOfGrown<T(!new)>(front: seq<T>, last: T, le: (T, T) -> bool)
    requires TotalPreorder(le) && front != []
    requires Sort(front, le) == [front[FirstMin(front, le)]] + Sort(Without(front, FirstMin(front, le)), le)
    ensures var s := front + [last];
            Sort(s, le) == [s[FirstMin(s, le)]] + Sort(Without(s, FirstMin(s, le)), le)
  {
    var s, m := front + [last], FirstMin(front, le);
    FirstMinSnoc(front, last, le);
    WithoutSnoc(front, last);
    assert s[..|front|] == front;
    if le(front[m], last) {
      InsertBehind([front[m]], Sort(Without(front, m), le), last, le);
      var rest := Without(front, m) + [last];
      assert rest[..|rest| - 1] == Without(front, m);
    } else {
      BelowAll(front, last, le);
      InsertFirst(Sort(front, le), last, le);
    }
  }

  lemma BelowAll<T(!new)>(s: seq<T>, x: T, le: (T, T) -> bool)
    requires TotalPreorder(le) && s != [] && !le(s[FirstMin(s, le)], x)
    ensures forall y | y in Sort(s, le) :: !le(y, x)
  {
    FirstMinLeast(s, le);
    SortMultiset(s, le);
  }

  // ------------------------------------------------ the list grown by one element

  lemma KeepSnoc<T>(s: seq<T>, x: T, p: T -> bool)
    ensures Keep(s + [x], p) == Keep(s, p) + if p(x) then [x] else []
  {
    assert (s + [x])[..|s|] == s;
  }

  lemma FirstMinSnoc<T>(s: seq<T>, x: T, le: (T, T) -> bool)
    requires s != []
    ensures FirstMin(s + [x], le) == if le(s[FirstMin(s, le)], x) then FirstMin(s, le) else |s|
  {
    assert (s + [x])[..|s|] == s;
  }

  lemma WithoutSnoc<T>(s: seq<T>, x: T)
    ensures Without(s + [x], |s|) == s
    ensures forall m: nat | m < |s| :: Without(s + [x], m) == Without(s, m) + [x]
  {
  }

  /** If the first minimum is kept by a filter, it is the first minimum of what is kept, and
      removing it commutes with the filter. */
  lemma {:induction false} FirstMinKept<T(!new)>(s: seq<T>, p: T -> bool, le: (T, T) -> bool)
    requires TotalPreorder(le) && s != [] && p(s[FirstMin(s, le)])
    ensures var m, kept := FirstMin(s, le), Keep(s, p);
            && kept != []
            && kept[FirstMin(kept, le)] == s[m]
            && Keep(Without(s, m), p) == Without(kept, FirstMin(kept, le))
  {
    var front, last := s[..|s| - 1], s[|s| - 1];
    assert s == front + [last];
    KeepSnoc(front, last, p);
    WithoutSnoc(front, last);
    if front == [] {
    } else if le(front[FirstMin(front, le)], last) {
      FirstMinKept(front, p, le);
      FirstMinKeptSnoc(front, last, p, le);
    } else {
      var kept := Keep(front, p);
      WithoutSnoc(kept, last);
      if kept != [] {
        FirstMinSnoc(kept, last, le);
        FirstMinLeast(front, le);
        assert kept[FirstMin(kept, le)] in front;
      }
    }
  }

  lemma FirstMinKeptSnoc<T>(s: seq<T>, x: T, p: T -> bool, le: (T, T) -> bool)
    requires s != [] && le(s[FirstMin(s, le)], x)
    requires var kept := Keep(s, p);
             && kept != []
             && kept[FirstMin(kept, le)] == s[FirstMin(s, le)]
             && Keep(Without(s, FirstMin(s, le)), p) == Without(kept, FirstMin(kept, le))
    ensures var kept := Keep(s + [x], p);
            && kept != []
            && kept[FirstMin(kept, le)] == s[FirstMin(s, le)]
            && Keep(Without(s, FirstMin(s, le)) + [x], p) == Without(kept, FirstMin(kept, le))
  {
    var kept := Keep(s, p);
    KeepSnoc(s, x, p);
    KeepSnoc(Without(s, FirstMin(s, le)), x, p);
    if p(x) {
      FirstMinSnoc(kept, x, le);
      WithoutSnoc(kept, x);
    }
  }
}

/** JavaScript's Array.prototype.sort, which is stable (section 22.1.3.27 of ECMA-262, since its tenth
    edition), for any comparator that orders totally up to ties. */
module StableSort {

  type Comparator<!T> = (T, T) -> int

  /** A comparator the sort order is defined for: sign-symmetric and transitive. */
  ghost predicate Consistent<T(!new)>(cmp: Comparator<T>) {
    && (forall a, b :: cmp(a, b) <= 0 <==> cmp(b, a) >= 0)
    && (forall a, b, c :: cmp(a, b) <= 0 && cmp(b, c) <= 0 ==> cmp(a, c) <= 0)
  }

  ghost predicate Sorted<T>(cmp: Comparator<T>, s: seq<T>) {
    forall i, j :: 0 <= i < j < |s| ==> cmp(s[i], s[j]) <= 0
  }

  /** x goes in front of the first element it does not exceed. */
  function Insert<T>(cmp: Comparator<T>, x: T, s: seq<T>): seq<T> {
    if s == [] then [x]
    else if cmp(x, s[0]) <= 0 then [x] + s
    else [s[0]] + Insert(cmp, x, s[1..])
  }

  function Sort<T>(cmp: Comparator<T>, s: seq<T>): seq<T> {
    if s == [] then [] else Insert(cmp, s[0], Sort(cmp, s[1..]))
  }

  function Filter<T>(p: T -> bool, s: seq<T>): seq<T> {
    if s == [] then []
    else if p(s[0]) then [s[0]] + Filter(p, s[1..])
    else Filter(p, s[1..])
  }

  lemma {:induction false} InsertMembers<T>(cmp: Comparator<T>, x: T, s: seq<T>)
    ensures multiset(Insert(cmp, x, s)) == multiset{x} + multiset(s)
    ensures forall y :: y in Insert(cmp, x, s) <==> y == x || y in s
  {
    if s != [] && cmp(x, s[0]) > 0 {
      InsertMembers(cmp, x, s[1..]);
      assert s == [s[0]] + s[1..];
    } else if s != [] {
      assert [x] + s == [x] + s;
    }
  }

  lemma {:induction false} InsertSorted<T(!new)>(cmp: Comparator<T>, x: T, s: seq<T>)
    requires Consistent(cmp) && Sorted(cmp, s)
    ensures Sorted(cmp, Insert(cmp, x, s))
  {
    if s != [] {
      if cmp(x, s[0]) > 0 {
        InsertSorted(cmp, x, s[1..]);
        InsertMembers(cmp, x, s[1..]);
        var t := Insert(cmp, x, s[1..]);
        forall j | 0 <= j < |t| ensures cmp(s[0], t[j]) <= 0 {
          assert t[j] in t;
        }
      }
    }
  }

  /** The result is sorted and a permutation. */
  lemma {:induction false} SortSorts<T(!new)>(cmp: Comparator<T>, s: seq<T>)
    requires Consistent(cmp)
    ensures Sorted(cmp, Sort(cmp, s))
    ensures multiset(Sort(cmp, s)) == multiset(s)
  {
    if s != [] {
      SortSorts(cmp, s[1..]);
      InsertSorted(cmp, s[0], Sort(cmp, s[1..]));
      InsertMembers(cmp, s[0], Sort(cmp, s[1..]));
      assert s == [s[0]] + s[1..];
    }
  }

  lemma {:induction false} SortIdentity<T(!new)>(cmp: Comparator<T>, s: seq<T>)
    requires Sorted(cmp, s)
    ensures Sort(cmp, s) == s
  {
    if s != [] {
      SortIdentity(cmp, s[1..]);
      assert s == [s[0]] + s[1..];
    }
  }

  lemma {:induction false} FilterMembers<T(!new)>(p: T -> bool, s: seq<T>)
    ensures forall x :: x in Filter(p, s) <==> x in s && p(x)
    ensures |Filter(p, s)| <= |s|
  {
    if s != [] {
      FilterMembers(p, s[1..]);
      assert s == [s[0]] + s[1..];
    }
  }

  lemma {:induction false} FilterAppend<T>(p: T -> bool, a: seq<T>, b: seq<T>)
    ensures Filter(p, a + b) == Filter(p, a) + Filter(p, b)
  {
    if a == [] {
      assert a + b == b;
    } else {
      assert (a + b)[1..] == a[1..] + b;
      FilterAppend(p, a[1..], b);
    }
  }

  lemma {:induction false} FilterAll<T>(p: T -> bool, s: seq<T>)
    requires forall x :: x in s ==> p(x)
    ensures Filter(p, s) == s
  {
    if s != [] {
      FilterAll(p, s[1..]);
    }
  }

  lemma {:induction false} FilterNone<T>(p: T -> bool, s: seq<T>)
    requires forall x :: x in s ==> !p(x)
    ensures Filter(p, s) == []
  {
    if s != [] {
      FilterNone(p, s[1..]);
    }
  }

  /** Two predicates that agree on the elements filter alike. */
  lemma {:induction false} FilterAgree<T>(p: T -> bool, q: T -> bool, s: seq<T>)
    requires forall x :: x in s ==> p(x) == q(x)
    ensures Filter(p, s) == Filter(q, s)
  {
    if s != [] {
      FilterAgree(p, q, s[1..]);
    }
  }

  /** A weaker selection beforehand makes no difference. */
  lemma {:induction false} FilterThrough<T>(p: T -> bool, q: T -> bool, s: seq<T>)
    requires forall x :: x in s && p(x) ==> q(x)
    ensures Filter(p, Filter(q, s)) == Filter(p, s)
  {
    if s != [] {
      assert s[0] in s;
      FilterThrough(p, q, s[1..]);
    }
  }

  lemma {:induction false} InsertBeforeAll<T>(cmp: Comparator<T>, x: T, s: seq<T>)
    requires forall y :: y in s ==> cmp(x, y) <= 0
    ensures Insert(cmp, x, s) == [x] + s
  {
  }

  lemma {:induction false} InsertThenFilter<T(!new)>(cmp: Comparator<T>, p: T -> bool, x: T, s: seq<T>)
    requires Consistent(cmp) && Sorted(cmp, s)
    ensures Filter(p, Insert(cmp, x, s)) == if p(x) then Insert(cmp, x, Filter(p, s)) else Filter(p, s)
  {
    if s == [] {
    } else if cmp(x, s[0]) <= 0 {
      assert ([x] + s)[1..] == s;
      FilterMembers(p, s);
      forall y | y in Filter(p, s) ensures cmp(x, y) <= 0 {
        assert y in s;
      }
      InsertBeforeAll(cmp, x, Filter(p, s));
    } else {
      InsertThenFilter(cmp, p, x, s[1..]);
      var t := Insert(cmp, x, s[1..]);
      assert ([s[0]] + t)[1..] == t;
      if p(s[0]) {
        var f := Filter(p, s);
        assert f[0] == s[0] && f[1..] == Filter(p, s[1..]);
      }
    }
  }

  /** Stability, in its strongest form: sorting and then selecting is selecting and then sorting,
      whatever is selected. */
  lemma {:induction false} SortThenFilter<T(!new)>(cmp: Comparator<T>, p: T -> bool, s: seq<T>)
    requires Consistent(cmp)
    ensures Filter(p, Sort(cmp, s)) == Sort(cmp, Filter(p, s))
  {
    if s != [] {
      SortSorts(cmp, s[1..]);
      SortThenFilter(cmp, p, s[1..]);
      InsertThenFilter(cmp, p, s[0], Sort(cmp, s[1..]));
    }
  }

  function Tied<T>(cmp: Comparator<T>, x: T): T -> bool { y => cmp(x, y) == 0 }

  /** Sorted, and each class of ties in its original order: what the language demands of sort. */
  ghost predicate StablySorted<T(!new)>(cmp: Comparator<T>, s: seq<T>, r: seq<T>) {
    Sorted(cmp, r) && forall x :: Filter(Tied(cmp, x), r) == Filter(Tied(cmp, x), s)
  }

  lemma SortStablySorts<T(!new)>(cmp: Comparator<T>, s: seq<T>)
    requires Consistent(cmp)
    ensures StablySorted(cmp, s, Sort(cmp, s))
  {
    SortSorts(cmp, s);
    forall x ensures Filter(Tied(cmp, x), Sort(cmp, s)) == Filter(Tied(cmp, x), s) {
      var f := Filter(Tied(cmp, x), s);
      SortThenFilter(cmp, Tied(cmp, x), s);
      FilterMembers(Tied(cmp, x), s);
      forall i, j | 0 <= i < j < |f| ensures cmp(f[i], f[j]) <= 0 {
        assert f[i] in f && f[j] in f;
        assert cmp(f[i], x) <= 0 && cmp(x, f[j]) <= 0;
      }
      SortIdentity(cmp, f);
    }
  }

  lemma SameHead<T(!new)>(cmp: Comparator<T>, a: seq<T>, b: seq<T>)
    requires Consistent(cmp) && Sorted(cmp, a) && Sorted(cmp, b) && a != []
    requires forall x :: Filter(Tied(cmp, x), a) == Filter(Tied(cmp, x), b)
    ensures b != [] && cmp(b[0], a[0]) <= 0
  {
    var p := Tied(cmp, a[0]);
    FilterMembers(p, a);
    FilterMembers(p, b);
    assert a[0] in Filter(p, b);
    assert a[0] in b;
  }

  /** There is only one stably sorted arrangement, so Sort is the result of any conforming sort. */
  lemma {:induction false} StableSortUnique<T(!new)>(cmp: Comparator<T>, a: seq<T>, b: seq<T>)
    requires Consistent(cmp) && Sorted(cmp, a) && Sorted(cmp, b)
    requires forall x :: Filter(Tied(cmp, x), a) == Filter(Tied(cmp, x), b)
    ensures a == b
    decreases |a|
  {
    if a == [] {
      if b != [] { SameHead(cmp, b, a); }
    } else {
      SameHead(cmp, a, b);
      SameHead(cmp, b, a);
      assert cmp(a[0], b[0]) == 0;
      var p := Tied(cmp, a[0]);
      assert Filter(p, a)[0] == a[0] && Filter(p, b)[0] == b[0];
      forall x ensures Filter(Tied(cmp, x), a[1..]) == Filter(Tied(cmp, x), b[1..]) {
        var q := Tied(cmp, x);
        assert Filter(q, a) == (if q(a[0]) then [a[0]] else []) + Filter(q, a[1..]);
        assert Filter(q, b) == (if q(b[0]) then [b[0]] else []) + Filter(q, b[1..]);
        assert Filter(q, a)[if q(a[0]) then 1 else 0..] == Filter(q, a[1..]);
        assert Filter(q, b)[if q(b[0]) then 1 else 0..] == Filter(q, b[1..]);
      }
      StableSortUnique(cmp, a[1..], b[1..]);
    }
  }

  lemma SortIsTheStableSort<T(!new)>(cmp: Comparator<T>, s: seq<T>, r: seq<T>)
    requires Consistent(cmp)
    ensures StablySorted(cmp, s, r) <==> r == Sort(cmp, s)
  {
    SortStablySorts(cmp, s);
    if StablySorted(cmp, s, r) {
      StableSortUnique(cmp, r, Sort(cmp, s));
    }
  }
}

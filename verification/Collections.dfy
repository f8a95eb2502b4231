/** Small vocabulary shared by the model: optional values, results and a few facts about sequences. */
module Collections {

  datatype Option<+T> = None | Some(value: T)

  datatype Result<+T, +E> = Success(value: T) | Failure(error: E)

  ghost predicate Distinct<T>(s: seq<T>) {
    forall i, j :: 0 <= i < j < |s| ==> s[i] != s[j]
  }

  /** The first position of x, or -1: JavaScript's Array.prototype.indexOf. */
  function IndexOf<T(==)>(s: seq<T>, x: T): (i: int)
    ensures -1 <= i < |s|
    ensures i == -1 <==> x !in s
    ensures 0 <= i ==> s[i] == x && x !in s[..i]
  {
    if s == [] then -1
    else if s[0] == x then 0
    else
      var i := IndexOf(s[1..], x);
      assert s == [s[0]] + s[1..];
      if i == -1 then -1 else
        assert s[..i + 1] == [s[0]] + s[1..][..i];
        i + 1
  }

  /** The sequence without position i: Array.prototype.splice(i, 1). */
  function RemoveAt<T>(s: seq<T>, i: nat): (r: seq<T>)
    requires i < |s|
    ensures |r| == |s| - 1
    ensures forall k :: 0 <= k < |r| ==> r[k] == if k < i then s[k] else s[k + 1]
  {
    s[..i] + s[i + 1..]
  }

  /** The elements of s that are not in gone, in their order. */
  function Without<T(==)>(s: seq<T>, gone: set<T>): (r: seq<T>) {
    if s == [] then []
    else if s[0] in gone then Without(s[1..], gone)
    else [s[0]] + Without(s[1..], gone)
  }

  lemma {:induction false} WithoutMembers<T(!new)>(s: seq<T>, gone: set<T>)
    ensures forall x :: x in Without(s, gone) <==> x in s && x !in gone
  {
    if s != [] {
      WithoutMembers(s[1..], gone);
      assert s == [s[0]] + s[1..];
    }
  }

  lemma {:induction false} WithoutDistinct<T(!new)>(s: seq<T>, gone: set<T>)
    requires Distinct(s)
    ensures Distinct(Without(s, gone))
  {
    if s != [] {
      WithoutDistinct(s[1..], gone);
      WithoutMembers(s[1..], gone);
      var rest := Without(s[1..], gone);
      forall j | 0 <= j < |rest| ensures s[0] != rest[j] {
        assert rest[j] in s[1..];
      }
    }
  }

  lemma {:induction false} WithoutAppend<T>(a: seq<T>, b: seq<T>, gone: set<T>)
    ensures Without(a + b, gone) == Without(a, gone) + Without(b, gone)
  {
    if a == [] {
      assert a + b == b;
    } else {
      assert (a + b)[1..] == a[1..] + b;
      WithoutAppend(a[1..], b, gone);
    }
  }

  lemma {:induction false} WithoutAbsent<T>(s: seq<T>, gone: set<T>)
    requires forall x :: x in s ==> x !in gone
    ensures Without(s, gone) == s
  {
    if s != [] {
      WithoutAbsent(s[1..], gone);
    }
  }

  /** Removing in two goes is removing at once. */
  lemma {:induction false} WithoutTwice<T>(s: seq<T>, gone: set<T>, more: set<T>)
    ensures Without(s, gone + more) == Without(Without(s, gone), more)
  {
    if s != [] {
      WithoutTwice(s[1..], gone, more);
    }
  }

  /** In a list without repetitions, dropping the position of x is dropping x. */
  lemma {:induction false} RemoveAtIsWithout<T>(s: seq<T>, i: nat)
    requires i < |s| && Distinct(s)
    ensures RemoveAt(s, i) == Without(s, {s[i]})
  {
    var x := s[i];
    assert s == s[..i] + ([x] + s[i + 1..]);
    WithoutAppend(s[..i], [x] + s[i + 1..], {x});
    WithoutAppend([x], s[i + 1..], {x});
    WithoutAbsent(s[..i], {x});
    WithoutAbsent(s[i + 1..], {x});
    assert Without([x], {x}) == [];
  }

  lemma RemoveAtMembers<T(!new)>(s: seq<T>, i: nat)
    requires i < |s| && Distinct(s)
    ensures Distinct(RemoveAt(s, i))
    ensures forall x :: x in RemoveAt(s, i) <==> x in s && x != s[i]
  {
    RemoveAtIsWithout(s, i);
    WithoutMembers(s, {s[i]});
  }

  lemma IndexOfDistinct<T>(s: seq<T>, i: nat)
    requires i < |s| && Distinct(s)
    ensures IndexOf(s, s[i]) == i
  {
  }
}

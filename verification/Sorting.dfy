/** Stable sorting by an order that may identify different elements, and orders on texts. */
module Sorting {
  // ---------- Orders ----------

  // Comparison of texts by code point.
  predicate TextLeq(a: string, b: string) {
    a == "" || (b != "" && (a[0] < b[0] || (a[0] == b[0] && TextLeq(a[1..], b[1..]))))
  }

  ghost predicate TotalPreorder<T(!new)>(leq: (T, T) -> bool) {
    && (forall x, y :: leq(x, y) || leq(y, x))
    && (forall x, y, z :: leq(x, y) && leq(y, z) ==> leq(x, z))
  }

  lemma {:induction false} TextLeqTotal(a: string, b: string)
    ensures TextLeq(a, b) || TextLeq(b, a)
    ensures TextLeq(a, b) && TextLeq(b, a) ==> a == b
  {
    if a != "" && b != "" && a[0] == b[0] {
      TextLeqTotal(a[1..], b[1..]);
      assert a == [a[0]] + a[1..] && b == [b[0]] + b[1..];
    }
  }

  lemma {:induction false} TextLeqTransitive(a: string, b: string, c: string)
    requires TextLeq(a, b) && TextLeq(b, c)
    ensures TextLeq(a, c)
  {
    if a != "" && a[0] == b[0] == c[0] {
      TextLeqTransitive(a[1..], b[1..], c[1..]);
    }
  }

  lemma TextLeqIsPreorder()
    ensures TotalPreorder(TextLeq)
  {
    forall a, b
      ensures TextLeq(a, b) || TextLeq(b, a)
    {
      TextLeqTotal(a, b);
    }
    forall a, b, c | TextLeq(a, b) && TextLeq(b, c)
      ensures TextLeq(a, c)
    {
      TextLeqTransitive(a, b, c);
    }
  }

  // ---------- Stable insertion sort ----------

  function Insert<T>(x: T, s: seq<T>, leq: (T, T) -> bool): seq<T> {
    if s == [] || leq(x, s[0]) then [x] + s else [s[0]] + Insert(x, s[1..], leq)
  }

  // Equal elements stay in their order.
  function Sort<T>(s: seq<T>, leq: (T, T) -> bool): seq<T> {
    if s == [] then [] else Insert(s[0], Sort(s[1..], leq), leq)
  }

  predicate Sorted<T>(s: seq<T>, leq: (T, T) -> bool) {
    forall i, j | 0 <= i < j < |s| :: leq(s[i], s[j])
  }

  // The order tells all elements of the sequence apart.
  predicate Distinguishes<T(==)>(leq: (T, T) -> bool, s: seq<T>) {
    forall x, y | x in s && y in s :: leq(x, y) && leq(y, x) ==> x == y
  }

  lemma {:induction false} InsertPermutes<T>(x: T, s: seq<T>, leq: (T, T) -> bool)
    ensures multiset(Insert(x, s, leq)) == multiset{x} + multiset(s)
  {
    if s != [] && !leq(x, s[0]) {
      InsertPermutes(x, s[1..], leq);
      assert s == [s[0]] + s[1..];
    }
  }

  lemma {:induction false} SortPermutes<T>(s: seq<T>, leq: (T, T) -> bool)
    ensures multiset(Sort(s, leq)) == multiset(s)
  {
    if s != [] {
      SortPermutes(s[1..], leq);
      InsertPermutes(s[0], Sort(s[1..], leq), leq);
      assert s == [s[0]] + s[1..];
    }
  }

  function Without<T>(s: seq<T>, j: nat): seq<T>
    requires j < |s|
  {
    s[..j] + s[j + 1..]
  }

  lemma WithoutOne<T>(s: seq<T>, j: nat)
    requires j < |s|
    ensures multiset(s) == multiset{s[j]} + multiset(Without(s, j))
  {
    assert s == s[..j] + [s[j]] + s[j + 1..];
  }

  // Taking one element out of two arrangements of the same elements leaves arrangements of the rest.
  lemma SameRest<T>(a: seq<T>, b: seq<T>, i: nat, j: nat)
    requires i < |a| && j < |b| && a[i] == b[j] && multiset(a) == multiset(b)
    ensures multiset(Without(a, i)) == multiset(Without(b, j))
  {
    WithoutOne(a, i);
    WithoutOne(b, j);
    assert multiset(Without(a, i)) == multiset(a) - multiset{a[i]};
  }

  lemma RepeatsCountTwice<T>(s: seq<T>, i: nat, j: nat)
    requires i < j < |s| && s[i] == s[j]
    ensures multiset(s)[s[i]] >= 2
  {
    assert s == s[..j] + [s[j]] + s[j + 1..];
    assert s[..j][i] == s[i] && s[i] in s[..j];
  }

  lemma SameMultisetSameMembers<T>(a: seq<T>, b: seq<T>)
    requires multiset(a) == multiset(b)
    ensures |a| == |b|
    ensures forall x :: x in a <==> x in b
  {
    forall x
      ensures x in a <==> x in b
    {
      assert x in a <==> x in multiset(a);
      assert x in b <==> x in multiset(b);
    }
    assert |a| == |multiset(a)| == |multiset(b)| == |b|;
  }

  lemma {:induction false} InsertSorts<T(!new)>(x: T, s: seq<T>, leq: (T, T) -> bool)
    requires TotalPreorder(leq) && Sorted(s, leq)
    ensures Sorted(Insert(x, s, leq), leq)
  {
    if s != [] && !leq(x, s[0]) {
      InsertSorts(x, s[1..], leq);
      InsertPermutes(x, s[1..], leq);
      var rest := Insert(x, s[1..], leq);
      forall j | 0 <= j < |rest|
        ensures leq(s[0], rest[j])
      {
        assert rest[j] in multiset(rest);
        if rest[j] != x {
          assert rest[j] in multiset(s[1..]);
          var k :| 0 <= k < |s[1..]| && s[1..][k] == rest[j];
          assert leq(s[0], s[k + 1]);
        }
      }
    }
  }

  lemma {:induction false} SortSorts<T(!new)>(s: seq<T>, leq: (T, T) -> bool)
    requires TotalPreorder(leq)
    ensures Sorted(Sort(s, leq), leq)
  {
    if s != [] {
      SortSorts(s[1..], leq);
      InsertSorts(s[0], Sort(s[1..], leq), leq);
    }
  }

  lemma {:induction false} SortedIsFixed<T>(s: seq<T>, leq: (T, T) -> bool)
    requires Sorted(s, leq)
    ensures Sort(s, leq) == s
  {
    if s != [] {
      SortedIsFixed(s[1..], leq);
      assert s == [s[0]] + s[1..];
    }
  }

  lemma SortIdempotent<T(!new)>(s: seq<T>, leq: (T, T) -> bool)
    requires TotalPreorder(leq)
    ensures Sort(Sort(s, leq), leq) == Sort(s, leq)
  {
    SortSorts(s, leq);
    SortedIsFixed(Sort(s, leq), leq);
  }

  // ---------- When the result does not depend on the order of the input ----------

  // Over elements the order tells apart, a sorted arrangement is the only one.
  lemma {:induction false} SortedIsUnique<T>(a: seq<T>, b: seq<T>, leq: (T, T) -> bool, elements: set<T>)
    requires Sorted(a, leq) && Sorted(b, leq) && multiset(a) == multiset(b)
    requires forall x | x in a :: x in elements
    requires forall x, y | x in elements && y in elements :: leq(x, y) && leq(y, x) ==> x == y
    requires forall x | x in elements :: leq(x, x)
    ensures a == b
  {
    SameMultisetSameMembers(a, b);
    if a != [] {
      assert b[0] in a && a[0] in b;
      HeadIsFirst(a, leq, b[0]);
      HeadIsFirst(b, leq, a[0]);
      SameRest(a, b, 0, 0);
      WithoutHead(a, leq);
      WithoutHead(b, leq);
      SortedIsUnique(Without(a, 0), Without(b, 0), leq, elements);
    }
  }

  lemma WithoutHead<T>(s: seq<T>, leq: (T, T) -> bool)
    requires Sorted(s, leq) && s != []
    ensures Sorted(Without(s, 0), leq)
    ensures s == [s[0]] + Without(s, 0)
    ensures forall x | x in Without(s, 0) :: x in s
  {
    assert Without(s, 0) == s[1..];
  }

  lemma HeadIsFirst<T>(s: seq<T>, leq: (T, T) -> bool, x: T)
    requires Sorted(s, leq) && x in s && leq(x, x)
    ensures leq(s[0], x)
  {
    var i :| 0 <= i < |s| && s[i] == x;
  }

  lemma SortIgnoresOrder<T(!new)>(a: seq<T>, b: seq<T>, leq: (T, T) -> bool)
    requires TotalPreorder(leq) && Distinguishes(leq, a) && multiset(a) == multiset(b)
    ensures Sort(a, leq) == Sort(b, leq)
  {
    SortSorts(a, leq);
    SortSorts(b, leq);
    SortPermutes(a, leq);
    SortPermutes(b, leq);
    SameMultisetSameMembers(Sort(a, leq), a);
    SortedIsUnique(Sort(a, leq), Sort(b, leq), leq, set x | x in a);
  }

  // Inserting two elements the order does not tell apart keeps the order of insertion.
  lemma {:induction false} EqualKeysKeepOrder<T(!new)>(x: T, y: T, s: seq<T>, leq: (T, T) -> bool)
    requires TotalPreorder(leq) && leq(x, y) && leq(y, x) && x != y
    ensures Insert(x, Insert(y, s, leq), leq) != Insert(y, Insert(x, s, leq), leq)
  {
    if s == [] || leq(x, s[0]) {
      assert s != [] ==> leq(y, s[0]);
      assert Insert(x, [y] + s, leq) == [x] + ([y] + s);
      assert Insert(y, [x] + s, leq) == [y] + ([x] + s);
      assert ([x] + ([y] + s))[0] != ([y] + ([x] + s))[0];
    } else {
      assert !leq(y, s[0]);
      EqualKeysKeepOrder(x, y, s[1..], leq);
      var a, b := Insert(y, s, leq), Insert(x, s, leq);
      assert a[0] == s[0] && a[1..] == Insert(y, s[1..], leq);
      assert b[0] == s[0] && b[1..] == Insert(x, s[1..], leq);
      assert Insert(x, a, leq) == [s[0]] + Insert(x, a[1..], leq);
      assert Insert(y, b, leq) == [s[0]] + Insert(y, b[1..], leq);
      assert ([s[0]] + Insert(x, a[1..], leq))[1..] != ([s[0]] + Insert(y, b[1..], leq))[1..];
    }
  }

  lemma {:induction false} TakeOut<T>(s: seq<T>, x: T) returns (rest: seq<T>)
    requires x in s
    ensures multiset([x] + rest) == multiset(s)
  {
    if s[0] == x {
      rest := s[1..];
      assert s == [x] + rest;
    } else {
      var shorter := TakeOut(s[1..], x);
      rest := [s[0]] + shorter;
      assert s == [s[0]] + s[1..];
      assert multiset([x] + rest) == multiset{s[0]} + multiset([x] + shorter);
    }
  }

  // Two arrangements that differ in the order of two elements with equal keys sort differently.
  lemma CollisionShows<T(!new)>(a: seq<T>, x: T, y: T, leq: (T, T) -> bool) returns (b: seq<T>, c: seq<T>)
    requires TotalPreorder(leq) && x in a && y in a && leq(x, y) && leq(y, x) && x != y
    ensures multiset(b) == multiset(a) && multiset(c) == multiset(a) && Sort(b, leq) != Sort(c, leq)
  {
    var withoutX := TakeOut(a, x);
    SameMultisetSameMembers([x] + withoutX, a);
    assert y in [x] + withoutX;
    var rest := TakeOut(withoutX, y);
    b, c := [x] + ([y] + rest), [y] + ([x] + rest);
    assert multiset(b) == multiset{x} + multiset([y] + rest) == multiset([x] + withoutX);
    assert multiset(c) == multiset(b);
    SortOfTwo(x, y, rest, leq);
    SortOfTwo(y, x, rest, leq);
    EqualKeysKeepOrder(x, y, Sort(rest, leq), leq);
  }

  lemma SortOfTwo<T>(x: T, y: T, rest: seq<T>, leq: (T, T) -> bool)
    ensures Sort([x] + ([y] + rest), leq) == Insert(x, Insert(y, Sort(rest, leq), leq), leq)
  {
    assert ([x] + ([y] + rest))[1..] == [y] + rest && ([y] + rest)[1..] == rest;
  }

  // Sorting gives one result for all arrangements of a sequence exactly when the order tells its
  // elements apart.
  lemma OrderIndependence<T(!new)>(a: seq<T>, leq: (T, T) -> bool)
    requires TotalPreorder(leq)
    ensures Distinguishes(leq, a) <==>
            forall b | multiset(b) == multiset(a) :: Sort(b, leq) == Sort(a, leq)
  {
    if Distinguishes(leq, a) {
      forall b | multiset(b) == multiset(a)
        ensures Sort(b, leq) == Sort(a, leq)
      {
        SortIgnoresOrder(a, b, leq);
      }
    } else {
      var x, y :| x in a && y in a && leq(x, y) && leq(y, x) && x != y;
      var b, c := CollisionShows(a, x, y, leq);
      assert Sort(b, leq) != Sort(a, leq) || Sort(c, leq) != Sort(a, leq);
    }
  }

  // ---------- When two sequences sort to the same one ----------

  // The elements the order does not tell from x, as they stand.
  function Alike<T>(s: seq<T>, x: T, leq: (T, T) -> bool): seq<T> {
    if s == [] then []
    else (if leq(x, s[0]) && leq(s[0], x) then [s[0]] else []) + Alike(s[1..], x, leq)
  }

  // Inserting passes over no element with the same key.
  lemma {:induction false} InsertKeepsAlike<T(!new)>(y: T, s: seq<T>, x: T, leq: (T, T) -> bool)
    requires TotalPreorder(leq)
    ensures Alike(Insert(y, s, leq), x, leq) == Alike([y] + s, x, leq)
  {
    assert ([y] + s)[1..] == s;
    if s != [] && !leq(y, s[0]) {
      InsertKeepsAlike(y, s[1..], x, leq);
      var inserted := Insert(y, s[1..], leq);
      assert ([s[0]] + inserted)[1..] == inserted;
      assert ([y] + s[1..])[1..] == s[1..];
    }
  }

  lemma {:induction false} SortKeepsAlike<T(!new)>(s: seq<T>, x: T, leq: (T, T) -> bool)
    requires TotalPreorder(leq)
    ensures Alike(Sort(s, leq), x, leq) == Alike(s, x, leq)
  {
    if s != [] {
      SortKeepsAlike(s[1..], x, leq);
      InsertKeepsAlike(s[0], Sort(s[1..], leq), x, leq);
      assert ([s[0]] + Sort(s[1..], leq))[1..] == Sort(s[1..], leq);
    }
  }

  lemma {:induction false} AlikeAreMembers<T>(s: seq<T>, x: T, leq: (T, T) -> bool)
    ensures forall y | y in Alike(s, x, leq) :: y in s && leq(x, y) && leq(y, x)
  {
    if s != [] {
      AlikeAreMembers(s[1..], x, leq);
    }
  }

  // The head of a sorted sequence is not above that of another one with an element alike.
  lemma HeadIsNotAbove<T(!new)>(a: seq<T>, b: seq<T>, leq: (T, T) -> bool)
    requires TotalPreorder(leq) && Sorted(a, leq) && a != [] && b != []
    requires Alike(a, b[0], leq) != []
    ensures leq(a[0], b[0])
  {
    AlikeAreMembers(a, b[0], leq);
    var y := Alike(a, b[0], leq)[0];
    HeadIsFirst(a, leq, y);
  }

  lemma AlikeTail<T>(a: seq<T>, b: seq<T>, x: T, leq: (T, T) -> bool)
    requires a != [] && b != [] && a[0] == b[0] && Alike(a, x, leq) == Alike(b, x, leq)
    ensures Alike(a[1..], x, leq) == Alike(b[1..], x, leq)
  {
    var head := if leq(x, a[0]) && leq(a[0], x) then [a[0]] else [];
    assert Alike(a[1..], x, leq) == Alike(a, x, leq)[|head|..];
    assert Alike(b[1..], x, leq) == Alike(b, x, leq)[|head|..];
  }

  lemma HeadIsAlike<T(!new)>(s: seq<T>, leq: (T, T) -> bool)
    requires TotalPreorder(leq)
    ensures s != [] ==> Alike(s, s[0], leq) != []
  {
  }

  lemma {:induction false} SortedByAlike<T(!new)>(a: seq<T>, b: seq<T>, leq: (T, T) -> bool)
    requires TotalPreorder(leq) && Sorted(a, leq) && Sorted(b, leq)
    requires SameByKey(a, b, leq)
    ensures a == b
  {
    HeadIsAlike(b, leq);
    if a != [] {
      assert Alike(a, a[0], leq) == Alike(b, a[0], leq) != [];
      assert Alike(b, b[0], leq) == Alike(a, b[0], leq);
      HeadIsNotAbove(b, a, leq);
      HeadIsNotAbove(a, b, leq);
      assert Alike(a, a[0], leq)[0] == a[0] && Alike(b, a[0], leq)[0] == b[0];
      forall x
        ensures Alike(a[1..], x, leq) == Alike(b[1..], x, leq)
      {
        AlikeTail(a, b, x, leq);
      }
      SortedByAlike(a[1..], b[1..], leq);
      assert a == [a[0]] + a[1..] && b == [b[0]] + b[1..];
    }
  }

  ghost predicate SameByKey<T(!new)>(a: seq<T>, b: seq<T>, leq: (T, T) -> bool) {
    forall x :: Alike(a, x, leq) == Alike(b, x, leq)
  }

  lemma SortedSameByKey<T(!new)>(s: seq<T>, leq: (T, T) -> bool)
    requires TotalPreorder(leq)
    ensures SameByKey(Sort(s, leq), s, leq)
  {
    forall x
      ensures Alike(Sort(s, leq), x, leq) == Alike(s, x, leq)
    {
      SortKeepsAlike(s, x, leq);
    }
  }

  // Two sequences sort to the same one exactly when the elements with any one key are the same, in
  // the same order.
  lemma SortExact<T(!new)>(a: seq<T>, b: seq<T>, leq: (T, T) -> bool)
    requires TotalPreorder(leq)
    ensures Sort(a, leq) == Sort(b, leq) <==> SameByKey(a, b, leq)
  {
    var left, right := Sort(a, leq), Sort(b, leq);
    SortedSameByKey(a, leq);
    SortedSameByKey(b, leq);
    if SameByKey(a, b, leq) {
      SortSorts(a, leq);
      SortSorts(b, leq);
      forall x
        ensures Alike(left, x, leq) == Alike(right, x, leq)
      {
        assert Alike(left, x, leq) == Alike(a, x, leq) == Alike(b, x, leq) == Alike(right, x, leq);
      }
      SortedByAlike(left, right, leq);
    }
    if left == right {
      forall x
        ensures Alike(a, x, leq) == Alike(b, x, leq)
      {
        assert Alike(left, x, leq) == Alike(a, x, leq) && Alike(right, x, leq) == Alike(b, x, leq);
      }
    }
  }
}

/** Python's order on strings, and `sorted` for orders in which no two elements tie. */
module Sorting {

  /** `a < b` for strings: by the first character that differs. */
  predicate Less(a: string, b: string) {
    b != "" && (a == "" || a[0] < b[0] || (a[0] == b[0] && Less(a[1..], b[1..])))
  }

  /** `a` comes first where the two part: there it ends, or has the smaller character. */
  ghost predicate PartsBelow(a: string, b: string, k: nat) {
    && k <= |a| && k < |b| && a[..k] == b[..k]
    && (k == |a| || a[k] < b[k])
  }

  lemma {:induction false} LessExactly(a: string, b: string)
    ensures Less(a, b) <==> exists k: nat :: PartsBelow(a, b, k)
  {
    if b != "" {
      if a == "" || a[0] < b[0] {
        assert PartsBelow(a, b, 0);
      } else {
        LessExactly(a[1..], b[1..]);
        if Less(a, b) {
          var k: nat :| PartsBelow(a[1..], b[1..], k);
          assert a[..k + 1] == [a[0]] + a[1..][..k] && b[..k + 1] == [b[0]] + b[1..][..k];
          assert PartsBelow(a, b, k + 1);
        }
        if k: nat :| PartsBelow(a, b, k) {
          if k > 0 {
            assert a[0] == a[..k][0] && b[0] == b[..k][0];
            assert a[1..][..k - 1] == a[..k][1..] && b[1..][..k - 1] == b[..k][1..];
            assert PartsBelow(a[1..], b[1..], k - 1);
          }
        }
      }
    }
  }

  lemma {:induction false} LessIsTotal(a: string, b: string)
    ensures a == b <==> !Less(a, b) && !Less(b, a)
    ensures !(Less(a, b) && Less(b, a))
  {
    if a != "" && b != "" {
      LessIsTotal(a[1..], b[1..]);
      assert a == [a[0]] + a[1..] && b == [b[0]] + b[1..];
    }
  }

  lemma {:induction false} LessIsTransitive(a: string, b: string, c: string)
    requires Less(a, b) && Less(b, c)
    ensures Less(a, c)
  {
    if a != "" && a[0] == b[0] && b[0] == c[0] {
      LessIsTransitive(a[1..], b[1..], c[1..]);
    }
  }

  /** Of two different elements exactly one comes before the other, and `before` chains. */
  ghost predicate Linear<T(!new)>(before: (T, T) -> bool, xs: set<T>) {
    && (forall a, b :: a in xs && b in xs ==> if a == b then !before(a, b) else before(a, b) != before(b, a))
    && (forall a, b, c :: a in xs && b in xs && c in xs && before(a, b) && before(b, c) ==> before(a, c))
  }

  ghost predicate Ordered<T(!new)>(before: (T, T) -> bool, xs: seq<T>) {
    forall i, j :: 0 <= i < j < |xs| ==> before(xs[i], xs[j])
  }

  function Insert<T>(before: (T, T) -> bool, x: T, xs: seq<T>): seq<T> {
    if xs == [] || before(x, xs[0]) then [x] + xs else [xs[0]] + Insert(before, x, xs[1..])
  }

  function Sort<T>(before: (T, T) -> bool, xs: seq<T>): seq<T> {
    if xs == [] then [] else Insert(before, xs[0], Sort(before, xs[1..]))
  }

  lemma {:induction false} InsertKeepsOrder<T(!new)>(before: (T, T) -> bool, x: T, xs: seq<T>, all: set<T>)
    requires Linear(before, all) && x in all && x !in xs && (forall y :: y in xs ==> y in all)
    requires Ordered(before, xs)
    ensures Ordered(before, Insert(before, x, xs))
    ensures forall y :: y in Insert(before, x, xs) <==> y == x || y in xs
    ensures |Insert(before, x, xs)| == |xs| + 1
  {
    if xs != [] && !before(x, xs[0]) {
      var rest := Insert(before, x, xs[1..]);
      assert xs == [xs[0]] + xs[1..];
      InsertKeepsOrder(before, x, xs[1..], all);
      forall j | 0 <= j < |rest|
        ensures before(xs[0], rest[j])
      {
        assert rest[j] in rest;
        if rest[j] != x {
          var k :| 0 <= k < |xs[1..]| && xs[1..][k] == rest[j];
          assert xs[k + 1] == rest[j];
        }
      }
    } else if xs != [] {
      forall j | 0 <= j < |xs|
        ensures before(x, xs[j])
      {
        assert j == 0 || before(xs[0], xs[j]);
      }
    }
  }

  /** `sorted`: the same elements, each before the next. */
  lemma {:induction false} SortOrders<T(!new)>(before: (T, T) -> bool, xs: seq<T>, all: set<T>)
    requires Linear(before, all) && (forall y :: y in xs ==> y in all)
    requires forall i, j :: 0 <= i < j < |xs| ==> xs[i] != xs[j]
    ensures Ordered(before, Sort(before, xs))
    ensures forall y :: y in Sort(before, xs) <==> y in xs
    ensures |Sort(before, xs)| == |xs|
  {
    if xs != [] {
      assert xs == [xs[0]] + xs[1..];
      SortOrders(before, xs[1..], all);
      assert xs[0] !in xs[1..] by {
        forall k | 0 <= k < |xs[1..]|
          ensures xs[1..][k] != xs[0]
        {
          assert xs[1..][k] == xs[k + 1];
        }
      }
      InsertKeepsOrder(before, xs[0], Sort(before, xs[1..]), all);
    }
  }
}

/** Listing a set in ascending order, under any total order. */
module SetOrder {

  ghost predicate TotalOrder<T(!new)>(less: (T, T) -> bool) {
    && (forall a, b :: less(a, b) ==> !less(b, a) && a != b)
    && (forall a, b :: less(a, b) || less(b, a) || a == b)
    && (forall a, b, c :: less(a, b) && less(b, c) ==> less(a, c))
  }

  ghost predicate InOrder<T>(less: (T, T) -> bool, items: seq<T>) {
    forall i, j :: 0 <= i < j < |items| ==> less(items[i], items[j])
  }

  lemma {:induction false} LeastExists<T(!new)>(less: (T, T) -> bool, items: set<T>) returns (least: T)
    requires TotalOrder(less) && items != {}
    ensures least in items && forall x :: x in items && x != least ==> less(least, x)
    decreases |items|
  {
    var x :| x in items;
    var rest := items - {x};
    if rest == {} {
      assert items == {x};
      least := x;
    } else {
      var y := LeastExists(less, rest);
      least := if less(x, y) then x else y;
      assert forall z :: z in items ==> z == x || z in rest;
    }
  }

  /** `sorted(items)`. */
  method SortSet<T(!new, ==)>(less: (T, T) -> bool, items: set<T>) returns (sorted: seq<T>)
    requires TotalOrder(less)
    ensures InOrder(less, sorted) && (forall x :: x in sorted <==> x in items)
  {
    sorted := [];
    var rest := items;
    while rest != {}
      invariant InOrder(less, sorted) && rest <= items
      invariant forall x :: x in sorted <==> x in items - rest
      invariant forall i, x :: 0 <= i < |sorted| && x in rest ==> less(sorted[i], x)
      decreases |rest|
    {
      ghost var least := LeastExists(less, rest);
      var next :| next in rest && forall x :: x in rest && x != next ==> less(next, x);
      sorted := sorted + [next];
      rest := rest - {next};
    }
  }

  lemma {:induction false} ListingExists<T(!new)>(less: (T, T) -> bool, items: set<T>)
    requires TotalOrder(less)
    ensures exists listing: seq<T> :: InOrder(less, listing) && forall x :: x in listing <==> x in items
    decreases |items|
  {
    if items == {} {
      var none: seq<T> := [];
      assert InOrder(less, none) && forall x :: x in none <==> x in items;
    } else {
      var least := LeastExists(less, items);
      ListingExists(less, items - {least});
      var rest: seq<T> :| InOrder(less, rest) && forall x :: x in rest <==> x in items - {least};
      var listing := [least] + rest;
      forall i, j | 0 <= i < j < |listing| ensures less(listing[i], listing[j]) {
        assert listing[j] == rest[j - 1] && rest[j - 1] in rest;
      }
      assert InOrder(less, listing) && forall x :: x in listing <==> x in items;
    }
  }

  /** A set has one ascending listing. */
  lemma {:induction false} OneOrder<T(!new)>(less: (T, T) -> bool, a: seq<T>, b: seq<T>)
    requires TotalOrder(less) && InOrder(less, a) && InOrder(less, b) && forall x :: x in a <==> x in b
    ensures a == b
  {
    assert a != [] ==> a[0] in a;
    assert b != [] ==> b[0] in b;
    if a != [] {
      var i :| 0 <= i < |b| && b[i] == a[0];
      var j :| 0 <= j < |a| && a[j] == b[0];
      assert a[0] == b[0];
      forall x ensures x in a[1..] <==> x in b[1..] {
        TailMembers(less, a, x);
        TailMembers(less, b, x);
      }
      OneOrder(less, a[1..], b[1..]);
    }
  }

  lemma TailMembers<T(!new)>(less: (T, T) -> bool, a: seq<T>, x: T)
    requires TotalOrder(less) && InOrder(less, a) && a != []
    ensures x in a[1..] <==> x in a && x != a[0]
  {
    if x in a[1..] {
      var k :| 0 <= k < |a[1..]| && a[1..][k] == x;
      assert less(a[0], a[k + 1]);
    }
    if x in a && x != a[0] {
      var k :| 0 <= k < |a| && a[k] == x;
      assert a[1..][k - 1] == x;
    }
  }
}

/** Python's order on strings, and sorting by it. */
module TextOrder {
  import opened SetOrder

  /** Lexicographic order by code point. */
  predicate Less(a: string, b: string) {
    if b == [] then false
    else if a == [] then true
    else if a[0] != b[0] then a[0] < b[0]
    else Less(a[1..], b[1..])
  }

  /** Python's order, without recursion: a proper prefix comes first, and otherwise the
      first character that differs decides. */
  ghost predicate Before(a: string, b: string) {
    || (a != b && a <= b)
    || exists k :: 0 <= k < |a| && k < |b| && a[..k] == b[..k] && a[k] < b[k]
  }

  lemma {:induction false} LessIsBefore(a: string, b: string)
    ensures Less(a, b) <==> Before(a, b)
  {
    if a != [] && b != [] && a[0] == b[0] {
      LessIsBefore(a[1..], b[1..]);
      BeforeTail(a, b);
    } else if a != [] && b != [] && a[0] < b[0] {
      assert a[..0] == b[..0];
    }
  }

  lemma BeforeTail(a: string, b: string)
    requires a != [] && b != [] && a[0] == b[0]
    ensures Before(a, b) <==> Before(a[1..], b[1..])
  {
    var x, y := a[1..], b[1..];
    assert a == [a[0]] + x && b == [b[0]] + y;
    if k :| 0 <= k < |a| && k < |b| && a[..k] == b[..k] && a[k] < b[k] {
      assert x[..k - 1] == a[..k][1..] && y[..k - 1] == b[..k][1..];
      assert x[k - 1] < y[k - 1];
    }
    if k :| 0 <= k < |x| && k < |y| && x[..k] == y[..k] && x[k] < y[k] {
      assert a[..k + 1] == [a[0]] + x[..k] && b[..k + 1] == [b[0]] + y[..k];
      assert a[k + 1] < b[k + 1];
    }
  }

  /** The order on tuples of texts: the first component that differs decides. */
  ghost predicate TupleBefore(a: seq<string>, b: seq<string>) {
    |a| == |b| && exists k :: 0 <= k < |a| && a[..k] == b[..k] && Before(a[k], b[k])
  }

  lemma {:induction false} LessAsymmetric(a: string, b: string)
    ensures Less(a, b) ==> !Less(b, a) && a != b
  {
    if a != [] && b != [] && a[0] == b[0] {
      LessAsymmetric(a[1..], b[1..]);
    }
  }

  lemma {:induction false} LessTotal(a: string, b: string)
    ensures Less(a, b) || Less(b, a) || a == b
  {
    if a != [] && b != [] && a[0] == b[0] {
      LessTotal(a[1..], b[1..]);
      assert a == [a[0]] + a[1..] && b == [b[0]] + b[1..];
    }
  }

  lemma {:induction false} LessTransitive(a: string, b: string, c: string)
    requires Less(a, b) && Less(b, c)
    ensures Less(a, c)
  {
    if a != [] && a[0] == b[0] == c[0] {
      LessTransitive(a[1..], b[1..], c[1..]);
    }
  }

  lemma LessIsOrder()
    ensures TotalOrder(Less)
  {
    forall a, b ensures (Less(a, b) ==> !Less(b, a) && a != b) && (Less(a, b) || Less(b, a) || a == b) {
      LessAsymmetric(a, b);
      LessTotal(a, b);
    }
    forall a, b, c | Less(a, b) && Less(b, c) ensures Less(a, c) {
      LessTransitive(a, b, c);
    }
  }

  predicate AtMost(a: string, b: string) {
    a == b || Less(a, b)
  }

  /** Ascending, repetitions allowed. */
  predicate Ordered(s: seq<string>) {
    forall i, j :: 0 <= i < j < |s| ==> AtMost(s[i], s[j])
  }

  function Insert(x: string, s: seq<string>): (r: seq<string>)
    requires Ordered(s)
    ensures Ordered(r) && multiset(r) == multiset(s) + multiset{x}
  {
    if s == [] then [x]
    else if AtMost(x, s[0]) then
      InsertFirst(x, s);
      assert multiset([x] + s) == multiset{x} + multiset(s);
      [x] + s
    else
      LessTotal(x, s[0]);
      var rest := Insert(x, s[1..]);
      InsertLater(x, s, rest);
      assert s == [s[0]] + s[1..];
      [s[0]] + rest
  }

  /** `sorted(values)`. */
  function Sort(values: seq<string>): (r: seq<string>)
    ensures Ordered(r) && multiset(r) == multiset(values)
  {
    if values == [] then []
    else
      assert values == [values[0]] + values[1..];
      Insert(values[0], Sort(values[1..]))
  }

  lemma InsertFirst(x: string, s: seq<string>)
    requires Ordered(s) && s != [] && AtMost(x, s[0])
    ensures Ordered([x] + s)
  {
    forall j | 0 <= j < |s| ensures AtMost(x, s[j]) {
      if x != s[0] && j > 0 && s[0] != s[j] {
        LessTransitive(x, s[0], s[j]);
      }
    }
  }

  lemma InsertLater(x: string, s: seq<string>, rest: seq<string>)
    requires Ordered(s) && s != [] && Less(s[0], x)
    requires Ordered(rest) && multiset(rest) == multiset(s[1..]) + multiset{x}
    ensures Ordered([s[0]] + rest)
  {
    forall j | 0 <= j < |rest| ensures AtMost(s[0], rest[j]) {
      assert rest[j] in multiset(rest);
      if rest[j] != x {
        assert rest[j] in s[1..];
        var k :| 0 <= k < |s[1..]| && s[1..][k] == rest[j];
        assert AtMost(s[0], s[k + 1]);
      }
    }
  }

  lemma TailOf(a: seq<string>)
    requires a != []
    ensures multiset(a[1..]) == multiset(a) - multiset{a[0]}
    ensures Ordered(a) ==> Ordered(a[1..])
  {
    assert a == [a[0]] + a[1..];
  }

  /** A multiset has one ascending listing. */
  lemma {:induction false} OneSorting(a: seq<string>, b: seq<string>)
    requires Ordered(a) && Ordered(b) && multiset(a) == multiset(b)
    ensures a == b
  {
    hide Less, Ordered;
    if a == [] || b == [] {
      assert |multiset(a)| == |a| && |multiset(b)| == |b|;
    } else {
      FirstIsLeast(a, b);
      FirstIsLeast(b, a);
      LessAsymmetric(a[0], b[0]);
      TailOf(a);
      TailOf(b);
      OneSorting(a[1..], b[1..]);
      assert a == [a[0]] + a[1..] && b == [b[0]] + b[1..];
    }
  }

  lemma FirstIsLeast(a: seq<string>, b: seq<string>)
    requires Ordered(a) && a != [] && b != [] && multiset(a) == multiset(b)
    ensures AtMost(a[0], b[0])
  {
    assert b[0] in multiset(b);
    assert b[0] in a;
  }

  /** Sorting compares multisets. */
  lemma SortComparesMultisets(a: seq<string>, b: seq<string>)
    ensures Sort(a) == Sort(b) <==> multiset(a) == multiset(b)
  {
    if multiset(a) == multiset(b) {
      OneSorting(Sort(a), Sort(b));
    }
  }
}

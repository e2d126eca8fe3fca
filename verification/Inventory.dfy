/** The digest of a list of identities, independent of its order
    (tools/local-container/container_release_evidence.py:149-153). */
module Inventory {
  import opened Basics
  import opened Encoding
  import opened TextOrder

  const COLON := ':'
  const NEWLINE := '\n'

  /** `str(n)` as text. */
  function DecimalText(n: nat): (t: string)
    ensures |t| > 0 && COLON !in t
  {
    var d := Decimal(n);
    seq(|d|, i requires 0 <= i < |d| => d[i] as int as char)
  }

  lemma DecimalTextInjective(a: nat, b: nat)
    requires DecimalText(a) == DecimalText(b)
    ensures a == b
  {
    var x, y := Decimal(a), Decimal(b);
    assert |x| == |DecimalText(a)| == |DecimalText(b)| == |y|;
    forall i | 0 <= i < |x| ensures x[i] == y[i] {
      assert DecimalText(a)[i] == DecimalText(b)[i];
    }
    DecimalInjective(a, b);
  }

  /** `len(value):value` and a line end; the value may hold anything. */
  function Item(value: string): string {
    DecimalText(|value|) + ([COLON] + (value + [NEWLINE]))
  }

  /** Its length in base ten, a colon, the value itself and a line end. */
  lemma ItemSpelled(value: string)
    ensures ReadDecimal(Ascii(DecimalText(|value|))) == |value|
    ensures Item(value) == DecimalText(|value|) + ":" + value + "\n"
  {
    DecimalReads(|value|);
    DigitsSpelled(|value|);
  }

  lemma DigitsSpelled(n: nat)
    ensures Ascii(DecimalText(n)) == Decimal(n)
  {
    var d, t := Decimal(n), DecimalText(n);
    forall i | 0 <= i < |d| ensures Ascii(t)[i] == d[i] {
      assert d[i] in DIGITS && t[i] as int == d[i] as int;
    }
  }

  function Joined(values: seq<string>): string {
    if values == [] then [] else Item(values[0]) + Joined(values[1..])
  }

  /** `_identity_set_sha256`, over any digest of text. */
  function IdentitySetSha256(sha: string -> string, values: seq<string>): string {
    sha(Joined(Sort(values)))
  }

  // ---- unique decoding ----

  /** The text before the first colon ends at that colon. */
  lemma FirstColon(a: string, x: string, b: string, y: string)
    requires COLON !in a && COLON !in b && a + ([COLON] + x) == b + ([COLON] + y)
    ensures a == b && x == y
  {
    var w := a + ([COLON] + x);
    assert w[|a|] == COLON && w[|b|] == COLON by { assert w == b + ([COLON] + y); }
    assert forall i :: 0 <= i < |a| ==> w[i] == a[i];
    assert forall i :: 0 <= i < |b| ==> w[i] == b[i];
    assert |a| == |b|;
    Split(a, [COLON] + x, b, [COLON] + y);
    Split([COLON], x, [COLON], y);
  }

  lemma ItemsCancel(v: string, rest: string, w: string, rest': string)
    requires Item(v) + rest == Item(w) + rest'
    ensures v == w && rest == rest'
  {
    hide DecimalText;
    var a, b := DecimalText(|v|), DecimalText(|w|);
    var x, y := (v + [NEWLINE]) + rest, (w + [NEWLINE]) + rest';
    assert Item(v) + rest == a + ([COLON] + x);
    assert Item(w) + rest' == b + ([COLON] + y);
    FirstColon(a, x, b, y);
    DecimalTextInjective(|v|, |w|);
    Split(v + [NEWLINE], rest, w + [NEWLINE], rest');
    Split(v, [NEWLINE], w, [NEWLINE]);
  }

  lemma {:induction false} JoinedInjective(a: seq<string>, b: seq<string>)
    requires Joined(a) == Joined(b)
    ensures a == b
  {
    if a != [] && b != [] {
      ItemsCancel(a[0], Joined(a[1..]), b[0], Joined(b[1..]));
      JoinedInjective(a[1..], b[1..]);
      assert a == [a[0]] + a[1..] && b == [b[0]] + b[1..];
    }
  }

  /** Items follow each other in the order of the list. */
  lemma {:induction false} JoinedAppend(a: seq<string>, b: seq<string>)
    ensures Joined(a + b) == Joined(a) + Joined(b)
    ensures forall v :: Joined([v]) == Item(v)
  {
    if a != [] {
      JoinedAppend(a[1..], b);
      assert (a + b)[1..] == a[1..] + b;
    } else {
      assert a + b == b;
    }
  }

  /** What is digested is the values in ascending order, by whatever way they were sorted. */
  lemma DigestOfAscending(sha: string -> string, values: seq<string>, s: seq<string>)
    requires Ordered(s) && multiset(s) == multiset(values)
    ensures IdentitySetSha256(sha, values) == sha(Joined(s))
  {
    OneSorting(Sort(values), s);
  }

  /** Equal digests exactly for equal multisets, whatever the values contain. */
  lemma InventoryDigestIsMultiset(sha: string -> string, a: seq<string>, b: seq<string>)
    requires Injective(sha)
    ensures IdentitySetSha256(sha, a) == IdentitySetSha256(sha, b) <==> multiset(a) == multiset(b)
  {
    hide Sort;
    if IdentitySetSha256(sha, a) == IdentitySetSha256(sha, b) {
      JoinedInjective(Sort(a), Sort(b));
    }
    SortComparesMultisets(a, b);
  }
}

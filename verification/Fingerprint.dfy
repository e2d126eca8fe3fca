/** The logical fingerprint of a database (tools/local-stack/local_stack.py:663-797):
    every value becomes a frame (length of the type name, type name, length of the
    rendering, rendering), containers are rendered by a nested digest, and the digest
    of a catalog absorbs labelled metadata sections and then every table. */
module Fingerprint {
  import opened Basics
  import opened Encoding

  /** The values a query returns. `Text` is a string by its UTF-8 bytes, `Float` by
      its `hex()` text and `Timestamp` by its ISO text; a `Dict` lists its entries in
      the order the source visits them (by `repr` of the key). `Other` is any other
      type, by type name and `str`. */
  datatype Value =
    | Null
    | Raw(bytes: Bytes)
    | Text(utf8: Bytes)
    | Float(hex: Bytes)
    | Bool(truth: bool)
    | Int(number: int)
    | Timestamp(iso: Bytes)
    | List(items: seq<Value>)
    | Tuple(items: seq<Value>)
    | Dict(entries: seq<Pair>)
    | Other(typeName: Bytes, rendering: Bytes)
  datatype Pair = Pair(key: Value, value: Value)

  type Digester = Bytes -> Bytes

  // ---- type names ----

  const NONE_TYPE: Bytes := [78, 111, 110, 101, 84, 121, 112, 101]   // NoneType
  const BYTES_TYPE: Bytes := [98, 121, 116, 101, 115]                // bytes
  const STR_TYPE: Bytes := [115, 116, 114]                           // str
  const FLOAT_TYPE: Bytes := [102, 108, 111, 97, 116]                // float
  const BOOL_TYPE: Bytes := [98, 111, 111, 108]                      // bool
  const INT_TYPE: Bytes := [105, 110, 116]                           // int
  const DATETIME_TYPE: Bytes := [100, 97, 116, 101, 116, 105, 109, 101] // datetime
  const LIST_TYPE: Bytes := [108, 105, 115, 116]                     // list
  const TUPLE_TYPE: Bytes := [116, 117, 112, 108, 101]               // tuple
  const DICT_TYPE: Bytes := [100, 105, 99, 116]                      // dict
  const TRUE_TEXT: Bytes := [84, 114, 117, 101]
  const FALSE_TEXT: Bytes := [70, 97, 108, 115, 101]

  predicate BuiltinName(name: Bytes) {
    name in {NONE_TYPE, BYTES_TYPE, STR_TYPE, FLOAT_TYPE, BOOL_TYPE, INT_TYPE, DATETIME_TYPE, LIST_TYPE, TUPLE_TYPE,
        DICT_TYPE}
  }

  function TypeName(v: Value): Bytes {
    match v
    case Null => NONE_TYPE
    case Raw(_) => BYTES_TYPE
    case Text(_) => STR_TYPE
    case Float(_) => FLOAT_TYPE
    case Bool(_) => BOOL_TYPE
    case Int(_) => INT_TYPE
    case Timestamp(_) => DATETIME_TYPE
    case List(_) => LIST_TYPE
    case Tuple(_) => TUPLE_TYPE
    case Dict(_) => DICT_TYPE
    case Other(name, _) => name
  }

  /** Only a built-in type carries a built-in type's name. */
  predicate Proper(v: Value) {
    match v
    case List(items) => AllProper(items)
    case Tuple(items) => AllProper(items)
    case Dict(entries) => forall i :: 0 <= i < |entries| ==> Proper(entries[i].key) && Proper(entries[i].value)
    case Other(name, _) => !BuiltinName(name)
    case _ => true
  }

  predicate AllProper(items: seq<Value>) {
    forall i :: 0 <= i < |items| ==> Proper(items[i])
  }

  // ---- frames ----

  /** None when a length does not fit its field (the source raises OverflowError). */
  function Frame(name: Bytes, rendered: Bytes): Option<Bytes> {
    if |name| < Power256(2) && |rendered| < Power256(8)
    then Some(BigEndian(|name|, 2) + (name + (BigEndian(|rendered|, 8) + rendered)))
    else None
  }

  function Render(sha: Digester, v: Value): Option<Bytes>
    decreases v, 0
  {
    match v
    case Null => Some([])
    case Raw(bytes) => Some(bytes)
    case Text(utf8) => Some(utf8)
    case Float(hex) => Some(hex)
    case Bool(truth) => Some(if truth then TRUE_TEXT else FALSE_TEXT)
    case Int(number) => Some(SignedDecimal(number))
    case Timestamp(iso) => Some(iso)
    case List(items) => Digested(sha, FrameAll(sha, items))
    case Tuple(items) => Digested(sha, FrameAll(sha, items))
    case Dict(entries) => Digested(sha, FramePairs(sha, entries))
    case Other(_, rendering) => Some(rendering)
  }

  function Digested(sha: Digester, inner: Option<Bytes>): Option<Bytes> {
    if inner.None? then None else Some(sha(inner.value))
  }

  function FrameValue(sha: Digester, v: Value): Option<Bytes>
    decreases v, 1
  {
    var rendered := Render(sha, v);
    if rendered.None? then None else Frame(TypeName(v), rendered.value)
  }

  function Joined(a: Option<Bytes>, b: Option<Bytes>): Option<Bytes> {
    if a.None? || b.None? then None else Some(a.value + b.value)
  }

  function FrameAll(sha: Digester, items: seq<Value>): Option<Bytes>
    decreases items, 0
  {
    if items == [] then Some([])
    else Joined(FrameValue(sha, items[0]), FrameAll(sha, items[1..]))
  }

  function FramePairs(sha: Digester, entries: seq<Pair>): Option<Bytes>
    decreases entries, 0
  {
    if entries == [] then Some([])
    else Joined(FramePair(sha, entries[0]), FramePairs(sha, entries[1..]))
  }

  function FramePair(sha: Digester, p: Pair): Option<Bytes>
    decreases p, 0
  {
    Joined(FrameValue(sha, p.key), FrameValue(sha, p.value))
  }

  // ---- the format, read back ----

  /** A frame is two bytes of length, the type name, eight bytes of length, the rendering. */
  lemma FrameReads(name: Bytes, rendered: Bytes)
    ensures Frame(name, rendered).Some? <==> |name| < 0x1_0000 && |rendered| < 0x1_0000_0000_0000_0000
    ensures Frame(name, rendered).Some? ==>
              var f, n := Frame(name, rendered).value, |name|;
              && |f| == 2 + n + 8 + |rendered|
              && ReadBigEndian(f[..2]) == n && f[2..2 + n] == name
              && ReadBigEndian(f[2 + n..10 + n]) == |rendered| && f[10 + n..] == rendered
  {
    assert Power256(1) == 0x100 && Power256(2) == 0x1_0000 && Power256(3) == 0x100_0000 && Power256(4) == 0x1_0000_0000;
    assert Power256(5) == 0x100_0000_0000 && Power256(6) == 0x1_0000_0000_0000 && Power256(7) == 0x100_0000_0000_0000;
    assert Power256(8) == 0x1_0000_0000_0000_0000;
    if Frame(name, rendered).Some? {
      BigEndianReads(|name|, 2);
      BigEndianReads(|rendered|, 8);
      FrameParts(BigEndian(|name|, 2), name, BigEndian(|rendered|, 8), rendered);
    }
  }

  lemma FrameParts(a: Bytes, b: Bytes, c: Bytes, d: Bytes)
    requires |a| == 2 && |c| == 8
    ensures var f := a + (b + (c + d));
            f[..2] == a && f[2..2 + |b|] == b && f[2 + |b|..10 + |b|] == c && f[10 + |b|..] == d
  {
  }

  /** `type(value).__name__`. */
  lemma TypeNamesSpelled(v: Value)
    ensures v.Null? ==> TypeName(v) == Ascii("NoneType")
    ensures v.Raw? ==> TypeName(v) == Ascii("bytes")
    ensures v.Text? ==> TypeName(v) == Ascii("str")
    ensures v.Float? ==> TypeName(v) == Ascii("float")
    ensures v.Bool? ==> TypeName(v) == Ascii("bool")
    ensures v.Int? ==> TypeName(v) == Ascii("int")
    ensures v.Timestamp? ==> TypeName(v) == Ascii("datetime")
    ensures v.List? ==> TypeName(v) == Ascii("list")
    ensures v.Tuple? ==> TypeName(v) == Ascii("tuple")
    ensures v.Dict? ==> TypeName(v) == Ascii("dict")
  {
  }

  /** Booleans are rendered as words, lists and tuples by the digest of their frames one
      after the other, dictionaries by that of each key before its value. */
  lemma RenderingsSpelled(sha: Digester, a: Value, b: Value)
    ensures Render(sha, Bool(true)) == Some(Ascii("True")) && Render(sha, Bool(false)) == Some(Ascii("False"))
    ensures Render(sha, Null) == Some([])
    ensures FrameValue(sha, a).Some? && FrameValue(sha, b).Some? ==>
              var both := Some(sha(FrameValue(sha, a).value + FrameValue(sha, b).value));
              Render(sha, List([a, b])) == both && Render(sha, Tuple([a, b])) == both
                  && Render(sha, Dict([Pair(a, b)])) == both
  {
    hide FrameValue;
    assert TRUE_TEXT == Ascii("True") && FALSE_TEXT == Ascii("False");
    assert [a, b][1..] == [b];
    FrameOne(sha, b);
    FrameOnePair(sha, Pair(a, b));
  }

  // ---- unique decoding ----

  lemma Reassociate(a: Bytes, b: Bytes, c: Bytes, d: Bytes, t: Bytes)
    ensures (a + (b + (c + d))) + t == a + (b + (c + (d + t)))
  {
  }

  /** A frame ends where its own lengths say: what follows it cannot be confused with it. */
  lemma FramesCancel(name: Bytes, rendered: Bytes, tail: Bytes, name': Bytes, rendered': Bytes, tail': Bytes)
    requires Frame(name, rendered).Some? && Frame(name', rendered').Some?
    requires Frame(name, rendered).value + tail == Frame(name', rendered').value + tail'
    ensures name == name' && rendered == rendered' && tail == tail'
  {
    hide Power256, BigEndian;
    var n, n' := BigEndian(|name|, 2), BigEndian(|name'|, 2);
    var r, r' := BigEndian(|rendered|, 8), BigEndian(|rendered'|, 8);
    Reassociate(n, name, r, rendered, tail);
    Reassociate(n', name', r', rendered', tail');
    Split(n, name + (r + (rendered + tail)), n', name' + (r' + (rendered' + tail')));
    BigEndianInjective(|name|, |name'|, 2);
    Split(name, r + (rendered + tail), name', r' + (rendered' + tail'));
    Split(r, rendered + tail, r', rendered' + tail');
    BigEndianInjective(|rendered|, |rendered'|, 8);
    Split(rendered, tail, rendered', tail');
  }

  lemma BuiltinNamesDiffer(v: Value, w: Value)
    requires Proper(v) && Proper(w) && TypeName(v) == TypeName(w)
    ensures v.Null? == w.Null? && v.Raw? == w.Raw? && v.Text? == w.Text? && v.Float? == w.Float? && v.Bool? == w.Bool?
    ensures v.Int? == w.Int? && v.Timestamp? == w.Timestamp? && v.List? == w.List? && v.Tuple? == w.Tuple?
    ensures v.Dict? == w.Dict?
  {
    assert |NONE_TYPE| == 8 == |DATETIME_TYPE| && NONE_TYPE[0] != DATETIME_TYPE[0];
    assert |BYTES_TYPE| == |FLOAT_TYPE| == |TUPLE_TYPE| == 5;
    assert BYTES_TYPE[0] == 98 && FLOAT_TYPE[0] == 102 && TUPLE_TYPE[0] == 116;
    assert |STR_TYPE| == |INT_TYPE| == 3 && STR_TYPE[0] != INT_TYPE[0];
    assert |BOOL_TYPE| == |LIST_TYPE| == |DICT_TYPE| == 4;
    assert BOOL_TYPE[0] == 98 && LIST_TYPE[0] == 108 && DICT_TYPE[0] == 100;
  }

  /** Framed values are prefix-free and uniquely decodable, at every depth of nesting. */
  lemma {:induction false} ValuesCancel(sha: Digester, v: Value, tail: Bytes, w: Value, tail': Bytes)
    requires Injective(sha) && Proper(v) && Proper(w)
    requires FrameValue(sha, v).Some? && FrameValue(sha, w).Some?
    requires FrameValue(sha, v).value + tail == FrameValue(sha, w).value + tail'
    ensures v == w && tail == tail'
    decreases v, 1
  {
    hide Frame, TypeName, Proper;
    FramesCancel(TypeName(v), Render(sha, v).value, tail, TypeName(w), Render(sha, w).value, tail');
    BuiltinNamesDiffer(v, w);
    RenderingsDiffer(sha, v, w);
  }

  lemma {:induction false} RenderingsDiffer(sha: Digester, v: Value, w: Value)
    requires Injective(sha) && Proper(v) && Proper(w) && TypeName(v) == TypeName(w)
    requires v.Null? == w.Null? && v.Raw? == w.Raw? && v.Text? == w.Text? && v.Float? == w.Float? && v.Bool? == w.Bool?
    requires v.Int? == w.Int? && v.Timestamp? == w.Timestamp? && v.List? == w.List? && v.Tuple? == w.Tuple?
    requires v.Dict? == w.Dict?
    requires Render(sha, v).Some? && Render(sha, v) == Render(sha, w)
    ensures v == w
    decreases v, 0
  {
    match v
    case Bool(_) => assert |TRUE_TEXT| != |FALSE_TEXT|;
    case Int(number) => SignedDecimalInjective(number, w.number);
    case List(items) => SequencesDiffer(sha, items, w.items);
    case Tuple(items) => SequencesDiffer(sha, items, w.items);
    case Dict(entries) => PairsDiffer(sha, entries, w.entries);
    case _ =>
  }

  /** Equal streams of frames are frames of equal value sequences. */
  lemma {:induction false} SequencesDiffer(sha: Digester, a: seq<Value>, b: seq<Value>)
    requires Injective(sha) && AllProper(a) && AllProper(b)
    requires FrameAll(sha, a).Some? && FrameAll(sha, a) == FrameAll(sha, b)
    ensures a == b
    decreases a, 0
  {
    hide Frame, Proper;
    if a == [] || b == [] {
      if a != [] { FramesNonempty(sha, a[0]); }
      if b != [] { FramesNonempty(sha, b[0]); }
    } else {
      ValuesCancel(sha, a[0], FrameAll(sha, a[1..]).value, b[0], FrameAll(sha, b[1..]).value);
      SequencesDiffer(sha, a[1..], b[1..]);
      assert a == [a[0]] + a[1..] && b == [b[0]] + b[1..];
    }
  }

  lemma {:induction false} PairsDiffer(sha: Digester, a: seq<Pair>, b: seq<Pair>)
    requires Injective(sha)
    requires forall i :: 0 <= i < |a| ==> Proper(a[i].key) && Proper(a[i].value)
    requires forall i :: 0 <= i < |b| ==> Proper(b[i].key) && Proper(b[i].value)
    requires FramePairs(sha, a).Some? && FramePairs(sha, a) == FramePairs(sha, b)
    ensures a == b
    decreases a, 0
  {
    hide Frame, Proper;
    if a == [] || b == [] {
      if a != [] { FramesNonempty(sha, a[0].key); }
      if b != [] { FramesNonempty(sha, b[0].key); }
    } else {
      PairCancels(sha, a[0], FramePairs(sha, a[1..]).value, b[0], FramePairs(sha, b[1..]).value);
      PairsDiffer(sha, a[1..], b[1..]);
      assert a == [a[0]] + a[1..] && b == [b[0]] + b[1..];
    }
  }

  lemma {:induction false} PairCancels(sha: Digester, p: Pair, rest: Bytes, q: Pair, rest': Bytes)
    requires Injective(sha) && Proper(p.key) && Proper(p.value) && Proper(q.key) && Proper(q.value)
    requires FramePair(sha, p).Some? && FramePair(sha, q).Some?
    requires FramePair(sha, p).value + rest == FramePair(sha, q).value + rest'
    ensures p == q && rest == rest'
    decreases p, 0
  {
    hide Frame, Proper;
    var k, x := FrameValue(sha, p.key).value, FrameValue(sha, p.value).value;
    var k', x' := FrameValue(sha, q.key).value, FrameValue(sha, q.value).value;
    assert (k + x) + rest == k + (x + rest) && (k' + x') + rest' == k' + (x' + rest');
    ValuesCancel(sha, p.key, x + rest, q.key, x' + rest');
    ValuesCancel(sha, p.value, rest, q.value, rest');
  }

  lemma FramesNonempty(sha: Digester, v: Value)
    ensures FrameValue(sha, v).Some? ==> |FrameValue(sha, v).value| >= 10
  {
    hide Power256, BigEndian, Render, TypeName;
  }

  // ---- streams of frames ----

  lemma JoinedAssociates(a: Option<Bytes>, b: Option<Bytes>, c: Option<Bytes>)
    ensures Joined(Joined(a, b), c) == Joined(a, Joined(b, c))
  {
    if a.Some? && b.Some? && c.Some? {
      assert (a.value + b.value) + c.value == a.value + (b.value + c.value);
    }
  }

  lemma JoinedUnits(a: Option<Bytes>)
    ensures Joined(Some([]), a) == a == Joined(a, Some([]))
  {
    if a.Some? {
      assert [] + a.value == a.value == a.value + [];
    }
  }

  lemma {:induction false} FrameAllAppend(sha: Digester, a: seq<Value>, b: seq<Value>)
    ensures FrameAll(sha, a + b) == Joined(FrameAll(sha, a), FrameAll(sha, b))
  {
    hide Joined, FrameValue;
    if a == [] {
      assert a + b == b;
      JoinedUnits(FrameAll(sha, b));
    } else {
      assert (a + b)[0] == a[0] && (a + b)[1..] == a[1..] + b;
      FrameAllAppend(sha, a[1..], b);
      JoinedAssociates(FrameValue(sha, a[0]), FrameAll(sha, a[1..]), FrameAll(sha, b));
    }
  }

  lemma FrameOne(sha: Digester, v: Value)
    ensures FrameAll(sha, [v]) == FrameValue(sha, v)
  {
    hide Joined, FrameValue;
    assert [v][1..] == [];
    JoinedUnits(FrameValue(sha, v));
  }

  lemma FrameAllSnoc(sha: Digester, items: seq<Value>, k: nat)
    requires k < |items|
    ensures FrameAll(sha, items[..k + 1]) == Joined(FrameAll(sha, items[..k]), FrameValue(sha, items[k]))
    ensures FrameAll(sha, items).Some? ==> FrameAll(sha, items[..k + 1]).Some?
  {
    hide FrameAll, FrameValue;
    assert items[..k + 1] == items[..k] + [items[k]];
    FrameAllAppend(sha, items[..k], [items[k]]);
    FrameOne(sha, items[k]);
    assert items == items[..k + 1] + items[k + 1..];
    FrameAllAppend(sha, items[..k + 1], items[k + 1..]);
  }

  // ---- the running digest ----

  /** A hash object: what it has absorbed, in order. */
  class Digest {
    var absorbed: Bytes

    constructor (seed: Bytes)
      ensures absorbed == seed
    {
      absorbed := seed;
    }

    method Update(chunk: Bytes)
      modifies this
      ensures absorbed == old(absorbed) + chunk
    {
      absorbed := absorbed + chunk;
    }

    /** `_fingerprint_value`: containers go through a digest of their own. */
    method FingerprintValue(sha: Digester, v: Value) returns (ok: bool)
      modifies this
      ensures ok <==> FrameValue(sha, v).Some?
      ensures ok ==> absorbed == old(absorbed) + FrameValue(sha, v).value
      decreases v, 1
    {
      hide Frame;
      var rendered: Bytes;
      match v {
        case Null => rendered := [];
        case Raw(bytes) => rendered := bytes;
        case Text(utf8) => rendered := utf8;
        case Float(hex) => rendered := hex;
        case Bool(truth) => rendered := if truth then TRUE_TEXT else FALSE_TEXT;
        case Int(number) => rendered := SignedDecimal(number);
        case Timestamp(iso) => rendered := iso;
        case Other(_, rendering) => rendered := rendering;
        case List(items) =>
          var nested := new Digest([]);
          ok := nested.FingerprintSequence(sha, items);
          if !ok { return; }
          assert nested.absorbed == FrameAll(sha, items).value;
          rendered := sha(nested.absorbed);
        case Tuple(items) =>
          var nested := new Digest([]);
          ok := nested.FingerprintSequence(sha, items);
          if !ok { return; }
          assert nested.absorbed == FrameAll(sha, items).value;
          rendered := sha(nested.absorbed);
        case Dict(entries) =>
          var nested := new Digest([]);
          ok := nested.FingerprintEntries(sha, entries);
          if !ok { return; }
          assert nested.absorbed == FramePairs(sha, entries).value;
          rendered := sha(nested.absorbed);
      }
      assert Render(sha, v).Some? && Render(sha, v).value == rendered;
      ok := AbsorbFrame(TypeName(v), rendered);
    }

    method AbsorbFrame(name: Bytes, rendered: Bytes) returns (ok: bool)
      modifies this
      ensures ok <==> Frame(name, rendered).Some?
      ensures ok ==> absorbed == old(absorbed) + Frame(name, rendered).value
    {
      hide Power256, BigEndian;
      if |name| >= Power256(2) || |rendered| >= Power256(8) {
        return false;
      }
      Update(BigEndian(|name|, 2));
      Update(name);
      Update(BigEndian(|rendered|, 8));
      Update(rendered);
      FourUpdates(old(absorbed), BigEndian(|name|, 2), name, BigEndian(|rendered|, 8), rendered);
      return true;
    }

    method FingerprintSequence(sha: Digester, items: seq<Value>) returns (ok: bool)
      modifies this
      ensures ok <==> FrameAll(sha, items).Some?
      ensures ok ==> absorbed == old(absorbed) + FrameAll(sha, items).value
      decreases items, 0
    {
      hide FrameValue;
      for k := 0 to |items|
        invariant FrameAll(sha, items[..k]).Some?
        invariant absorbed == old(absorbed) + FrameAll(sha, items[..k]).value
      {
        FrameAllSnoc(sha, items, k);
        ghost var before := FrameAll(sha, items[..k]).value;
        ok := FingerprintValue(sha, items[k]);
        if !ok { return; }
        assert (old(absorbed) + before) + FrameValue(sha,
            items[k]).value == old(absorbed) + (before + FrameValue(sha, items[k]).value);
      }
      assert items[..|items|] == items;
      return true;
    }

    method FingerprintEntries(sha: Digester, entries: seq<Pair>) returns (ok: bool)
      modifies this
      ensures ok <==> FramePairs(sha, entries).Some?
      ensures ok ==> absorbed == old(absorbed) + FramePairs(sha, entries).value
      decreases entries, 0
    {
      hide FramePair;
      for k := 0 to |entries|
        invariant FramePairs(sha, entries[..k]).Some?
        invariant absorbed == old(absorbed) + FramePairs(sha, entries[..k]).value
      {
        FramePairsSnoc(sha, entries, k);
        ghost var before := FramePairs(sha, entries[..k]).value;
        ok := FingerprintEntry(sha, entries[k]);
        if !ok { return; }
        assert (old(absorbed) + before) + FramePair(sha,
            entries[k]).value == old(absorbed) + (before + FramePair(sha, entries[k]).value);
      }
      assert entries[..|entries|] == entries;
      return true;
    }

    method FingerprintEntry(sha: Digester, p: Pair) returns (ok: bool)
      modifies this
      ensures ok <==> FramePair(sha, p).Some?
      ensures ok ==> absorbed == old(absorbed) + FramePair(sha, p).value
      decreases p, 0
    {
      hide FrameValue;
      ok := FingerprintValue(sha, p.key);
      if !ok { return; }
      ok := FingerprintValue(sha, p.value);
      if !ok { return; }
      ghost var k, x := FrameValue(sha, p.key).value, FrameValue(sha, p.value).value;
      assert (old(absorbed) + k) + x == old(absorbed) + (k + x);
    }
  }

  lemma FourUpdates(before: Bytes, a: Bytes, b: Bytes, c: Bytes, d: Bytes)
    ensures (((before + a) + b) + c) + d == before + (a + (b + (c + d)))
  {
  }

  lemma {:induction false} FramePairsAppend(sha: Digester, a: seq<Pair>, b: seq<Pair>)
    ensures FramePairs(sha, a + b) == Joined(FramePairs(sha, a), FramePairs(sha, b))
  {
    hide Joined, FramePair;
    if a == [] {
      assert a + b == b;
      JoinedUnits(FramePairs(sha, b));
    } else {
      assert (a + b)[0] == a[0] && (a + b)[1..] == a[1..] + b;
      FramePairsAppend(sha, a[1..], b);
      JoinedAssociates(FramePair(sha, a[0]), FramePairs(sha, a[1..]), FramePairs(sha, b));
    }
  }

  lemma FrameOnePair(sha: Digester, p: Pair)
    ensures FramePairs(sha, [p]) == FramePair(sha, p)
  {
    hide Joined, FramePair;
    assert [p][1..] == [];
    JoinedUnits(FramePair(sha, p));
  }

  lemma FramePairsSnoc(sha: Digester, entries: seq<Pair>, k: nat)
    requires k < |entries|
    ensures FramePairs(sha, entries[..k + 1]) == Joined(FramePairs(sha, entries[..k]), FramePair(sha, entries[k]))
    ensures FramePairs(sha, entries).Some? ==> FramePairs(sha, entries[..k + 1]).Some?
  {
    hide FramePairs, FramePair;
    assert entries[..k + 1] == entries[..k] + [entries[k]];
    FramePairsAppend(sha, entries[..k], [entries[k]]);
    FrameOnePair(sha, entries[k]);
    assert entries == entries[..k + 1] + entries[k + 1..];
    FramePairsAppend(sha, entries[..k + 1], entries[k + 1..]);
  }
}

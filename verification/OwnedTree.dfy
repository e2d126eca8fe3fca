/** Capturing a directory tree and later removing exactly that tree
    (tools/local-stack/run_bubbleran_defense_demo.py:267-352). */
module OwnedTree {
  import opened Basics
  import opened SetOrder
  import opened TextOrder

  /** Path components from the file system root. */
  type Path = seq<string>

  /** What lstat shows: a directory or a regular file with its identity, or anything
      else (a link, a device), which the tool refuses. */
  datatype Entry = Dir(identity: nat) | File(identity: nat) | Stranger
  type Entries = map<Path, Entry>

  datatype Owned = Owned(path: Path, identity: nat)
  datatype Capture = Capture(files: seq<Owned>, directories: seq<Owned>)
  datatype TreeManifest = TreeManifest(root: Path, rootIdentity: nat, files: seq<Owned>, directories: seq<Owned>)

  /** Every entry sits in a directory. */
  ghost predicate TreeLike(e: Entries) {
    forall p, k :: p in e && 0 <= k < |p| ==> p[..k] in e && e[p[..k]].Dir?
  }

  predicate Under(root: Path, p: Path) {
    |root| < |p| && p[..|root|] == root
  }

  ghost function Below(e: Entries, dir: Path): set<Path> {
    set p | p in e && Under(dir, p)
  }

  function Names(e: Entries, dir: Path): set<string> {
    set p | p in e && Under(dir, p) && |p| == |dir| + 1 :: p[|dir|]
  }

  lemma NamesAre(e: Entries, dir: Path, n: string)
    ensures n in Names(e, dir) <==> dir + [n] in e
  {
    var p := dir + [n];
    assert Under(dir, p) && p[|dir|] == n;
    if n in Names(e, dir) {
      var q :| q in e && Under(dir, q) && |q| == |dir| + 1 && q[|dir|] == n;
      assert q == q[..|dir|] + [q[|dir|]] == p;
    }
  }

  lemma {:induction false} ChildBelow(e: Entries, dir: Path, n: string)
    requires dir + [n] in e
    ensures Below(e, dir + [n]) < Below(e, dir)
    ensures |Below(e, dir + [n])| < |Below(e, dir)|
  {
    var child := dir + [n];
    forall p | p in Below(e, child) ensures p in Below(e, dir) {
      assert p[..|dir|] == p[..|child|][..|dir|] == dir;
    }
    assert child in Below(e, dir) && child !in Below(e, child);
    ProperSubset(Below(e, child), Below(e, dir));
  }

  lemma ProperSubset<T>(a: set<T>, b: set<T>)
    requires a < b
    ensures |a| < |b|
  {
    assert b == a + (b - a) && b - a != {};
  }

  // ---- what a capture is ----

  ghost function Listing(e: Entries, dir: Path): (names: seq<string>)
    ensures InOrder(Less, names) && forall n :: n in names <==> n in Names(e, dir)
  {
    LessIsOrder();
    ListingExists(Less, Names(e, dir));
    var names :| InOrder(Less, names) && forall n :: n in names <==> n in Names(e, dir);
    names
  }

  ghost predicate Listed(e: Entries, dir: Path, names: seq<string>) {
    forall n :: n in names ==> dir + [n] in e
  }

  /** The recursive visit of a directory: files as met, a directory after its content. */
  ghost function Visit(e: Entries, dir: Path): Option<Capture>
    decreases |Below(e, dir)|, 1, 0
  {
    assert Listed(e, dir, Listing(e, dir)) by {
      forall n | n in Listing(e, dir) ensures dir + [n] in e { NamesAre(e, dir, n); }
    }
    VisitNames(e, dir, Listing(e, dir))
  }

  ghost function VisitChild(e: Entries, dir: Path, n: string): Option<Capture>
    requires dir + [n] in e
    decreases |Below(e, dir)|, 0, 0
  {
    ChildBelow(e, dir, n);
    var child := dir + [n];
    match e[child]
    case Stranger => None
    case File(id) => Some(Capture([Owned(child, id)], []))
    case Dir(id) => Closed(Visit(e, child), Owned(child, id))
  }

  ghost function VisitNames(e: Entries, dir: Path, names: seq<string>): Option<Capture>
    requires Listed(e, dir, names)
    decreases |Below(e, dir)|, 0, |names|
  {
    if names == [] then Some(Capture([], []))
    else Both(VisitChild(e, dir, names[0]), VisitNames(e, dir, names[1..]))
  }

  function Closed(inner: Option<Capture>, dir: Owned): Option<Capture> {
    if inner.None? then None else Some(inner.value.(directories := inner.value.directories + [dir]))
  }

  function Both(a: Option<Capture>, b: Option<Capture>): Option<Capture> {
    if a.None? || b.None? then None
    else Some(Capture(a.value.files + b.value.files, a.value.directories + b.value.directories))
  }

  // ---- a capture lists every entry once, directories after their content ----

  ghost predicate NoStrangers(e: Entries, scope: set<Path>) {
    forall p :: p in scope && p in e ==> !e[p].Stranger?
  }

  predicate DistinctPaths(list: seq<Owned>) {
    forall i, j :: 0 <= i < j < |list| ==> list[i].path != list[j].path
  }

  /** Nothing listed later lies inside a directory listed earlier. */
  predicate PostOrder(list: seq<Owned>) {
    forall i, j :: 0 <= i < j < |list| ==> !Under(list[i].path, list[j].path)
  }

  ghost predicate Exactly(e: Entries, c: Capture, scope: set<Path>) {
    && (forall o :: o in c.files <==> o.path in scope && o.path in e && e[o.path] == File(o.identity))
    && (forall o :: o in c.directories <==> o.path in scope && o.path in e && e[o.path] == Dir(o.identity))
    && DistinctPaths(c.files) && DistinctPaths(c.directories) && PostOrder(c.directories)
  }

  ghost function Scope(e: Entries, dir: Path, names: seq<string>): set<Path> {
    set p | p in e && Under(dir, p) && p[|dir|] in names
  }

  lemma DistinctJoin(a: seq<Owned>, b: seq<Owned>)
    requires DistinctPaths(a) && DistinctPaths(b)
    requires forall x, y :: x in a && y in b ==> x.path != y.path
    ensures DistinctPaths(a + b)
  {
  }

  lemma PostOrderJoin(a: seq<Owned>, b: seq<Owned>)
    requires PostOrder(a) && PostOrder(b)
    requires forall x, y :: x in a && y in b ==> !Under(x.path, y.path)
    ensures PostOrder(a + b)
  {
  }

  lemma JoinExact(e: Entries, a: Capture, s: set<Path>, b: Capture, t: set<Path>)
    requires Exactly(e, a, s) && Exactly(e, b, t) && s !! t
    requires forall p, q :: p in s && q in t ==> !Under(p, q)
    ensures Exactly(e, Capture(a.files + b.files, a.directories + b.directories), s + t)
  {
    hide Under, DistinctPaths, PostOrder;
    DistinctJoin(a.files, b.files);
    DistinctJoin(a.directories, b.directories);
    PostOrderJoin(a.directories, b.directories);
  }

  lemma CloseExact(e: Entries, inner: Capture, child: Path, id: nat)
    requires child in e && e[child] == Dir(id) && Exactly(e, inner, Below(e, child))
    ensures Exactly(e, inner.(directories := inner.directories + [Owned(child, id)]), Below(e, child) + {child})
  {
    hide DistinctPaths, PostOrder;
    var one := [Owned(child, id)];
    assert DistinctPaths(one) && PostOrder(one) by { OneIsOrdered(Owned(child, id)); }
    DistinctJoin(inner.directories, one);
    PostOrderJoin(inner.directories, one);
  }

  lemma OneIsOrdered(o: Owned)
    ensures DistinctPaths([o]) && PostOrder([o])
  {
  }

  /** A child that is not a directory has nothing below it. */
  lemma LeafBelow(e: Entries, child: Path)
    requires TreeLike(e) && child in e && !e[child].Dir?
    ensures Below(e, child) == {}
  {
  }

  lemma ScopeOfOne(e: Entries, dir: Path, n: string)
    requires dir + [n] in e
    ensures Scope(e, dir, [n]) == Below(e, dir + [n]) + {dir + [n]}
  {
    var child := dir + [n];
    forall p | p in e ensures p in Scope(e, dir, [n]) <==> p in Below(e, child) + {child} {
      if p in Scope(e, dir, [n]) && p != child {
        assert p[..|dir|] == dir && p[|dir|] == n;
        assert p[..|child|] == p[..|dir|] + [p[|dir|]] == child;
      }
      if p in Below(e, child) {
        assert p[..|dir|] == p[..|child|][..|dir|] == dir;
        assert p[|dir|] == p[..|child|][|dir|] == n;
      }
    }
  }

  lemma ScopeOfAll(e: Entries, dir: Path)
    requires TreeLike(e)
    ensures Scope(e, dir, Listing(e, dir)) == Below(e, dir)
  {
    forall p | p in Below(e, dir) ensures p[|dir|] in Names(e, dir) {
      var n := p[|dir|];
      assert p == p[..|p|];
      assert p[..|dir| + 1] == p[..|dir|] + [n] == dir + [n];
      assert dir + [n] in e;
      NamesAre(e, dir, n);
    }
  }

  lemma ScopesApart(e: Entries, dir: Path, n: string, rest: seq<string>)
    requires n !in rest
    ensures Scope(e, dir, [n]) !! Scope(e, dir, rest)
    ensures forall p, q :: p in Scope(e, dir, [n]) && q in Scope(e, dir, rest) ==> !Under(p, q)
    ensures Scope(e, dir, [n] + rest) == Scope(e, dir, [n]) + Scope(e, dir, rest)
  {
    forall p, q | p in Scope(e, dir, [n]) && q in Scope(e, dir, rest) ensures !Under(p, q) {
      assert q[..|q|][|dir|] != p[|dir|];
    }
  }

  lemma {:induction false} VisitExact(e: Entries, dir: Path)
    requires TreeLike(e)
    ensures Visit(e, dir).Some? <==> NoStrangers(e, Below(e, dir))
    ensures Visit(e, dir).Some? ==> Exactly(e, Visit(e, dir).value, Below(e, dir))
    decreases |Below(e, dir)|, 1, 0
  {
    hide Exactly, Below;
    forall n | n in Listing(e, dir) ensures dir + [n] in e { NamesAre(e, dir, n); }
    ScopeOfAll(e, dir);
    VisitNamesExact(e, dir, Listing(e, dir));
  }

  lemma {:induction false} VisitChildExact(e: Entries, dir: Path, n: string)
    requires TreeLike(e) && dir + [n] in e
    ensures VisitChild(e, dir, n).Some? <==> NoStrangers(e, Scope(e, dir, [n]))
    ensures VisitChild(e, dir, n).Some? ==> Exactly(e, VisitChild(e, dir, n).value, Scope(e, dir, [n]))
    decreases |Below(e, dir)|, 0, 0
  {
    hide Exactly, Scope, DistinctPaths, PostOrder;
    var child := dir + [n];
    ScopeOfOne(e, dir, n);
    ChildBelow(e, dir, n);
    match e[child] {
      case Stranger =>
      case File(id) =>
        LeafBelow(e, child);
        LeafExact(e, child, id);
      case Dir(id) =>
        VisitExact(e, child);
        if Visit(e, child).Some? {
          CloseExact(e, Visit(e, child).value, child, id);
        }
    }
  }

  lemma LeafExact(e: Entries, child: Path, id: nat)
    requires child in e && e[child] == File(id)
    ensures Exactly(e, Capture([Owned(child, id)], []), {child})
  {
  }

  lemma {:induction false} VisitNamesExact(e: Entries, dir: Path, names: seq<string>)
    requires TreeLike(e) && Listed(e, dir, names) && InOrder(Less, names)
    ensures VisitNames(e, dir, names).Some? <==> NoStrangers(e, Scope(e, dir, names))
    ensures VisitNames(e, dir, names).Some? ==> Exactly(e, VisitNames(e, dir, names).value, Scope(e, dir, names))
    decreases |Below(e, dir)|, 0, |names|
  {
    if names == [] {
      assert Scope(e, dir, []) == {};
    } else {
      var n, rest := names[0], names[1..];
      assert names == [n] + rest;
      LessIsOrder();
      TailMembers(Less, names, n);
      ScopesApart(e, dir, n, rest);
      VisitChildExact(e, dir, n);
      VisitNamesExact(e, dir, rest);
      var a, b := VisitChild(e, dir, n), VisitNames(e, dir, rest);
      if a.Some? && b.Some? {
        JoinExact(e, a.value, Scope(e, dir, [n]), b.value, Scope(e, dir, rest));
      }
    }
  }

  // ---- capturing ----

  lemma BothAssociates(a: Option<Capture>, b: Option<Capture>, c: Option<Capture>)
    ensures Both(Both(a, b), c) == Both(a, Both(b, c))
  {
    if a.Some? && b.Some? && c.Some? {
      assert (a.value.files + b.value.files) + c.value.files == a.value.files + (b.value.files + c.value.files);
      assert (a.value.directories + b.value.directories) + c.value.directories ==
             a.value.directories + (b.value.directories + c.value.directories);
    }
  }

  lemma BothUnits(a: Option<Capture>)
    ensures Both(Some(Capture([], [])), a) == a == Both(a, Some(Capture([], [])))
  {
    if a.Some? {
      assert [] + a.value.files == a.value.files == a.value.files + [];
      assert [] + a.value.directories == a.value.directories == a.value.directories + [];
    }
  }

  /** The two lists a capture appends to, over a tree that stands still. */
  class Visitor {
    var files: seq<Owned>
    var directories: seq<Owned>
    var clock: nat
    ghost var faults: nat   // calls that failed so far
    const entries: Entries
    const reply: nat -> bool

    constructor (entries: Entries, reply: nat -> bool)
      ensures this.entries == entries && this.reply == reply && files == [] && directories == []
      ensures faults == 0
    {
      this.entries, this.reply, files, directories, clock, faults := entries, reply, [], [], 0, 0;
    }

    method Attempt() returns (ok: bool)
      modifies this`clock, this`faults
      ensures ok == reply(old(clock)) && faults == old(faults) + (if ok then 0 else 1)
    {
      ok := reply(clock);
      clock := clock + 1;
      faults := faults + (if ok then 0 else 1);
    }

    /** What a visit has appended to the lists. */
    twostate predicate Appended(c: Capture)
      reads this
    {
      files == old(files) + c.files && directories == old(directories) + c.directories
    }

    /** `sorted(directory.iterdir(), key=name)`. */
    method ListNames(dir: Path) returns (names: seq<string>)
      ensures names == Listing(entries, dir)
    {
      LessIsOrder();
      names := SortSet(Less, Names(entries, dir));
      OneOrder(Less, names, Listing(entries, dir));
    }

    method VisitDirectory(dir: Path) returns (ok: bool)
      modifies this
      ensures ok ==> Visit(entries, dir).Some? && Appended(Visit(entries, dir).value) && faults == old(faults)
      ensures (forall t :: reply(t)) && Visit(entries, dir).Some? ==> ok
      decreases |Below(entries, dir)|, 1
    {
      hide VisitChild, Names, InOrder, Below;
      ok := Attempt();
      if !ok {
        return;
      }
      var names := ListNames(dir);
      forall n | n in names ensures dir + [n] in entries { NamesAre(entries, dir, n); }
      ghost var done := Capture([], []);
      BothUnits(VisitNames(entries, dir, names));
      for k := 0 to |names|
        invariant Appended(done) && faults == old(faults)
        invariant forall n :: n in names ==> dir + [n] in entries
        invariant VisitNames(entries, dir, names) == Both(Some(done), VisitNames(entries, dir, names[k..]))
      {
        assert names[k..][0] == names[k] && names[k..][1..] == names[k + 1..];
        ghost var c := VisitChild(entries, dir, names[k]);
        ok := VisitOne(dir, names[k]);
        BothAssociates(Some(done), c, VisitNames(entries, dir, names[k + 1..]));
        if !ok {
          return;
        }
        done := Both(Some(done), c).value;
      }
      assert names[|names|..] == [];
      BothUnits(Some(done));
      return true;
    }

    method VisitOne(dir: Path, n: string) returns (ok: bool)
      requires dir + [n] in entries
      modifies this
      ensures ok ==> VisitChild(entries, dir, n).Some? && Appended(VisitChild(entries, dir, n).value)
      ensures ok ==> faults == old(faults)
      ensures (forall t :: reply(t)) && VisitChild(entries, dir, n).Some? ==> ok
      decreases |Below(entries, dir)|, 0
    {
      var child := dir + [n];
      ok := Attempt();
      if !ok {
        return;
      }
      match entries[child] {
        case Stranger =>
          return false;
        case File(id) =>
          files := files + [Owned(child, id)];
        case Dir(id) =>
          ChildBelow(entries, dir, n);
          ok := VisitDirectory(child);
          if ok {
            directories := directories + [Owned(child, id)];
          }
      }
    }
  }

  // ---- removing ----

  datatype Removal = Done | NotEmpty | Fault

  /** The tree is exactly what the manifest says. */
  ghost predicate Matches(e: Entries, m: TreeManifest) {
    && m.root in e && e[m.root] == Dir(m.rootIdentity)
    && Visit(e, m.root) == Some(Capture(m.files, m.directories))
  }

  /** The first `f` files are gone, and once all are, the first `d` directories. */
  ghost predicate PartlyRemoved(e0: Entries, m: TreeManifest, e: Entries, f: nat, d: nat) {
    && f <= |m.files| && d <= |m.directories| && (d > 0 ==> f == |m.files|)
    && e == e0 - PathsOf(m.files[..f]) - PathsOf(m.directories[..d])
  }

  lemma NothingRemoved(e: Entries, m: TreeManifest)
    ensures PartlyRemoved(e, m, e, 0, 0)
  {
    assert PathsOf(m.files[..0]) == {} == PathsOf(m.directories[..0]);
  }

  /** Nothing is added or changed, and nothing is removed outside `root`. */
  ghost predicate OnlyInside(e: Entries, e': Entries, root: Path) {
    && (forall p :: p in e' ==> p in e && e'[p] == e[p])
    && (forall p :: p in e && p !in e' ==> p == root || Under(root, p))
  }

  function PathsOf(list: seq<Owned>): set<Path> {
    set i | 0 <= i < |list| :: list[i].path
  }

  lemma PathsSnoc(list: seq<Owned>, k: nat)
    requires k < |list|
    ensures PathsOf(list[..k + 1]) == PathsOf(list[..k]) + {list[k].path}
  {
    forall p | p in PathsOf(list[..k + 1]) ensures p in PathsOf(list[..k]) + {list[k].path} {
      var i :| 0 <= i < k + 1 && list[..k + 1][i].path == p;
      assert i < k ==> list[..k][i].path == p;
    }
    forall p | p in PathsOf(list[..k]) ensures p in PathsOf(list[..k + 1]) {
      var i :| 0 <= i < k && list[..k][i].path == p;
      assert list[..k + 1][i].path == p;
    }
    assert list[..k + 1][k].path == list[k].path;
  }

  lemma RemovalKeepsTree(e: Entries, p: Path)
    requires TreeLike(e) && p in e && Below(e, p) == {}
    ensures TreeLike(e - {p})
  {
    var e' := e - {p};
    forall q, k | q in e' && 0 <= k < |q| ensures q[..k] in e' && e'[q[..k]].Dir? {
      assert q[..k] == p ==> q in Below(e, p);
    }
  }

  lemma MemberPath(list: seq<Owned>, o: Owned)
    requires o in list
    ensures o.path in PathsOf(list)
  {
  }

  lemma UnderTransitive(a: Path, b: Path, c: Path)
    requires Under(a, b) && Under(b, c)
    ensures Under(a, c)
  {
    assert c[..|a|] == c[..|b|][..|a|];
  }

  /** Everything inside the tree is listed. */
  lemma AllListed(e: Entries, m: TreeManifest, q: Path)
    requires TreeLike(e) && Matches(e, m) && q in Below(e, m.root)
    ensures q in PathsOf(m.files) || q in PathsOf(m.directories)
  {
    hide Visit, TreeLike;
    VisitExact(e, m.root);
    match e[q]
    case File(id) => MemberPath(m.files, Owned(q, id));
    case Dir(id) => MemberPath(m.directories, Owned(q, id));
    case Stranger => assert false;
  }

  lemma ListedInside(e: Entries, m: TreeManifest)
    requires TreeLike(e) && Matches(e, m)
    ensures PathsOf(m.files) + PathsOf(m.directories) == Below(e, m.root)
    ensures DistinctPaths(m.files) && DistinctPaths(m.directories)
  {
    hide Visit, TreeLike;
    VisitExact(e, m.root);
    forall q | q in PathsOf(m.files) + PathsOf(m.directories) ensures q in Below(e, m.root) {
      if q in PathsOf(m.files) {
        var i :| 0 <= i < |m.files| && m.files[i].path == q;
        assert m.files[i] in m.files;
      } else {
        var i :| 0 <= i < |m.directories| && m.directories[i].path == q;
        assert m.directories[i] in m.directories;
      }
    }
    forall q | q in Below(e, m.root) ensures q in PathsOf(m.files) + PathsOf(m.directories) {
      AllListed(e, m, q);
    }
  }

  /** When the k-th directory's turn comes, all that was inside it has been removed. */
  lemma EmptyWhenReached(e: Entries, m: TreeManifest, k: nat, q: Path)
    requires TreeLike(e) && Matches(e, m) && k < |m.directories| && q in Below(e, m.directories[k].path)
    ensures q in PathsOf(m.files) || q in PathsOf(m.directories[..k])
  {
    hide Visit, TreeLike;
    VisitExact(e, m.root);
    var dir := m.directories[k].path;
    assert m.directories[k] in m.directories;
    UnderTransitive(m.root, dir, q);
    AllListed(e, m, q);
    if q in PathsOf(m.directories) {
      var j :| 0 <= j < |m.directories| && m.directories[j].path == q;
      assert j < k;
      assert m.directories[..k][j].path == q;
    }
  }

  class Volume {
    var entries: Entries
    var clock: nat
    ghost var faults: nat   // calls that failed so far
    const reply: nat -> bool

    constructor (entries: Entries, reply: nat -> bool)
      ensures this.entries == entries && this.reply == reply && faults == 0
    {
      this.entries, this.reply, clock, faults := entries, reply, 0, 0;
    }

    method Attempt() returns (ok: bool)
      modifies this`clock, this`faults
      ensures ok == reply(old(clock)) && faults == old(faults) + (if ok then 0 else 1)
    {
      ok := reply(clock);
      clock := clock + 1;
      faults := faults + (if ok then 0 else 1);
    }

    /** `_capture_owned_tree`. */
    method CaptureOwnedTree(root: Path, expected: nat) returns (m: Option<TreeManifest>)
      modifies this`clock, this`faults
      ensures m.Some? ==> m.value.root == root && m.value.rootIdentity == expected && Matches(entries, m.value)
      ensures m.Some? ==> faults == old(faults)
      ensures (forall t :: reply(t)) ==>
                root in entries && entries[root] == Dir(expected) && Visit(entries, root).Some? ==> m.Some?
    {
      var seen := Attempt();
      if !seen || root !in entries || entries[root] != Dir(expected) {
        return None;
      }
      var visitor := new Visitor(entries, reply);
      var ok := visitor.VisitDirectory(root);
      faults := faults + visitor.faults;
      if !ok {
        return None;
      }
      ghost var c := Visit(entries, root).value;
      assert visitor.files == c.files && visitor.directories == c.directories;
      return Some(TreeManifest(root, expected, visitor.files, visitor.directories));
    }

    method Unlink(path: Path) returns (ok: bool)
      requires path in entries
      modifies this
      ensures entries == if ok then old(entries) - {path} else old(entries)
      ensures ok == reply(old(clock)) && (ok ==> faults == old(faults))
    {
      ok := Attempt();
      if ok {
        entries := entries - {path};
      }
    }

    /** The system refuses to remove a directory that has entries. */
    method Rmdir(path: Path) returns (r: Removal)
      requires path in entries
      modifies this
      ensures r.NotEmpty? <==> Names(old(entries), path) != {}
      ensures entries == if r.Done? then old(entries) - {path} else old(entries)
      ensures r.Fault? ==> exists t :: !reply(t)
      ensures r.Done? ==> faults == old(faults)
    {
      if Names(entries, path) != {} {
        return NotEmpty;
      }
      var ok := Attempt();
      if !ok {
        return Fault;
      }
      entries := entries - {path};
      return Done;
    }

    /** The files go in the captured order: after a failure, those up to some point are gone. */
    method RemoveFiles(m: TreeManifest) returns (ok: bool, ghost gone: nat)
      requires TreeLike(entries) && Matches(entries, m)
      modifies this
      ensures TreeLike(entries)
      ensures PartlyRemoved(old(entries), m, entries, gone, 0)
      ensures ok ==> entries == old(entries) - PathsOf(m.files) && faults == old(faults)
      ensures OnlyInside(old(entries), entries, m.root)
      ensures (forall t :: reply(t)) ==> ok
    {
      hide Visit, TreeLike;
      var k := 0;
      gone := 0;
      assert PathsOf(m.files[..0]) == {} == PathsOf(m.directories[..0]);
      while k < |m.files|
        invariant 0 <= k == gone <= |m.files| && TreeLike(entries) && faults == old(faults)
        invariant entries == old(entries) - PathsOf(m.files[..k])
        invariant OnlyInside(old(entries), entries, m.root)
      {
        var file := m.files[k];
        ReadyToUnlink(old(entries), m, k, entries);
        if file.path !in entries || entries[file.path] != File(file.identity) {
          ok := false;
          return;
        }
        var unlinked := Unlink(file.path);
        if !unlinked {
          return false, gone;
        }
        k, gone := k + 1, gone + 1;
      }
      assert m.files[..k] == m.files;
      return true, gone;
    }

    /** Each directory is empty when its turn comes, so no removal is refused. */
    method RemoveDirectories(m: TreeManifest, ghost e0: Entries) returns (ok: bool, ghost gone: nat)
      requires TreeLike(e0) && Matches(e0, m) && TreeLike(entries) && entries == e0 - PathsOf(m.files)
      modifies this
      ensures TreeLike(entries)
      ensures PartlyRemoved(e0, m, entries, |m.files|, gone)
      ensures ok ==> entries == e0 - PathsOf(m.files) - PathsOf(m.directories) && faults == old(faults)
      ensures OnlyInside(e0, entries, m.root)
      ensures (forall t :: reply(t)) ==> ok
    {
      hide Visit, TreeLike;
      ListedInside(e0, m);
      var k := 0;
      gone := 0;
      assert PathsOf(m.directories[..0]) == {} && m.files[..|m.files|] == m.files;
      while k < |m.directories|
        invariant 0 <= k == gone <= |m.directories| && TreeLike(entries) && faults == old(faults)
        invariant entries == e0 - PathsOf(m.files) - PathsOf(m.directories[..k])
        invariant OnlyInside(e0, entries, m.root)
      {
        var directory := m.directories[k];
        ReadyToRemove(e0, m, k, entries);
        if directory.path !in entries || entries[directory.path] != Dir(directory.identity) {
          ok := false;
          return;
        }
        var removed := Rmdir(directory.path);
        assert !removed.NotEmpty?;
        if !removed.Done? {
          return false, gone;
        }
        k, gone := k + 1, gone + 1;
      }
      assert m.directories[..k] == m.directories;
      return true, gone;
    }

    /** `_remove_captured_tree`. */
    method RemoveCapturedTree(m: TreeManifest) returns (ok: bool)
      requires TreeLike(entries)
      modifies this
      ensures TreeLike(entries)
      ensures !Matches(old(entries), m) ==> !ok && entries == old(entries)
      ensures OnlyInside(old(entries), entries, m.root)
      ensures ok ==> entries == old(entries) - (Below(old(entries), m.root) + {m.root}) && faults == old(faults)
      ensures !ok ==> exists f, d :: PartlyRemoved(old(entries), m, entries, f, d)
      ensures (forall t :: reply(t)) && Matches(old(entries), m) ==> ok
    {
      hide Visit, PartlyRemoved, TreeLike, DistinctPaths, PostOrder;
      ghost var e0 := entries;
      NothingRemoved(e0, m);
      var current := CaptureOwnedTree(m.root, m.rootIdentity);
      if current.None? || current.value != m {
        return false;
      }
      ListedInside(e0, m);
      var rechecked := Attempt();
      if !rechecked {
        return false;
      }
      ghost var gone;
      ok, gone := RemoveFiles(m);
      if !ok {
        return;
      }
      ok, gone := RemoveDirectories(m, e0);
      if !ok {
        return;
      }
      assert entries == e0 - Below(e0, m.root);
      assert Below(entries, m.root) == {};
      RemovalKeepsTree(entries, m.root);
      assert Names(entries, m.root) == {};
      var removed := Rmdir(m.root);
      assert !removed.NotEmpty?;
      ok := removed.Done?;
      assert ok ==> entries == e0 - (Below(e0, m.root) + {m.root});
    }
  }

  lemma NotYetRemoved(list: seq<Owned>, k: nat)
    requires k < |list| && DistinctPaths(list)
    ensures list[k].path !in PathsOf(list[..k])
  {
  }

  lemma FilesAreFiles(e: Entries, m: TreeManifest)
    requires TreeLike(e) && Matches(e, m)
    ensures forall p :: p in PathsOf(m.files) ==> p in e && e[p].File?
  {
    hide Visit, TreeLike;
    VisitExact(e, m.root);
    forall p | p in PathsOf(m.files) ensures p in e && e[p].File? {
      var i :| 0 <= i < |m.files| && m.files[i].path == p;
      assert m.files[i] in m.files;
    }
  }

  /** The k-th file is still there and may go. */
  lemma ReadyToUnlink(e0: Entries, m: TreeManifest, k: nat, e: Entries)
    requires TreeLike(e0) && Matches(e0, m) && k < |m.files|
    requires TreeLike(e) && e == e0 - PathsOf(m.files[..k])
    ensures var o := m.files[k];
            && o.path in e && e[o.path] == File(o.identity)
            && TreeLike(e - {o.path})
            && e - {o.path} == e0 - PathsOf(m.files[..k + 1])
            && Under(m.root, o.path)
  {
    hide Visit, TreeLike;
    var o := m.files[k];
    VisitExact(e0, m.root);
    assert o in m.files;
    NotYetRemoved(m.files, k);
    PathsSnoc(m.files, k);
    LeafBelow(e0, o.path);
    assert Below(e, o.path) <= Below(e0, o.path);
    RemovalKeepsTree(e, o.path);
  }

  /** The k-th directory is still there, empty, and may go. */
  lemma ReadyToRemove(e0: Entries, m: TreeManifest, k: nat, e: Entries)
    requires TreeLike(e0) && Matches(e0, m) && k < |m.directories|
    requires TreeLike(e) && e == e0 - PathsOf(m.files) - PathsOf(m.directories[..k])
    ensures var o := m.directories[k];
            && o.path in e && e[o.path] == Dir(o.identity)
            && Names(e, o.path) == {}
            && TreeLike(e - {o.path})
            && e - {o.path} == e0 - PathsOf(m.files) - PathsOf(m.directories[..k + 1])
            && Under(m.root, o.path)
  {
    hide Visit, TreeLike;
    var o := m.directories[k];
    VisitExact(e0, m.root);
    FilesAreFiles(e0, m);
    assert o in m.directories;
    NotYetRemoved(m.directories, k);
    PathsSnoc(m.directories, k);
    forall q | q in Below(e0, o.path) ensures q !in e { EmptyWhenReached(e0, m, k, q); }
    assert Below(e, o.path) == {};
    RemovalKeepsTree(e, o.path);
  }
}

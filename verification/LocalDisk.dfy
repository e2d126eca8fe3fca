/** The part of a file system that the submission builder sees: the directory
    `.local`, whose entries are files or directories of files, over a table of
    inodes that carry a link count. Every operation here is one system call. */
module LocalDisk {
  import opened Basics

  /** File names. The builder's eight fixed names are distinct strings; every other
      name in `.local` is `Other`. */
  datatype Name =
    | LockFile          // .networkagent-submission.lock
    | StageDir          // .networkagent-submission.staging
    | OutputDir         // networkagent-submission
    | SubmissionIndex   // submission-index.json
    | Limitations       // limitations.json
    | Reproduce         // REPRODUCE.md
    | IndexHtml         // index.html
    | ManifestJson      // manifest.json
    | Other(text: string)

  type Ino = nat
  type DirId = nat

  datatype Node = Node(regular: bool, bytes: Bytes, links: nat, mtime: int, ctime: int)
  datatype Entry = FileAt(ino: Ino) | DirAt(id: DirId, children: map<Name, Ino>)
  datatype Disk = Disk(top: map<Name, Entry>, nodes: map<Ino, Node>)
  datatype Path = Top(name: Name) | Under(dir: Name, name: Name)

  /** What the builder remembers of a file it owns. */
  datatype FileIdentity = FileIdentity(ino: Ino, size: nat, mtime: int, ctime: int)

  function Lookup(d: Disk, p: Path): Option<Ino> {
    match p
    case Top(n) =>
      if n in d.top && d.top[n].FileAt? then Some(d.top[n].ino) else None
    case Under(dir, n) =>
      if dir in d.top && d.top[dir].DirAt? && n in d.top[dir].children
      then Some(d.top[dir].children[n]) else None
  }

  predicate Exists(d: Disk, p: Path) {
    match p
    case Top(n) => n in d.top
    case Under(_, _) => Lookup(d, p).Some?
  }

  predicate HasParent(d: Disk, p: Path) {
    p.Under? ==> p.dir in d.top && d.top[p.dir].DirAt?
  }

  predicate Vacant(d: Disk, p: Path) {
    HasParent(d, p) && !Exists(d, p)
  }

  predicate IsDir(d: Disk, n: Name, id: DirId) {
    n in d.top && d.top[n].DirAt? && d.top[n].id == id
  }

  predicate IsFile(d: Disk, p: Path) {
    var i := Lookup(d, p);
    i.Some? && i.value in d.nodes
  }

  function Identity(d: Disk, ino: Ino): FileIdentity
    requires ino in d.nodes
  {
    var node := d.nodes[ino];
    FileIdentity(ino, |node.bytes|, node.mtime, node.ctime)
  }

  /** An inode number that is not taken. */
  ghost function Above(taken: set<Ino>): (i: Ino)
    ensures forall k :: k in taken ==> k < i
    decreases |taken|
  {
    if taken == {} then 0
    else
      var x :| x in taken;
      var rest := Above(taken - {x});
      assert forall k :: k in taken ==> k == x || k in taken - {x};
      if rest <= x then x + 1 else rest
  }

  // ---- name table edits ----

  function Bind(d: Disk, p: Path, ino: Ino): Disk
    requires HasParent(d, p)
  {
    match p
    case Top(n) => d.(top := d.top[n := FileAt(ino)])
    case Under(dir, n) =>
      d.(top := d.top[dir := d.top[dir].(children := d.top[dir].children[n := ino])])
  }

  function Unbind(d: Disk, p: Path): Disk
    requires HasParent(d, p)
  {
    match p
    case Top(n) => d.(top := d.top - {n})
    case Under(dir, n) =>
      d.(top := d.top[dir := d.top[dir].(children := d.top[dir].children - {n})])
  }

  // ---- system calls that succeed ----

  function CreateFile(d: Disk, p: Path, ino: Ino, stamp: int): Disk
    requires Vacant(d, p)
  {
    Bind(d, p, ino).(nodes := d.nodes[ino := Node(true, [], 1, stamp, stamp)])
  }

  function Append(d: Disk, ino: Ino, chunk: Bytes, stamp: int): Disk
    requires ino in d.nodes
  {
    var node := d.nodes[ino];
    d.(nodes := d.nodes[ino := node.(bytes := node.bytes + chunk, mtime := stamp, ctime := stamp)])
  }

  function AddLink(d: Disk, source: Path, target: Path, stamp: int): Disk
    requires IsFile(d, source) && Vacant(d, target)
  {
    var ino := Lookup(d, source).value;
    var node := d.nodes[ino];
    Bind(d, target, ino).(nodes := d.nodes[ino := node.(links := node.links + 1, ctime := stamp)])
  }

  function RemoveLink(d: Disk, p: Path, stamp: int): Disk
    requires IsFile(d, p)
  {
    var ino := Lookup(d, p).value;
    var node := d.nodes[ino];
    if node.links <= 1 then Unbind(d, p).(nodes := d.nodes - {ino})
    else Unbind(d, p).(nodes := d.nodes[ino := node.(links := node.links - 1, ctime := stamp)])
  }

  function MakeDir(d: Disk, n: Name, id: DirId): Disk
    requires n !in d.top
  {
    d.(top := d.top[n := DirAt(id, map[])])
  }

  function RemoveDir(d: Disk, n: Name): Disk
    requires n in d.top && d.top[n].DirAt? && d.top[n].children == map[]
  {
    d.(top := d.top - {n})
  }

  // ---- link conservation ----

  function Paths(d: Disk): set<Path> {
    (set n | n in d.top :: Top(n)) +
    (set n, m | n in d.top && d.top[n].DirAt? && m in d.top[n].children :: Under(n, m))
  }

  /** The names under which `.local` reaches an inode. */
  function Names(d: Disk, ino: Ino): set<Path> {
    set p | p in Paths(d) && Lookup(d, p) == Some(ino)
  }

  function Links(d: Disk, ino: Ino): nat {
    if ino in d.nodes then d.nodes[ino].links else 0
  }

  /** Links that come from outside `.local`. */
  function Excess(d: Disk, ino: Ino): int {
    Links(d, ino) - |Names(d, ino)|
  }

  /** No inode has more names than links; in particular no name dangles. */
  ghost predicate Consistent(d: Disk) {
    forall ino: Ino :: Excess(d, ino) >= 0
  }

  ghost predicate SameExcess(d: Disk, d': Disk) {
    forall ino: Ino :: Excess(d', ino) == Excess(d, ino)
  }

  lemma NamesAre(d: Disk, ino: Ino, p: Path)
    ensures p in Names(d, ino) <==> Lookup(d, p) == Some(ino)
  {
  }

  lemma BindNames(d: Disk, p: Path, ino: Ino, j: Ino)
    requires Vacant(d, p)
    ensures Names(Bind(d, p, ino), j) == Names(d, j) + (if j == ino then {p} else {})
  {
    var d' := Bind(d, p, ino);
    forall q ensures q in Names(d', j) <==> q in Names(d, j) + (if j == ino then {p} else {}) {
      NamesAre(d', j, q);
      NamesAre(d, j, q);
    }
  }

  lemma UnbindNames(d: Disk, p: Path, j: Ino)
    requires Lookup(d, p).Some?
    ensures Names(Unbind(d, p), j) == Names(d, j) - {p}
  {
    var d' := Unbind(d, p);
    forall q ensures q in Names(d', j) <==> q in Names(d, j) - {p} {
      NamesAre(d', j, q);
      NamesAre(d, j, q);
    }
  }

  lemma SameLookupsSameNames(d: Disk, d': Disk, j: Ino)
    requires forall q :: Lookup(d, q) == Lookup(d', q)
    ensures Names(d, j) == Names(d', j)
  {
    forall q ensures q in Names(d', j) <==> q in Names(d, j) {
      NamesAre(d', j, q);
      NamesAre(d, j, q);
    }
  }

  lemma NoDangling(d: Disk, p: Path)
    requires Consistent(d) && Lookup(d, p).Some?
    ensures IsFile(d, p) && d.nodes[Lookup(d, p).value].links >= 1
  {
    var ino := Lookup(d, p).value;
    NamesAre(d, ino, p);
    assert Names(d, ino) != {};
    assert Excess(d, ino) >= 0;
  }

  /** A file with one link has one name. */
  lemma SingleName(d: Disk, p: Path, q: Path)
    requires Consistent(d) && IsFile(d, p) && Lookup(d, q) == Lookup(d, p)
    requires d.nodes[Lookup(d, p).value].links == 1
    ensures p == q
  {
    var ino := Lookup(d, p).value;
    NamesAre(d, ino, p);
    NamesAre(d, ino, q);
    assert Excess(d, ino) >= 0;
    if p != q {
      assert {p, q} <= Names(d, ino);
      CardinalityMonotone({p, q}, Names(d, ino));
    }
  }

  lemma CardinalityMonotone<T>(a: set<T>, b: set<T>)
    requires a <= b
    ensures |a| <= |b|
  {
    assert b == a + (b - a);
  }

  lemma CreateConserves(d: Disk, p: Path, ino: Ino, stamp: int)
    requires Consistent(d) && Vacant(d, p) && ino !in d.nodes
    ensures SameExcess(d, CreateFile(d, p, ino, stamp)) && Consistent(CreateFile(d, p, ino, stamp))
  {
    var d' := CreateFile(d, p, ino, stamp);
    forall j: Ino ensures Excess(d', j) == Excess(d, j) && Excess(d', j) >= 0 {
      BindNames(d, p, ino, j);
      SameLookupsSameNames(d', Bind(d, p, ino), j);
      NamesAre(d, ino, p);
      assert Excess(d, j) >= 0;
    }
  }

  lemma AppendConserves(d: Disk, ino: Ino, chunk: Bytes, stamp: int)
    requires Consistent(d) && ino in d.nodes
    ensures SameExcess(d, Append(d, ino, chunk, stamp)) && Consistent(Append(d, ino, chunk, stamp))
  {
    var d' := Append(d, ino, chunk, stamp);
    forall j: Ino ensures Excess(d', j) == Excess(d, j) && Excess(d', j) >= 0 {
      SameLookupsSameNames(d, d', j);
      assert Excess(d, j) >= 0;
    }
  }

  lemma AddLinkConserves(d: Disk, source: Path, target: Path, stamp: int)
    requires Consistent(d) && IsFile(d, source) && Vacant(d, target)
    ensures SameExcess(d, AddLink(d, source, target, stamp)) && Consistent(AddLink(d, source, target, stamp))
  {
    var d' := AddLink(d, source, target, stamp);
    var ino := Lookup(d, source).value;
    forall j: Ino ensures Excess(d', j) == Excess(d, j) && Excess(d', j) >= 0 {
      BindNames(d, target, ino, j);
      SameLookupsSameNames(d', Bind(d, target, ino), j);
      NamesAre(d, ino, target);
      assert Excess(d, j) >= 0;
    }
  }

  lemma RemoveLinkConserves(d: Disk, p: Path, stamp: int)
    requires Consistent(d) && IsFile(d, p)
    ensures SameExcess(d, RemoveLink(d, p, stamp)) && Consistent(RemoveLink(d, p, stamp))
  {
    var d' := RemoveLink(d, p, stamp);
    var ino := Lookup(d, p).value;
    NoDangling(d, p);
    forall j: Ino ensures Excess(d', j) == Excess(d, j) && Excess(d', j) >= 0 {
      UnbindNames(d, p, j);
      SameLookupsSameNames(d', Unbind(d, p), j);
      NamesAre(d, j, p);
      assert Excess(d, j) >= 0;
    }
  }

  lemma DirEditsConserve(d: Disk, n: Name, id: DirId)
    requires Consistent(d)
    ensures n !in d.top ==> SameExcess(d, MakeDir(d, n, id)) && Consistent(MakeDir(d, n, id))
    ensures n in d.top && d.top[n].DirAt? && d.top[n].children == map[] ==>
              SameExcess(d, RemoveDir(d, n)) && Consistent(RemoveDir(d, n))
  {
    if n !in d.top {
      var d' := MakeDir(d, n, id);
      forall j: Ino ensures Excess(d', j) == Excess(d, j) && Excess(d', j) >= 0 {
        SameLookupsSameNames(d, d', j);
        assert Excess(d, j) >= 0;
      }
    } else if d.top[n].DirAt? && d.top[n].children == map[] {
      var d' := RemoveDir(d, n);
      forall j: Ino ensures Excess(d', j) == Excess(d, j) && Excess(d', j) >= 0 {
        SameLookupsSameNames(d, d', j);
        assert Excess(d, j) >= 0;
      }
    }
  }
}

/** The software bill of materials: its dependency graph, package inventory and
    coverage (tools/local-container/container_release_evidence.py:962-1139). */
module SbomGraph {
  import opened Basics
  import opened TextOrder

  type Graph = map<string, seq<string>>

  /** `dependency_graph.get(reference, [])`. */
  function Children(g: Graph, r: string): seq<string> {
    if r in g then g[r] else []
  }

  ghost predicate IsPath(g: Graph, p: seq<string>) {
    && p != []
    && forall i :: 0 <= i < |p| - 1 ==> p[i + 1] in Children(g, p[i])
  }

  ghost predicate Leads(g: Graph, p: seq<string>, from: string, to: string) {
    IsPath(g, p) && p[0] == from && p[|p| - 1] == to
  }

  ghost predicate Reaches(g: Graph, from: string, to: string) {
    exists p :: Leads(g, p, from, to)
  }

  lemma ReachesItself(g: Graph, r: string)
    ensures Reaches(g, r, r)
  {
    assert Leads(g, [r], r, r);
  }

  lemma ReachesOn(g: Graph, root: string, r: string, child: string)
    requires Reaches(g, root, r) && child in Children(g, r)
    ensures Reaches(g, root, child)
  {
    var p :| Leads(g, p, root, r);
    assert Leads(g, p + [child], root, child);
  }

  /** A set that holds the start and is closed under edges holds the whole path. */
  lemma {:induction false} ClosedHoldsPath(g: Graph, s: set<string>, p: seq<string>, k: nat)
    requires IsPath(g, p) && p[0] in s && k < |p|
    requires forall x, y :: x in s && y in Children(g, x) ==> y in s
    ensures p[k] in s
  {
    if k > 0 {
      ClosedHoldsPath(g, s, p, k - 1);
    }
  }

  lemma ClosedHoldsAll(g: Graph, s: set<string>, root: string)
    requires root in s && forall x, y :: x in s && y in Children(g, x) ==> y in s
    ensures forall r :: Reaches(g, root, r) ==> r in s
  {
    forall r | Reaches(g, root, r) ensures r in s {
      var p :| Leads(g, p, root, r);
      ClosedHoldsPath(g, s, p, |p| - 1);
    }
  }

  function Nodes(g: Graph, root: string): set<string> {
    {root} + (set r, i | r in g && 0 <= i < |g[r]| :: g[r][i])
  }

  lemma NodesHoldChildren(g: Graph, root: string)
    ensures root in Nodes(g, root)
    ensures forall r, x :: x in Children(g, r) ==> x in Nodes(g, root)
  {
  }

  lemma Shrinks(all: set<string>, done: set<string>, x: string)
    requires x in all && x !in done
    ensures |all - (done + {x})| < |all - done|
  {
    assert all - done == (all - (done + {x})) + {x};
  }

  /** The worklist: it ends on every graph, cyclic ones included, and finds exactly
      what a path from the root leads to. */
  method Reachable(g: Graph, root: string) returns (reachable: set<string>)
    ensures forall r :: r in reachable <==> Reaches(g, root, r)
  {
    hide Reaches, Nodes, Children;
    NodesHoldChildren(g, root);
    reachable := {};
    var pending := [root];
    ReachesItself(g, root);
    while pending != []
      invariant reachable <= Nodes(g, root) && (forall x :: x in pending ==> x in Nodes(g, root))
      invariant forall x :: x in reachable ==> Reaches(g, root, x)
      invariant forall x :: x in pending ==> Reaches(g, root, x)
      invariant root in reachable || root in pending
      invariant forall x, y :: x in reachable && y in Children(g, x) ==> y in reachable || y in pending
      decreases |Nodes(g, root) - reachable|, |pending|
    {
      var reference := pending[|pending| - 1];
      ghost var before := pending;
      pending := pending[..|pending| - 1];
      assert forall x :: x in before ==> x in pending || x == reference;
      if reference in reachable {
        continue;
      }
      Shrinks(Nodes(g, root), reachable, reference);
      reachable := reachable + {reference};
      pending := pending + Children(g, reference);
      forall x | x in Children(g, reference) ensures x in Nodes(g, root) && Reaches(g, root, x) {
        ReachesOn(g, root, reference, x);
      }
    }
    ClosedHoldsAll(g, reachable, root);
  }

  // ---- the document ----

  const MAX_COMPONENTS: nat := 100_000
  const MAX_PURL: nat := 2048

  datatype ComponentKind = Library | OperatingSystem | OtherKind(accepted: bool)
  datatype Component = Component(reference: string, kind: ComponentKind, name: string, version: Option<string>,
      purl: Option<string>)
  datatype Dependency = Dependency(reference: string, dependsOn: seq<string>)
  datatype Sbom = Sbom(
    headerValid: bool, rootReference: string, diffIds: seq<string>,
    components: seq<Component>, dependencies: seq<Dependency>, vulnerabilities: nat)
  datatype SbomRecord = SbomRecord(componentCount: nat, purls: seq<string>, diffIdCount: nat, passed: bool)
  datatype System = System(name: string, version: string)

  predicate Unique<T(==)>(s: seq<T>) {
    forall i, j :: 0 <= i < j < |s| ==> s[i] != s[j]
  }

  function VersionText(v: Option<string>): string {
    if v.None? then "None" else v.value
  }

  predicate ComponentValid(c: Component) {
    && c.reference != "" && !(c.kind.OtherKind? && !c.kind.accepted) && c.name != ""
    && (c.version.Some? ==> c.version.value != "")
    && (c.kind.Library? ==> c.purl.Some? && "pkg:" <= c.purl.value && |c.purl.value| <= MAX_PURL)
  }

  function References(root: string, components: seq<Component>): (r: seq<string>)
    ensures |r| == |components| + 1
  {
    [root] + seq(|components|, i requires 0 <= i < |components| => components[i].reference)
  }

  function LibraryPurls(components: seq<Component>): seq<string> {
    if components == [] then []
    else
      var last := components[|components| - 1];
      LibraryPurls(components[..|components| - 1]) + (if last.kind.Library?
          && last.purl.Some? then [last.purl.value] else [])
  }

  function Systems(components: seq<Component>): seq<System> {
    if components == [] then []
    else
      var last := components[|components| - 1];
      Systems(components[..|components| - 1]) + (if last.kind.OperatingSystem? then [System(last.name,
          VersionText(last.version))] else [])
  }

  function Kinds(components: seq<Component>): set<ComponentKind> {
    set i | 0 <= i < |components| :: components[i].kind
  }

  function GraphOf(dependencies: seq<Dependency>): Graph {
    if dependencies == [] then map[]
    else
      var last := dependencies[|dependencies| - 1];
      GraphOf(dependencies[..|dependencies| - 1])[last.reference := last.dependsOn]
  }

  predicate DependencyValid(d: Dependency, references: seq<string>) {
    d.reference in references && Unique(d.dependsOn) && forall x :: x in d.dependsOn ==> x in references
  }

  function DependencyRefs(dependencies: seq<Dependency>): (r: seq<string>)
    ensures |r| == |dependencies|
  {
    seq(|dependencies|, i requires 0 <= i < |dependencies| => dependencies[i].reference)
  }

  predicate ComponentsValid(s: Sbom) {
    && s.rootReference != ""
    && 1 <= |s.components| <= MAX_COMPONENTS
    && (forall i :: 0 <= i < |s.components| ==> ComponentValid(s.components[i]))
    && Unique(References(s.rootReference, s.components))
    && Unique(LibraryPurls(s.components))
  }

  predicate DependenciesValid(s: Sbom) {
    var references := References(s.rootReference, s.components);
    && s.dependencies != []
    && (forall i :: 0 <= i < |s.dependencies| ==> DependencyValid(s.dependencies[i], references))
    && Unique(DependencyRefs(s.dependencies))
    && s.rootReference in DependencyRefs(s.dependencies)
  }

  /** Every component hangs off the root. */
  ghost predicate AllReachable(s: Sbom) {
    forall r :: r in References(s.rootReference, s.components) ==> Reaches(GraphOf(s.dependencies), s.rootReference, r)
  }

  /** The bill describes the scanned image and nothing else. */
  predicate Covers(s: Sbom, diffIds: seq<string>, purls: seq<string>, system: System) {
    && multiset(s.diffIds) == multiset(diffIds)
    && Kinds(s.components) == {Library, OperatingSystem}
    && Systems(s.components) == [system]
    && multiset(LibraryPurls(s.components)) == multiset(purls)
    && s.vulnerabilities == 0
  }

  // ---- `_sbom_summary` ----

  lemma ComponentsSnoc(root: string, components: seq<Component>, k: nat)
    requires k < |components|
    ensures var before, after, c := components[..k], components[..k + 1], components[k];
            && References(root, after) == References(root, before) + [c.reference]
            && LibraryPurls(after) == LibraryPurls(before) + (if c.kind.Library?
                && c.purl.Some? then [c.purl.value] else [])
            && Systems(after) == Systems(before) + (if c.kind.OperatingSystem? then [System(c.name,
                VersionText(c.version))] else [])
            && Kinds(after) == Kinds(before) + {c.kind}
    ensures References(root, components[..k + 1]) <= References(root, components)
  {
    assert components[..k + 1][..k] == components[..k];
    forall x | x in Kinds(components[..k]) + {components[k].kind} ensures x in Kinds(components[..k + 1]) {
      if x == components[k].kind {
        assert components[..k + 1][k].kind == x;
      } else {
        var i :| 0 <= i < k && components[..k][i].kind == x;
        assert components[..k + 1][i].kind == x;
      }
    }
  }

  lemma {:induction false} LibrariesPrefix(components: seq<Component>, k: nat)
    requires k <= |components|
    ensures LibraryPurls(components[..k]) <= LibraryPurls(components)
    decreases |components| - k
  {
    if k < |components| {
      ComponentsSnoc("", components, k);
      LibrariesPrefix(components, k + 1);
    } else {
      assert components[..k] == components;
    }
  }

  lemma UniqueSnoc<T>(s: seq<T>, x: T)
    ensures Unique(s + [x]) <==> Unique(s) && x !in s
  {
    if Unique(s + [x]) {
      forall i, j | 0 <= i < j < |s| ensures s[i] != s[j] {
        assert (s + [x])[i] != (s + [x])[j];
      }
      forall i | 0 <= i < |s| ensures s[i] != x {
        assert (s + [x])[i] != (s + [x])[|s|];
      }
    }
  }

  lemma UniquePrefix<T>(s: seq<T>, t: seq<T>)
    requires s <= t && Unique(t)
    ensures Unique(s)
  {
    forall i, j | 0 <= i < j < |s| ensures s[i] != s[j] {
      assert t[i] == s[i] && t[j] == s[j];
    }
  }

  method CheckComponents(s: Sbom)
    returns (ok: bool, references: seq<string>, purls: seq<string>, systems: seq<System>, kinds: set<ComponentKind>)
    ensures ok <==> ComponentsValid(s)
    ensures ok ==> references == References(s.rootReference, s.components) && purls == LibraryPurls(s.components)
    ensures ok ==> systems == Systems(s.components) && kinds == Kinds(s.components)
  {
    hide LibraryPurls, Systems, Kinds, Unique;
    references, purls, systems, kinds := [s.rootReference], [], [], {};
    if s.rootReference == "" || s.components == [] || |s.components| > MAX_COMPONENTS {
      return false, references, purls, systems, kinds;
    }
    NothingYet();
    assert s.components[..0] == [];
    assert Unique([s.rootReference]) by { UniqueSnoc([],
        s.rootReference); assert [] + [s.rootReference] == [s.rootReference]; }
    for k := 0 to |s.components|
      invariant references == References(s.rootReference, s.components[..k]) && purls == LibraryPurls(s.components[..k])
      invariant systems == Systems(s.components[..k]) && kinds == Kinds(s.components[..k])
      invariant Unique(references) && Unique(purls)
      invariant forall i :: 0 <= i < k ==> ComponentValid(s.components[i])
    {
      var c := s.components[k];
      ComponentsSnoc(s.rootReference, s.components, k);
      LibrariesPrefix(s.components, k + 1);
      UniqueSnoc(references, c.reference);
      var kindRefused := c.kind.OtherKind? && !c.kind.accepted;
      if c.reference == "" || kindRefused || c.name == "" || c.version == Some("") {
        assert !ComponentValid(c);
        return false, references, purls, systems, kinds;
      }
      if c.kind.Library? && (c.purl.None? || !("pkg:" <= c.purl.value) || |c.purl.value| > 2048) {
        assert !ComponentValid(c);
        return false, references, purls, systems, kinds;
      }
      assert ComponentValid(c);
      if c.reference in references {
        assert !Unique(References(s.rootReference, s.components)) by {
          if Unique(References(s.rootReference, s.components)) {
            UniquePrefix(References(s.rootReference, s.components[..k + 1]), References(s.rootReference, s.components));
          }
        }
        return false, references, purls, systems, kinds;
      }
      references := references + [c.reference];
      kinds := kinds + {c.kind};
      if c.kind.Library? {
        UniqueSnoc(purls, c.purl.value);
        if c.purl.value in purls {
          assert !Unique(LibraryPurls(s.components)) by {
            if Unique(LibraryPurls(s.components)) {
              UniquePrefix(LibraryPurls(s.components[..k + 1]), LibraryPurls(s.components));
            }
          }
          return false, references, purls, systems, kinds;
        }
        purls := purls + [c.purl.value];
      } else if c.kind.OperatingSystem? {
        systems := systems + [System(c.name, if c.version.Some? then c.version.value else "None")];
      }
    }
    assert s.components[..|s.components|] == s.components;
    return true, references, purls, systems, kinds;
  }

  lemma NothingYet()
    ensures LibraryPurls([]) == [] && Systems([]) == [] && Kinds([]) == {}
    ensures Unique<string>([])
  {
  }

  lemma DependenciesSnoc(dependencies: seq<Dependency>, k: nat)
    requires k < |dependencies|
    ensures DependencyRefs(dependencies[..k + 1]) == DependencyRefs(dependencies[..k]) + [dependencies[k].reference]
    ensures DependencyRefs(dependencies[..k + 1]) <= DependencyRefs(dependencies)
    ensures var d := dependencies[k];
            GraphOf(dependencies[..k + 1]) == GraphOf(dependencies[..k])[d.reference := d.dependsOn]
  {
    assert dependencies[..k + 1][..k] == dependencies[..k];
  }

  method CheckDependencies(s: Sbom, references: seq<string>) returns (ok: bool, graph: Graph)
    requires references == References(s.rootReference, s.components)
    ensures ok <==> DependenciesValid(s)
    ensures ok ==> graph == GraphOf(s.dependencies)
  {
    hide GraphOf, References, Unique;
    graph := map[];
    if s.dependencies == [] {
      return false, graph;
    }
    var seen: seq<string> := [];
    NothingYet();
    assert s.dependencies[..0] == [] && GraphOf([]) == map[] by { NoGraph(); }
    for k := 0 to |s.dependencies|
      invariant seen == DependencyRefs(s.dependencies[..k]) && graph == GraphOf(s.dependencies[..k]) && Unique(seen)
      invariant forall i :: 0 <= i < k ==> DependencyValid(s.dependencies[i], references)
    {
      var d := s.dependencies[k];
      DependenciesSnoc(s.dependencies, k);
      UniqueSnoc(seen, d.reference);
      if d.reference in seen {
        assert !Unique(DependencyRefs(s.dependencies)) by {
          if Unique(DependencyRefs(s.dependencies)) {
            UniquePrefix(DependencyRefs(s.dependencies[..k + 1]), DependencyRefs(s.dependencies));
          }
        }
        return false, graph;
      }
      if d.reference !in references || !Unique(d.dependsOn) || exists x :: x in d.dependsOn && x !in references {
        assert !DependencyValid(d, references);
        return false, graph;
      }
      assert DependencyValid(d, references);
      seen := seen + [d.reference];
      graph := graph[d.reference := d.dependsOn];
    }
    assert s.dependencies[..|s.dependencies|] == s.dependencies;
    if s.rootReference !in seen {
      return false, graph;
    }
    return true, graph;
  }

  lemma NoGraph()
    ensures GraphOf([]) == map[]
  {
  }

  /** The references the edges may name are exactly the root's and the components'. */
  lemma ReachableAreReferences(s: Sbom, r: string)
    requires DependenciesValid(s) && Reaches(GraphOf(s.dependencies), s.rootReference, r)
    ensures r in References(s.rootReference, s.components)
  {
    var refs := References(s.rootReference, s.components);
    var known := set x | x in refs;
    assert refs[0] == s.rootReference;
    EdgesStay(s.dependencies, refs);
    ClosedHoldsAll(GraphOf(s.dependencies), known, s.rootReference);
  }

  lemma {:induction false} EdgesStay(dependencies: seq<Dependency>, refs: seq<string>)
    requires forall i :: 0 <= i < |dependencies| ==> DependencyValid(dependencies[i], refs)
    ensures forall x, y :: y in Children(GraphOf(dependencies), x) ==> y in refs
  {
    if dependencies != [] {
      var last := dependencies[|dependencies| - 1];
      EdgesStay(dependencies[..|dependencies| - 1], refs);
      assert DependencyValid(last, refs);
      forall x, y | y in Children(GraphOf(dependencies), x) ensures y in refs {
        assert x != last.reference ==> y in Children(GraphOf(dependencies[..|dependencies| - 1]), x);
      }
    }
  }

  method SbomSummary(s: Sbom, diffIds: seq<string>, purls: seq<string>, system: System, exitCode: int)
    returns (r: Option<SbomRecord>)
    ensures r.Some? <==>
            s.headerValid && ComponentsValid(s) && DependenciesValid(s) && AllReachable(s)
            && Covers(s, diffIds, purls, system)
    ensures r.Some? ==> r.value.componentCount == |s.components| && r.value.purls == LibraryPurls(s.components)
    ensures r.Some? ==> (r.value.passed <==> exitCode == 0)
  {
    hide ComponentsValid, DependenciesValid, LibraryPurls, Systems, Kinds, GraphOf, Reaches, Sort;
    SortComparesMultisets(s.diffIds, diffIds);
    if !s.headerValid || Sort(s.diffIds) != Sort(diffIds) {
      return None;
    }
    var ok, references, libraries, systems, kinds := CheckComponents(s);
    if !ok {
      return None;
    }
    var graph: Graph;
    ok, graph := CheckDependencies(s, references);
    if !ok {
      return None;
    }
    var reachable := Reachable(graph, s.rootReference);
    forall x | x in reachable ensures x in references {
      ReachableAreReferences(s, x);
    }
    if reachable != (set x | x in references) {
      return None;
    }
    if kinds != {Library, OperatingSystem} || systems != [system] {
      return None;
    }
    SortComparesMultisets(libraries, purls);
    if Sort(libraries) != Sort(purls) || s.vulnerabilities != 0 {
      return None;
    }
    return Some(SbomRecord(|s.components|, libraries, |s.diffIds|, exitCode == 0));
  }
}

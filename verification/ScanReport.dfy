/** Counting a vulnerability scan report
    (tools/local-container/container_release_evidence.py:741-959). */
module ScanReport {
  import opened Basics
  import opened SbomGraph

  const MAX_TEXT: nat := 2048

  datatype Package = Package(name: string, version: string, purl: string, layer: string, analyzer: string)
  datatype Vulnerability = Vulnerability(id: string, packageName: string, severity: string, installed: string,
      fixed: Option<string>)
  datatype ScanResult = ScanResult(target: string, scope: string, kind: string, packages: seq<Package>,
      vulnerabilities: Option<seq<Vulnerability>>)

  /** `headerValid` stands for the checks that compare the document's head with the
      image, the tool and the run. */
  datatype Report = Report(headerValid: bool, osFamily: string, osVersion: string, results: seq<ScanResult>)

  /** What identifies a finding; a missing fix is the empty string. */
  datatype Finding = Finding(scope: string, kind: string, id: string, packageName: string, installed: string,
      fixed: string, severity: string)

  datatype Tally = Tally(
    findings: seq<Finding>, fixable: seq<Finding>, unfixed: seq<Finding>,
    vulnerabilityCount: nat, fixableCount: nat, unfixedCount: nat, highCount: nat, criticalCount: nat)

  datatype ScanRecord = ScanRecord(tally: Tally, purls: seq<string>, packageCount: nat, osFamily: string,
      osVersion: string, passed: bool)

  const OS_PACKAGES := "os-pkgs"
  const LANGUAGE_PACKAGES := "lang-pkgs"

  // ---- what a report says ----

  function FindingFrom(r: ScanResult, v: Vulnerability): Finding {
    Finding(r.scope, r.kind, v.id, v.packageName, v.installed, if v.fixed.Some? then v.fixed.value else "", v.severity)
  }

  function FindingsOf(r: ScanResult): seq<Finding> {
    if r.vulnerabilities.None? then []
    else
      var list := r.vulnerabilities.value;
      seq(|list|, i requires 0 <= i < |list| => FindingFrom(r, list[i]))
  }

  function PurlsOf(r: ScanResult): (purls: seq<string>)
    ensures |purls| == |r.packages|
  {
    seq(|r.packages|, i requires 0 <= i < |r.packages| => r.packages[i].purl)
  }

  function AllFindings(results: seq<ScanResult>): seq<Finding> {
    if results == [] then [] else AllFindings(results[..|results| - 1]) + FindingsOf(results[|results| - 1])
  }

  function AllPurls(results: seq<ScanResult>): seq<string> {
    if results == [] then [] else AllPurls(results[..|results| - 1]) + PurlsOf(results[|results| - 1])
  }

  predicate Fixable(f: Finding) {
    f.fixed != ""
  }

  function Select(findings: seq<Finding>, fixable: bool): seq<Finding> {
    if findings == [] then []
    else
      var last := findings[|findings| - 1];
      Select(findings[..|findings| - 1], fixable) + (if Fixable(last) == fixable then [last] else [])
  }

  function Severe(findings: seq<Finding>, severity: string): nat {
    if findings == [] then 0
    else Severe(findings[..|findings| - 1], severity) + (if findings[|findings| - 1].severity == severity then 1 else 0)
  }

  function TallyOf(findings: seq<Finding>): Tally {
    Tally(findings, Select(findings, true), Select(findings, false),
          |findings|, |Select(findings, true)|, |Select(findings, false)|, Severe(findings, "HIGH"),
              Severe(findings, "CRITICAL"))
  }

  // ---- when a report is acceptable ----

  datatype ResultKey = ResultKey(target: string, scope: string, kind: string)

  predicate InScope(r: ScanResult, osFamily: string) {
    (r.scope == OS_PACKAGES && r.kind == osFamily) || (r.scope == LANGUAGE_PACKAGES && r.kind == "python-pkg")
  }

  predicate PackageValid(r: ScanResult, p: Package, layers: seq<string>) {
    && p.name != "" && p.version != "" && |p.purl| <= MAX_TEXT && p.layer in layers
    && (if r.scope == OS_PACKAGES then "pkg:deb/" else "pkg:pypi/") <= p.purl
    && p.analyzer == (if r.scope == OS_PACKAGES then "dpkg" else "python-pkg")
  }

  predicate VulnerabilityValid(v: Vulnerability, gate: bool) {
    && 1 <= |v.id| <= MAX_TEXT && 1 <= |v.packageName| <= MAX_TEXT && 1 <= |v.installed| <= MAX_TEXT
    && (v.severity == "HIGH" || v.severity == "CRITICAL")
    && (v.fixed.Some? ==> |v.fixed.value| <= MAX_TEXT)
    && (gate ==> v.fixed.Some? && v.fixed.value != "")
  }

  predicate ResultValid(r: ScanResult, osFamily: string, layers: seq<string>, gate: bool) {
    && r.target != "" && r.scope != "" && r.kind != "" && InScope(r, osFamily) && r.packages != []
    && (forall i :: 0 <= i < |r.packages| ==> PackageValid(r, r.packages[i], layers))
    && (r.vulnerabilities.Some? ==> forall i :: 0 <= i < |r.vulnerabilities.value| ==>
        VulnerabilityValid(r.vulnerabilities.value[i], gate))
  }

  function KeysOf(results: seq<ScanResult>): (keys: seq<ResultKey>)
    ensures |keys| == |results|
  {
    seq(|results|, i requires 0 <= i < |results| => ResultKey(results[i].target, results[i].scope, results[i].kind))
  }

  predicate WithinLimit<T(==)>(s: seq<T>) {
    Unique(s) && |s| <= MAX_COMPONENTS
  }

  predicate BothScopes(results: seq<ScanResult>) {
    && (exists i :: 0 <= i < |results| && results[i].scope == OS_PACKAGES)
    && (exists i :: 0 <= i < |results| && results[i].scope == LANGUAGE_PACKAGES)
  }

  predicate ReportValid(report: Report, layers: seq<string>, gate: bool) {
    && report.headerValid && report.osFamily == "debian"
    && 1 <= |report.results| <= MAX_COMPONENTS
    && (forall i :: 0 <= i < |report.results| ==> ResultValid(report.results[i], report.osFamily, layers, gate))
    && Unique(KeysOf(report.results)) && WithinLimit(AllPurls(report.results))
        && WithinLimit(AllFindings(report.results))
    && BothScopes(report.results)
  }

  // ---- counting ----

  lemma TallySnoc(findings: seq<Finding>, f: Finding)
    ensures var t := TallyOf(findings);
            TallyOf(findings + [f]) == Tally(
              findings + [f],
              t.fixable + (if Fixable(f) then [f] else []), t.unfixed + (if Fixable(f) then [] else [f]),
              t.vulnerabilityCount + 1, t.fixableCount + (if Fixable(f) then 1 else 0),
                  t.unfixedCount + (if Fixable(f) then 0 else 1),
              t.highCount + (if f.severity == "HIGH" then 1 else 0),
                  t.criticalCount + (if f.severity == "CRITICAL" then 1 else 0))
  {
    assert (findings + [f])[..|findings|] == findings;
  }

  predicate Graded(findings: seq<Finding>) {
    forall i :: 0 <= i < |findings| ==> findings[i].severity == "HIGH" || findings[i].severity == "CRITICAL"
  }

  /** Counts add up: every finding is fixable or not, and of one severity. */
  lemma {:induction false} CountsConserved(findings: seq<Finding>)
    ensures var t := TallyOf(findings); t.fixableCount + t.unfixedCount == t.vulnerabilityCount
    ensures Graded(findings) ==>
            TallyOf(findings).highCount + TallyOf(findings).criticalCount == TallyOf(findings).vulnerabilityCount
  {
    if findings != [] {
      var init, last := findings[..|findings| - 1], findings[|findings| - 1];
      assert findings == init + [last];
      CountsConserved(init);
      TallySnoc(init, last);
    }
  }

  lemma {:induction false} FindingsConserved(findings: seq<Finding>)
    ensures multiset(Select(findings, true)) + multiset(Select(findings, false)) == multiset(findings)
    ensures Select(findings, true) == [] <==> forall f :: f in findings ==> !Fixable(f)
  {
    hide Fixable;
    if findings != [] {
      var init, last := findings[..|findings| - 1], findings[|findings| - 1];
      assert findings == init + [last];
      FindingsConserved(init);
    }
  }

  // ---- the findings, by their vulnerabilities ----

  /** There is an i-th result with a j-th vulnerability. */
  ghost predicate InReport(results: seq<ScanResult>, i: int, j: int) {
    0 <= i < |results| && results[i].vulnerabilities.Some? && 0 <= j < |results[i].vulnerabilities.value|
  }

  ghost function At(results: seq<ScanResult>, i: int, j: int): Vulnerability
    requires InReport(results, i, j)
  {
    results[i].vulnerabilities.value[j]
  }

  /** How many vulnerabilities come before it. */
  ghost function Place(results: seq<ScanResult>, i: int, j: int): (k: nat)
    requires InReport(results, i, j)
    ensures k < |AllFindings(results)|
  {
    PrefixStep(results, i);
    PrefixesGrow(results, i + 1);
    |AllFindings(results[..i])| + j
  }

  /** The finding has the result's scope and kind and each field of the vulnerability. */
  ghost predicate Carries(f: Finding, r: ScanResult, v: Vulnerability) {
    && f.scope == r.scope && f.kind == r.kind && f.id == v.id && f.packageName == v.packageName
    && f.installed == v.installed && f.severity == v.severity
    && (v.fixed.Some? ==> f.fixed == v.fixed.value) && (v.fixed.None? ==> f.fixed == "")
  }

  lemma FindingAt(results: seq<ScanResult>, i: int, j: int)
    requires InReport(results, i, j)
    ensures Carries(AllFindings(results)[Place(results, i, j)], results[i], At(results, i, j))
  {
    hide AllPurls, AllFindings, PurlsOf, FindingsOf, KeysOf;
    PrefixStep(results, i);
    PrefixesGrow(results, i + 1);
    FindingCarries(results[i], j);
    var k := |AllFindings(results[..i])| + j;
    assert AllFindings(results[..i + 1])[k] == FindingsOf(results[i])[j];
    assert AllFindings(results)[k] == AllFindings(results[..i + 1])[k];
  }

  lemma FindingCarries(r: ScanResult, j: nat)
    requires r.vulnerabilities.Some? && j < |r.vulnerabilities.value|
    ensures |FindingsOf(r)| == |r.vulnerabilities.value|
    ensures Carries(FindingsOf(r)[j], r, r.vulnerabilities.value[j])
  {
  }

  predicate HasFix(v: Vulnerability) {
    v.fixed.Some? && v.fixed.value != ""
  }

  ghost function FixesAmong(list: seq<Vulnerability>): nat {
    |set j | 0 <= j < |list| && HasFix(list[j])|
  }

  /** How many vulnerabilities of the report have a fixed version. */
  ghost function FixesIn(results: seq<ScanResult>): nat {
    if results == [] then 0
    else
      var r := results[|results| - 1];
      FixesIn(results[..|results| - 1])
      + (if r.vulnerabilities.None? then 0 else FixesAmong(r.vulnerabilities.value))
  }

  lemma {:induction false} SelectAppend(a: seq<Finding>, b: seq<Finding>, fixable: bool)
    ensures Select(a + b, fixable) == Select(a, fixable) + Select(b, fixable)
  {
    if b == [] {
      assert a + b == a;
    } else {
      var n := |b| - 1;
      assert (a + b)[..|a| + n] == a + b[..n];
      SelectAppend(a, b[..n], fixable);
    }
  }

  lemma {:induction false} FixesOfResult(r: ScanResult, list: seq<Vulnerability>)
    ensures |Select(Listed(r, list), true)| == FixesAmong(list)
  {
    if list != [] {
      hide FixesAmong, HasFix, Listed;
      var n := |list| - 1;
      FixesOfResult(r, list[..n]);
      FixesGrow(list);
      ListedGrows(r, list);
    }
  }

  ghost function Listed(r: ScanResult, list: seq<Vulnerability>): seq<Finding> {
    seq(|list|, i requires 0 <= i < |list| => FindingFrom(r, list[i]))
  }

  lemma ListedGrows(r: ScanResult, list: seq<Vulnerability>)
    requires list != []
    ensures var n := |list| - 1;
            var all := Listed(r, list);
            |all| == |list| && all[..n] == Listed(r, list[..n]) && (Fixable(all[n]) <==> HasFix(list[n]))
  {
  }

  lemma FixesGrow(list: seq<Vulnerability>)
    requires list != []
    ensures var n := |list| - 1;
            FixesAmong(list) == FixesAmong(list[..n]) + (if HasFix(list[n]) then 1 else 0)
  {
    hide HasFix;
    var n := |list| - 1;
    var before, after := set j | 0 <= j < n && HasFix(list[..n][j]), set j | 0 <= j < |list| && HasFix(list[j]);
    assert after == before + (if HasFix(list[n]) then {n} else {});
  }

  lemma {:induction false} FixesCounted(results: seq<ScanResult>)
    ensures TallyOf(AllFindings(results)).fixableCount == FixesIn(results)
  {
    if results != [] {
      var n := |results| - 1;
      FixesCounted(results[..n]);
      SelectAppend(AllFindings(results[..n]), FindingsOf(results[n]), true);
      if results[n].vulnerabilities.Some? {
        FixesOfResult(results[n], results[n].vulnerabilities.value);
      }
    }
  }

  lemma PrefixStep(results: seq<ScanResult>, k: nat)
    requires k < |results|
    ensures AllPurls(results[..k + 1]) == AllPurls(results[..k]) + PurlsOf(results[k])
    ensures AllFindings(results[..k + 1]) == AllFindings(results[..k]) + FindingsOf(results[k])
    ensures KeysOf(results[..k + 1]) == KeysOf(results[..k]) + [ResultKey(results[k].target, results[k].scope,
        results[k].kind)]
    ensures KeysOf(results[..k + 1]) <= KeysOf(results)
  {
    assert results[..k + 1][..k] == results[..k];
  }

  lemma {:induction false} PrefixesGrow(results: seq<ScanResult>, k: nat)
    requires k <= |results|
    ensures AllPurls(results[..k]) <= AllPurls(results)
    ensures AllFindings(results[..k]) <= AllFindings(results)
    decreases |results| - k
  {
    hide AllPurls, AllFindings, PurlsOf, FindingsOf;
    if k < |results| {
      PrefixStep(results, k);
      PrefixesGrow(results, k + 1);
    } else {
      assert results[..k] == results;
    }
  }

  lemma LimitedPrefix<T>(s: seq<T>, t: seq<T>)
    requires s <= t && WithinLimit(t)
    ensures WithinLimit(s)
  {
    UniquePrefix(s, t);
  }

  /** The package loop of one result. */
  method ScanPackages(r: ScanResult, layers: seq<string>, seen: seq<string>) returns (ok: bool, purls: seq<string>)
    requires WithinLimit(seen)
    ensures ok <==>
            (forall i :: 0 <= i < |r.packages| ==> PackageValid(r, r.packages[i], layers))
            && WithinLimit(seen + PurlsOf(r))
    ensures ok ==> purls == seen + PurlsOf(r)
  {
    hide Unique;
    purls := seen;
    var prefix := if r.scope == "os-pkgs" then "pkg:deb/" else "pkg:pypi/";
    var analyzer := if r.scope == "os-pkgs" then "dpkg" else "python-pkg";
    for k := 0 to |r.packages|
      invariant purls == seen + PurlsOf(r)[..k] && WithinLimit(purls)
      invariant forall i :: 0 <= i < k ==> PackageValid(r, r.packages[i], layers)
    {
      var p := r.packages[k];
      UniqueSnoc(purls, p.purl);
      ghost var all := seen + PurlsOf(r);
      assert purls + [p.purl] == all[..|seen| + k + 1];
      if p.name == "" || p.version == "" || !(prefix <= p.purl) || |p.purl| > 2048 || p.layer !in layers
          || p.analyzer != analyzer {
        assert !PackageValid(r, p, layers);
        return false, purls;
      }
      assert PackageValid(r, p, layers);
      if p.purl in purls || |purls| + 1 > MAX_COMPONENTS {
        assert !WithinLimit(all) by { if WithinLimit(all) { LimitedPrefix(purls + [p.purl], all); } }
        return false, purls;
      }
      purls := purls + [p.purl];
    }
    assert PurlsOf(r)[..|r.packages|] == PurlsOf(r);
    return true, purls;
  }

  /** The vulnerability loop of one result. */
  method ScanFindings(r: ScanResult, gate: bool, before: Tally) returns (ok: bool, tally: Tally)
    requires before == TallyOf(before.findings) && WithinLimit(before.findings)
    ensures ok <==>
            (r.vulnerabilities.Some? ==> forall i :: 0 <= i < |r.vulnerabilities.value| ==>
            VulnerabilityValid(r.vulnerabilities.value[i], gate))
                    && WithinLimit(before.findings + FindingsOf(r))
    ensures ok ==> tally == TallyOf(before.findings + FindingsOf(r))
  {
    hide Unique, TallyOf;
    tally := before;
    if r.vulnerabilities.None? {
      assert before.findings + FindingsOf(r) == before.findings;
      return true, tally;
    }
    var records := r.vulnerabilities.value;
    ghost var all := before.findings + FindingsOf(r);
    for k := 0 to |records|
      invariant tally == TallyOf(tally.findings) && tally.findings == before.findings + FindingsOf(r)[..k]
      invariant WithinLimit(tally.findings)
      invariant forall i :: 0 <= i < k ==> VulnerabilityValid(records[i], gate)
    {
      var v := records[k];
      var fix := if v.fixed.Some? then v.fixed.value else "";
      var isFixable := fix != "";
      var f := Finding(r.scope, r.kind, v.id, v.packageName, v.installed, fix, v.severity);
      UniqueSnoc(tally.findings, f);
      TallySnoc(tally.findings, f);
      assert tally.findings + [f] == all[..|before.findings| + k + 1];
      if v.id == "" || v.packageName == "" || (v.severity != "HIGH" && v.severity != "CRITICAL") {
        assert !VulnerabilityValid(v, gate);
        return false, tally;
      }
      if v.installed == "" || |v.installed| > 2048 || |fix| > 2048 || |v.id| > 2048 || |v.packageName| > 2048 {
        assert !VulnerabilityValid(v, gate);
        return false, tally;
      }
      if gate && !isFixable {
        assert !VulnerabilityValid(v, gate);
        return false, tally;
      }
      assert VulnerabilityValid(v, gate);
      if f in tally.findings || |tally.findings| + 1 > MAX_COMPONENTS {
        assert !WithinLimit(all) by { if WithinLimit(all) { LimitedPrefix(tally.findings + [f], all); } }
        return false, tally;
      }
      tally := Tally(
        tally.findings + [f],
        tally.fixable + (if isFixable then [f] else []), tally.unfixed + (if isFixable then [] else [f]),
        tally.vulnerabilityCount + 1,
        tally.fixableCount + (if isFixable then 1 else 0), tally.unfixedCount + (if isFixable then 0 else 1),
        tally.highCount + (if v.severity == "HIGH" then 1 else 0),
        tally.criticalCount + (if v.severity == "CRITICAL" then 1 else 0));
    }
    assert FindingsOf(r)[..|records|] == FindingsOf(r);
    return true, tally;
  }

  lemma KeysPrefixUnique(results: seq<ScanResult>, k: nat)
    requires k < |results| && Unique(KeysOf(results))
    ensures Unique(KeysOf(results[..k + 1]))
  {
    PrefixStep(results, k);
    UniquePrefix(KeysOf(results[..k + 1]), KeysOf(results));
  }

  /** What the first results prove of the report when the next one is refused. */
  lemma RefusedResult(report: Report, layers: seq<string>, gate: bool, k: nat)
    requires k < |report.results|
    requires !WithinLimit(AllPurls(report.results[..k + 1])) || !WithinLimit(AllFindings(report.results[..k + 1]))
        || !Unique(KeysOf(report.results[..k + 1]))
    ensures !ReportValid(report, layers, gate)
  {
    if ReportValid(report, layers, gate) {
      PrefixesGrow(report.results, k + 1);
      LimitedPrefix(AllPurls(report.results[..k + 1]), AllPurls(report.results));
      LimitedPrefix(AllFindings(report.results[..k + 1]), AllFindings(report.results));
      KeysPrefixUnique(report.results, k);
    }
  }

  lemma NothingScanned()
    ensures AllPurls([]) == [] && AllFindings([]) == [] && KeysOf([]) == []
    ensures TallyOf([]) == Tally([], [], [], 0, 0, 0, 0, 0)
    ensures WithinLimit<string>([]) && WithinLimit<Finding>([])
  {
  }

  /** `_scan_summary`: one pass over the report. It goes through exactly on valid
      reports, and its counts and lists are those of the whole report. */
  method ScanSummary(report: Report, layers: seq<string>, exitCode: int, gate: bool) returns (r: Option<ScanRecord>)
    ensures r.Some? <==> ReportValid(report, layers, gate)
    ensures r.Some? ==>
            r.value.tally == TallyOf(AllFindings(report.results)) && r.value.purls == AllPurls(report.results)
    ensures r.Some? ==>
            r.value.packageCount == |r.value.purls| && r.value.osFamily == report.osFamily
            && r.value.osVersion == report.osVersion
    ensures r.Some? ==> (r.value.passed <==> exitCode == 0 && (gate ==> AllFindings(report.results) == []))
    ensures r.Some? ==> r.value.tally.fixableCount == FixesIn(report.results)
    ensures r.Some? ==> forall i, j :: InReport(report.results, i, j) ==>
              Carries(r.value.tally.findings[Place(report.results, i, j)], report.results[i], At(report.results, i, j))
  {
    hide AllPurls, AllFindings, KeysOf, PurlsOf, FindingsOf, TallyOf, PackageValid, VulnerabilityValid, Unique,
         WithinLimit;
    if !report.headerValid || report.osFamily != "debian" || report.results == [] || |report.results| > MAX_COMPONENTS {
      return None;
    }
    NothingScanned();
    var tally := Tally([], [], [], 0, 0, 0, 0, 0);
    var purls: seq<string>, keys: seq<ResultKey>, os, language := [], [], false, false;
    assert report.results[..0] == [];
    for k := 0 to |report.results|
      invariant tally == TallyOf(tally.findings) && tally.findings == AllFindings(report.results[..k])
      invariant WithinLimit(tally.findings)
      invariant purls == AllPurls(report.results[..k]) && WithinLimit(purls)
      invariant keys == KeysOf(report.results[..k]) && (k > 0 ==> Unique(keys))
      invariant os <==> exists i :: 0 <= i < k && report.results[i].scope == OS_PACKAGES
      invariant language <==> exists i :: 0 <= i < k && report.results[i].scope == LANGUAGE_PACKAGES
      invariant forall i :: 0 <= i < k ==> ResultValid(report.results[i], report.osFamily, layers, gate)
    {
      var result := report.results[k];
      PrefixStep(report.results, k);
      if result.target == "" || result.scope == "" || result.kind == "" {
        assert !ResultValid(result, report.osFamily, layers, gate);
        return None;
      }
      var key := ResultKey(result.target, result.scope, result.kind);
      KeyAdded(keys, key);
      if key in keys {
        RefusedResult(report, layers, gate, k);
        return None;
      }
      keys := keys + [key];
      var osScope := result.scope == "os-pkgs" && result.kind == report.osFamily;
      var languageScope := result.scope == "lang-pkgs" && result.kind == "python-pkg";
      if (!osScope && !languageScope) || result.packages == [] {
        assert !ResultValid(result, report.osFamily, layers, gate);
        return None;
      }
      os, language := os || osScope, language || languageScope;
      var ok: bool;
      ok, purls := ScanPackages(result, layers, purls);
      if !ok {
        Refused(report, layers, gate, k);
        return None;
      }
      ok, tally := ScanFindings(result, gate, tally);
      if !ok {
        Refused(report, layers, gate, k);
        return None;
      }
      TallyFindings(AllFindings(report.results[..k + 1]));
    }
    assert report.results[..|report.results|] == report.results;
    TallyFindings(AllFindings(report.results));
    FixesCounted(report.results);
    forall i, j | InReport(report.results, i, j)
      ensures Carries(AllFindings(report.results)[Place(report.results, i, j)], report.results[i],
          At(report.results, i, j))
    {
      FindingAt(report.results, i, j);
    }
    if !os || !language {
      return None;
    }
    return Some(ScanRecord(tally, purls, |purls|, report.osFamily, report.osVersion, exitCode == 0
        && (!gate || tally.vulnerabilityCount == 0)));
  }

  lemma KeyAdded(keys: seq<ResultKey>, key: ResultKey)
    ensures keys == [] || Unique(keys) ==> (Unique(keys + [key]) <==> key !in keys)
  {
    UniqueSnoc(keys, key);
  }

  lemma TallyFindings(findings: seq<Finding>)
    ensures TallyOf(findings).findings == findings && TallyOf(findings).vulnerabilityCount == |findings|
  {
  }

  lemma Refused(report: Report, layers: seq<string>, gate: bool, k: nat)
    requires k < |report.results|
    requires var r := report.results[k];
             || !(forall i :: 0 <= i < |r.packages| ==> PackageValid(r, r.packages[i], layers))
             || !(r.vulnerabilities.Some? ==> forall i :: 0 <= i < |r.vulnerabilities.value| ==>
                 VulnerabilityValid(r.vulnerabilities.value[i], gate))
             || !WithinLimit(AllPurls(report.results[..k + 1])) || !WithinLimit(AllFindings(report.results[..k + 1]))
    ensures !ReportValid(report, layers, gate)
  {
    hide AllPurls, AllFindings, KeysOf, PackageValid, VulnerabilityValid, WithinLimit;
    if ReportValid(report, layers, gate) {
      assert ResultValid(report.results[k], report.osFamily, layers, gate);
      RefusedResultIf(report, layers, gate, k);
    }
  }

  lemma RefusedResultIf(report: Report, layers: seq<string>, gate: bool, k: nat)
    requires k < |report.results| && ReportValid(report, layers, gate)
    ensures WithinLimit(AllPurls(report.results[..k + 1])) && WithinLimit(AllFindings(report.results[..k + 1]))
  {
    if !WithinLimit(AllPurls(report.results[..k + 1])) || !WithinLimit(AllFindings(report.results[..k + 1])) {
      RefusedResult(report, layers, gate, k);
    }
  }
}

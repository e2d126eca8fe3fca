/** The release gate: three reports and an image, one verdict
    (tools/local-container/container_release_evidence.py:1252-1465). */
module ReleaseGate {
  import opened Basics
  import opened TextOrder
  import opened SbomGraph
  import opened ScanReport

  const DATABASE_SCHEMA: int := 2
  const SCANNER_VERSION := "0.74.0"

  datatype Failure =
    | EvidenceFileSetInvalid | SourceContextInvalid
    | BaseImageIdentityInvalid | ContainerImageIdentityInvalid
    | ToolMetadataInvalid | DatabaseMetadataInvalid
    | ScanInvalid | ScanCommandFailed | FixableFound
    | FullScanInvalid | FullScanCommandFailed | GateAndDiagnosticDisagree
    | SbomInvalid | SbomCommandFailed
    | GateFailed | FullDiagnosticFailed | SbomFailed | TimelineInvalid

  /** Whether the tool or its database was at fault. */
  datatype ToolEvidence = Tool(version: string, databaseSchema: int) | ToolFault | DatabaseFault

  /** Everything the verdict is drawn from. None where reading an identity raised. */
  datatype Evidence = Evidence(
    filesValid: bool, contextValid: bool,
    imageLayers: Option<seq<string>>, baseLayers: Option<seq<string>>,
    tool: ToolEvidence,
    gateReport: Report, gateExit: int,
    fullReport: Report, fullExit: int,
    sbom: Sbom, sbomExit: int, timelineValid: bool)

  /** `failures` is the set the source sorts. */
  datatype Verdict = Verdict(passed: bool, failures: set<Failure>)

  predicate StrictPrefix(base: seq<string>, image: seq<string>) {
    |base| < |image| && image[..|base|] == base
  }

  /** The identity that is compared between scans (`json.dumps` of the seven fields). */
  function Texts(identity: Finding -> string, findings: seq<Finding>): (t: seq<string>)
    ensures |t| == |findings|
  {
    seq(|findings|, i requires 0 <= i < |findings| => identity(findings[i]))
  }

  /** What a passing verdict says about the evidence. */
  ghost predicate Releasable(e: Evidence) {
    && e.filesValid && e.contextValid && e.timelineValid
    && e.imageLayers.Some? && e.baseLayers.Some? && StrictPrefix(e.baseLayers.value, e.imageLayers.value)
    && e.tool == Tool(SCANNER_VERSION, DATABASE_SCHEMA)
    && e.gateExit == 0 && e.fullExit == 0 && e.sbomExit == 0
    && ReportValid(e.gateReport, e.imageLayers.value, true) && AllFindings(e.gateReport.results) == []
    && ReportValid(e.fullReport, e.imageLayers.value, false)
        && (forall f :: f in AllFindings(e.fullReport.results) ==> !Fixable(f))
    && multiset(AllPurls(e.fullReport.results)) == multiset(AllPurls(e.gateReport.results))
    && e.sbom.headerValid && ComponentsValid(e.sbom) && DependenciesValid(e.sbom) && AllReachable(e.sbom)
    && Covers(e.sbom, e.imageLayers.value, AllPurls(e.gateReport.results),
        System(e.gateReport.osFamily, e.gateReport.osVersion))
  }

  ghost predicate ImageUsable(e: Evidence) {
    e.imageLayers.Some? && e.baseLayers.Some? && StrictPrefix(e.baseLayers.value, e.imageLayers.value)
  }

  method ImageFailures(e: Evidence) returns (failures: set<Failure>, layers: Option<seq<string>>)
    ensures layers == if ImageUsable(e) then e.imageLayers else None
    ensures failures == if ImageUsable(e) then {}
                        else if e.imageLayers.None? then {ContainerImageIdentityInvalid}
                        else {BaseImageIdentityInvalid}
  {
    if e.imageLayers.None? {
      return {ContainerImageIdentityInvalid}, None;
    }
    if e.baseLayers.None? || |e.imageLayers.value| <= |e.baseLayers.value|
        || e.imageLayers.value[..|e.baseLayers.value|] != e.baseLayers.value {
      return {BaseImageIdentityInvalid}, None;
    }
    return {}, e.imageLayers;
  }

  ghost predicate ToolIs(e: Evidence, version: string) {
    e.contextValid && e.tool.Tool? && e.tool.version == version
  }

  ghost predicate DatabaseIs(e: Evidence, schema: int) {
    e.contextValid && e.tool.Tool? && e.tool.databaseSchema == schema
  }

  method ToolFailures(e: Evidence) returns (failures: set<Failure>)
    ensures failures == (if ToolIs(e, "0.74.0") then {} else {ToolMetadataInvalid})
                        + (if DatabaseIs(e, 2) then {} else {DatabaseMetadataInvalid})
  {
    failures := {};
    var version, schema: int := "", 0;
    if !e.contextValid || e.tool.ToolFault? {
      failures := failures + {ToolMetadataInvalid};
    } else if e.tool.DatabaseFault? {
      failures := failures + {DatabaseMetadataInvalid};
    } else {
      version, schema := e.tool.version, e.tool.databaseSchema;
    }
    if schema != DATABASE_SCHEMA {
      failures := failures + {DatabaseMetadataInvalid};
    }
    if version != SCANNER_VERSION {
      failures := failures + {ToolMetadataInvalid};
    }
  }

  /** The record is that of this report and this exit code. */
  ghost predicate RecordOf(record: ScanRecord, report: Report, exitCode: int, gate: bool) {
    && record.tally == TallyOf(AllFindings(report.results)) && record.purls == AllPurls(report.results)
    && record.osFamily == report.osFamily && record.osVersion == report.osVersion
    && (record.passed <==> exitCode == 0 && (gate ==> AllFindings(report.results) == []))
  }

  /** One scan: the record, if the report is valid and there is an image to match. */
  method ScanOnce(e: Evidence, report: Report, layers: Option<seq<string>>, exitCode: int, gate: bool)
    returns (record: Option<ScanRecord>)
    requires layers == if ImageUsable(e) then e.imageLayers else None
    ensures record.Some? <==> Usable(e, report, gate)
    ensures record.Some? ==> RecordOf(record.value, report, exitCode, gate)
  {
    hide ReportValid, AllFindings, AllPurls, TallyOf, StrictPrefix;
    if layers.None? || !e.contextValid {
      return None;
    }
    record := ScanSummary(report, layers.value, exitCode, gate);
  }

  // ---- why the gate fails ----

  /** There is an image and a context, and the report is valid for them. */
  ghost predicate Usable(e: Evidence, report: Report, gate: bool) {
    ImageUsable(e) && e.contextValid && ReportValid(report, e.imageLayers.value, gate)
  }

  ghost function PurlsIf(e: Evidence, report: Report, gate: bool): seq<string> {
    if Usable(e, report, gate) then AllPurls(report.results) else []
  }

  ghost function FindingsIf(e: Evidence, report: Report, gate: bool): seq<Finding> {
    if Usable(e, report, gate) then AllFindings(report.results) else []
  }

  /** The operating system the bill must name: the gate report's, or text for none. */
  ghost function SystemIf(e: Evidence): System {
    if !Usable(e, e.gateReport, true) then System("None", "None")
    else System(e.gateReport.osFamily, e.gateReport.osVersion)
  }

  ghost predicate BillUsable(e: Evidence) {
    && ImageUsable(e) && e.contextValid
    && e.sbom.headerValid && ComponentsValid(e.sbom) && DependenciesValid(e.sbom) && AllReachable(e.sbom)
    && Covers(e.sbom, e.imageLayers.value, PurlsIf(e, e.gateReport, true), SystemIf(e))
  }

  ghost predicate SameTexts(identity: Finding -> string, a: seq<Finding>, b: seq<Finding>) {
    multiset(Texts(identity, a)) == multiset(Texts(identity, b))
  }

  /** The two scans saw the same packages and the same fixable findings, and the gate saw
      no others. */
  ghost predicate ScansAgree(identity: Finding -> string, e: Evidence) {
    var gate, full := FindingsIf(e, e.gateReport, true), FindingsIf(e, e.fullReport, false);
    && multiset(PurlsIf(e, e.fullReport, false)) == multiset(PurlsIf(e, e.gateReport, true))
    && SameTexts(identity, gate, Select(gate, true)) && SameTexts(identity, Select(gate, true), Select(full, true))
  }

  /** Each failure and what it is reported for. */
  ghost predicate Applies(identity: Finding -> string, e: Evidence, f: Failure) {
    match f
    case EvidenceFileSetInvalid => !e.filesValid
    case SourceContextInvalid => !e.contextValid
    case ContainerImageIdentityInvalid => e.imageLayers.None?
    case BaseImageIdentityInvalid => e.imageLayers.Some? && !ImageUsable(e)
    case ToolMetadataInvalid => !ToolIs(e, "0.74.0")
    case DatabaseMetadataInvalid => !DatabaseIs(e, 2)
    case ScanInvalid => !Usable(e, e.gateReport, true)
    case ScanCommandFailed => e.gateExit != 0
    case FixableFound => FindingsIf(e, e.gateReport, true) != []
    case FullScanInvalid => !Usable(e, e.fullReport, false)
    case FullScanCommandFailed => e.fullExit != 0
    case GateAndDiagnosticDisagree => !ScansAgree(identity, e)
    case SbomInvalid => !BillUsable(e)
    case SbomCommandFailed => e.sbomExit != 0
    case GateFailed => !(Usable(e, e.gateReport, true) && e.gateExit == 0 && AllFindings(e.gateReport.results) == [])
    case FullDiagnosticFailed => !(Usable(e, e.fullReport, false) && e.fullExit == 0)
    case SbomFailed => !(BillUsable(e) && e.sbomExit == 0)
    case TimelineInvalid => !e.timelineValid
  }

  function When(f: Failure, holds: bool): set<Failure> {
    if holds then {f} else {}
  }

  /** The gate's record shows a finding of either severity. */
  method FoundByGate(e: Evidence, gate: Option<ScanRecord>) returns (found: bool)
    requires gate.Some? <==> Usable(e, e.gateReport, true)
    requires gate.Some? ==> RecordOf(gate.value, e.gateReport, e.gateExit, true)
    ensures found <==> FindingsIf(e, e.gateReport, true) != []
  {
    hide ReportValid, AllFindings, AllPurls, StrictPrefix;
    if gate.None? {
      return false;
    }
    GradedReport(e.gateReport, e.imageLayers.value);
    CountsConserved(AllFindings(e.gateReport.results));
    TallyFindings(AllFindings(e.gateReport.results));
    return gate.value.tally.highCount != 0 || gate.value.tally.criticalCount != 0;
  }

  /** The records of the two scans, compared as sorted lists of texts. */
  method Disagree(identity: Finding -> string, e: Evidence, gate: Option<ScanRecord>, full: Option<ScanRecord>)
    returns (differ: bool)
    requires gate.Some? <==> Usable(e, e.gateReport, true)
    requires full.Some? <==> Usable(e, e.fullReport, false)
    requires gate.Some? ==> RecordOf(gate.value, e.gateReport, e.gateExit, true)
    requires full.Some? ==> RecordOf(full.value, e.fullReport, e.fullExit, false)
    ensures differ <==> !ScansAgree(identity, e)
  {
    hide ReportValid, AllFindings, AllPurls, Sort, Select, Usable, Severe;
    var gatePurls := if gate.Some? then gate.value.purls else [];
    var fullPurls := if full.Some? then full.value.purls else [];
    var gateAll := if gate.Some? then Texts(identity, gate.value.tally.findings) else [];
    var gateFixable := if gate.Some? then Texts(identity, gate.value.tally.fixable) else [];
    var fullFixable := if full.Some? then Texts(identity, full.value.tally.fixable) else [];
    SortComparesMultisets(fullPurls, gatePurls);
    SortComparesMultisets(gateAll, gateFixable);
    SortComparesMultisets(gateFixable, fullFixable);
    NoFindings(identity);
    return Sort(fullPurls) != Sort(gatePurls) || Sort(gateAll) != Sort(gateFixable)
        || Sort(gateFixable) != Sort(fullFixable);
  }

  lemma NoFindings(identity: Finding -> string)
    ensures Texts(identity, []) == [] && Select([], true) == []
  {
  }

  /** A valid report holds findings of the two gate severities alone. */
  lemma GradedReport(report: Report, layers: seq<string>)
    requires ReportValid(report, layers, true)
    ensures Graded(AllFindings(report.results))
  {
    hide InScope, PackageValid, WithinLimit, BothScopes, Unique;
    forall i | 0 <= i < |report.results| ensures Graded(FindingsOf(report.results[i])) {
      assert ResultValid(report.results[i], report.osFamily, layers, true);
    }
    GradedResults(report.results);
  }

  lemma {:induction false} GradedResults(results: seq<ScanResult>)
    requires forall i :: 0 <= i < |results| ==> Graded(FindingsOf(results[i]))
    ensures Graded(AllFindings(results))
  {
    if results != [] {
      GradedResults(results[..|results| - 1]);
    }
  }

  /** The bill, if there is an image and a context to check it against. */
  method BillOnce(e: Evidence, layers: Option<seq<string>>, gate: Option<ScanRecord>) returns (bill: Option<SbomRecord>)
    requires layers == if ImageUsable(e) then e.imageLayers else None
    requires gate.Some? <==> Usable(e, e.gateReport, true)
    requires gate.Some? ==> RecordOf(gate.value, e.gateReport, e.gateExit, true)
    ensures bill.Some? <==> BillUsable(e)
    ensures bill.Some? ==> (bill.value.passed <==> e.sbomExit == 0)
  {
    hide ReportValid, ComponentsValid, DependenciesValid, AllReachable, Covers, AllFindings, AllPurls, TallyOf,
         StrictPrefix;
    if layers.None? || !e.contextValid {
      return None;
    }
    var purls := if gate.Some? then gate.value.purls else [];
    var family := if gate.Some? then gate.value.osFamily else "None";
    var version := if gate.Some? then gate.value.osVersion else "None";
    bill := SbomSummary(e.sbom, layers.value, purls, System(family, version), e.sbomExit);
  }

  /** `_assemble`: the verdict is PASS exactly on releasable evidence, and a failure is
      reported exactly when it applies. */
  method Assemble(identity: Finding -> string, e: Evidence) returns (v: Verdict)
    ensures forall f :: f in v.failures <==> Applies(identity, e, f)
    ensures v.passed <==> v.failures == {}
    ensures v.passed <==> Releasable(e)
  {
    hide Usable, BillUsable, ImageUsable, ToolIs, DatabaseIs, ScansAgree, AllFindings, FindingsIf, Releasable,
         RecordOf, Applies;
    var imageFailures, layers := ImageFailures(e);
    var toolFailures := ToolFailures(e);
    var gate := ScanOnce(e, e.gateReport, layers, e.gateExit, true);
    var found := FoundByGate(e, gate);
    var full := ScanOnce(e, e.fullReport, layers, e.fullExit, false);
    var differ := Disagree(identity, e, gate, full);
    var bill := BillOnce(e, layers, gate);
    var inputs := When(EvidenceFileSetInvalid, !e.filesValid) + When(SourceContextInvalid, !e.contextValid)
      + When(TimelineInvalid, !e.timelineValid) + imageFailures + toolFailures;
    var gateFailures := When(ScanInvalid, gate.None?) + When(ScanCommandFailed, e.gateExit != 0)
      + When(FixableFound, found) + When(GateFailed, gate.None? || !gate.value.passed);
    var fullFailures := When(FullScanInvalid, full.None?) + When(FullScanCommandFailed, e.fullExit != 0)
      + When(GateAndDiagnosticDisagree, differ) + When(FullDiagnosticFailed, full.None? || !full.value.passed);
    var billFailures := When(SbomInvalid, bill.None?) + When(SbomCommandFailed, e.sbomExit != 0)
      + When(SbomFailed, bill.None? || !bill.value.passed);
    var failures := inputs + gateFailures + fullFailures + billFailures;
    v := Verdict(failures == {}, failures);
    InputsApply(identity, e, inputs);
    GateApplies(identity, e, gate, gateFailures);
    FullApplies(identity, e, full, fullFailures);
    BillApplies(identity, e, bill, billFailures);
    forall f ensures f in failures <==> Applies(identity, e, f) {
      assert f in Inputs() + GateOnes() + FullOnes() + BillOnes() by { Everything(f); }
    }
    NothingApplies(identity, e);
  }

  function Inputs(): set<Failure> {
    {EvidenceFileSetInvalid, SourceContextInvalid, TimelineInvalid, ContainerImageIdentityInvalid,
     BaseImageIdentityInvalid, ToolMetadataInvalid, DatabaseMetadataInvalid}
  }

  function GateOnes(): set<Failure> {
    {ScanInvalid, ScanCommandFailed, FixableFound, GateFailed}
  }

  function FullOnes(): set<Failure> {
    {FullScanInvalid, FullScanCommandFailed, GateAndDiagnosticDisagree, FullDiagnosticFailed}
  }

  function BillOnes(): set<Failure> {
    {SbomInvalid, SbomCommandFailed, SbomFailed}
  }

  lemma Everything(f: Failure)
    ensures f in Inputs() + GateOnes() + FullOnes() + BillOnes()
  {
  }

  lemma InputsApply(identity: Finding -> string, e: Evidence, inputs: set<Failure>)
    requires inputs == When(EvidenceFileSetInvalid, !e.filesValid) + When(SourceContextInvalid, !e.contextValid)
      + When(TimelineInvalid, !e.timelineValid)
      + (if ImageUsable(e) then {}
         else if e.imageLayers.None? then {ContainerImageIdentityInvalid} else {BaseImageIdentityInvalid})
      + ((if ToolIs(e, "0.74.0") then {} else {ToolMetadataInvalid})
         + (if DatabaseIs(e, 2) then {} else {DatabaseMetadataInvalid}))
    ensures forall f :: f in inputs <==> f in Inputs() && Applies(identity, e, f)
  {
    hide StrictPrefix, ToolIs, DatabaseIs;
  }

  lemma GateApplies(identity: Finding -> string, e: Evidence, gate: Option<ScanRecord>, failures: set<Failure>)
    requires gate.Some? <==> Usable(e, e.gateReport, true)
    requires gate.Some? ==> RecordOf(gate.value, e.gateReport, e.gateExit, true)
    requires failures == When(ScanInvalid, gate.None?) + When(ScanCommandFailed, e.gateExit != 0)
      + When(FixableFound, FindingsIf(e, e.gateReport, true) != []) + When(GateFailed, gate.None? || !gate.value.passed)
    ensures forall f :: f in failures <==> f in GateOnes() && Applies(identity, e, f)
  {
    hide Usable, AllFindings, AllPurls, TallyOf, FindingsIf;
  }

  lemma FullApplies(identity: Finding -> string, e: Evidence, full: Option<ScanRecord>, failures: set<Failure>)
    requires full.Some? <==> Usable(e, e.fullReport, false)
    requires full.Some? ==> RecordOf(full.value, e.fullReport, e.fullExit, false)
    requires failures == When(FullScanInvalid, full.None?) + When(FullScanCommandFailed, e.fullExit != 0)
      + When(GateAndDiagnosticDisagree, !ScansAgree(identity, e))
      + When(FullDiagnosticFailed, full.None? || !full.value.passed)
    ensures forall f :: f in failures <==> f in FullOnes() && Applies(identity, e, f)
  {
    hide Usable, AllFindings, AllPurls, TallyOf, ScansAgree;
  }

  lemma BillApplies(identity: Finding -> string, e: Evidence, bill: Option<SbomRecord>, failures: set<Failure>)
    requires bill.Some? <==> BillUsable(e)
    requires bill.Some? ==> (bill.value.passed <==> e.sbomExit == 0)
    requires failures == When(SbomInvalid, bill.None?) + When(SbomCommandFailed, e.sbomExit != 0)
      + When(SbomFailed, bill.None? || !bill.value.passed)
    ensures forall f :: f in failures <==> f in BillOnes() && Applies(identity, e, f)
  {
    hide BillUsable;
  }

  /** Releasable evidence is evidence to which no failure applies. */
  lemma NothingApplies(identity: Finding -> string, e: Evidence)
    ensures (forall f :: !Applies(identity, e, f)) <==> Releasable(e)
  {
    hide Applies, Releasable;
    if Releasable(e) {
      forall f ensures !Applies(identity, e, f) {
        ReleasableMeans(identity, e, f);
      }
    }
    if forall f :: !Applies(identity, e, f) {
      NoneMeans(identity, e);
    }
  }

  lemma ReleasableMeans(identity: Finding -> string, e: Evidence, f: Failure)
    requires Releasable(e)
    ensures !Applies(identity, e, f)
  {
    hide ReportValid, ComponentsValid, DependenciesValid, AllReachable, Covers, AllFindings, AllPurls, StrictPrefix,
         ScansAgree;
    Agreement(identity, e);
  }

  lemma NoneMeans(identity: Finding -> string, e: Evidence)
    requires forall f :: !Applies(identity, e, f)
    ensures Releasable(e)
  {
    hide ReportValid, ComponentsValid, DependenciesValid, AllReachable, Covers, AllFindings, AllPurls, StrictPrefix,
         ScansAgree;
    assert !Applies(identity, e, EvidenceFileSetInvalid) && !Applies(identity, e, SourceContextInvalid);
    assert !Applies(identity, e, ContainerImageIdentityInvalid) && !Applies(identity, e, BaseImageIdentityInvalid);
    assert !Applies(identity, e, ToolMetadataInvalid) && !Applies(identity, e, DatabaseMetadataInvalid);
    assert !Applies(identity, e, GateFailed) && !Applies(identity, e, FullDiagnosticFailed);
    assert !Applies(identity, e, SbomFailed) && !Applies(identity, e, TimelineInvalid);
    assert !Applies(identity, e, GateAndDiagnosticDisagree);
    Agreement(identity, e);
  }

  /** Once the gate has no findings, agreeing with it means having no fixable ones. */
  lemma Agreement(identity: Finding -> string, e: Evidence)
    requires Usable(e, e.gateReport, true) && Usable(e, e.fullReport, false) && AllFindings(e.gateReport.results) == []
    ensures ScansAgree(identity, e) <==>
            && multiset(AllPurls(e.fullReport.results)) == multiset(AllPurls(e.gateReport.results))
            && forall f :: f in AllFindings(e.fullReport.results) ==> !Fixable(f)
  {
    hide Fixable, ReportValid, AllPurls, AllFindings, ImageUsable;
    var full := AllFindings(e.fullReport.results);
    NoFindings(identity);
    FindingsConserved(full);
    if Select(full, true) != [] {
      assert identity(Select(full, true)[0]) in multiset(Texts(identity, Select(full, true))) by {
        assert Texts(identity, Select(full, true))[0] == identity(Select(full, true)[0]);
      }
    }
  }

  /** A passing gate, read off the verdict: nothing found by the gate, nothing fixable
      found by the full scan, one package list in all three reports. */
  method PassMeans(identity: Finding -> string, e: Evidence) returns (v: Verdict)
    ensures v.passed ==> forall r :: r in e.gateReport.results ==>
            r.vulnerabilities.None? || r.vulnerabilities.value == []
    ensures v.passed ==>
            forall r, u :: r in e.fullReport.results && r.vulnerabilities.Some? && u in r.vulnerabilities.value ==>
              u.fixed.None? || u.fixed.value == ""
    ensures v.passed ==> TallyOf(AllFindings(e.gateReport.results)).vulnerabilityCount == 0
    ensures v.passed ==> TallyOf(AllFindings(e.fullReport.results)).fixableCount == 0
    ensures v.passed ==> TallyOf(AllFindings(e.fullReport.results)).unfixedCount == |AllFindings(e.fullReport.results)|
    ensures v.passed ==>
            && multiset(LibraryPurls(e.sbom.components)) == multiset(AllPurls(e.gateReport.results))
            && multiset(AllPurls(e.gateReport.results)) == multiset(AllPurls(e.fullReport.results))
    ensures v.passed ==>
            e.imageLayers.Some? && e.baseLayers.Some? && StrictPrefix(e.baseLayers.value, e.imageLayers.value)
    ensures v.passed ==> multiset(e.sbom.diffIds) == multiset(e.imageLayers.value)
    ensures v.passed ==> forall i :: 0 <= i < |e.sbom.components| ==>
            Reaches(GraphOf(e.sbom.dependencies), e.sbom.rootReference, e.sbom.components[i].reference)
  {
    hide ReportValid, ComponentsValid, DependenciesValid, AllFindings, AllPurls, Reaches, GraphOf, LibraryPurls,
         Fixable;
    v := Assemble(identity, e);
    if v.passed {
      NothingToFix(e.fullReport.results);
      NothingFound(e.gateReport.results);
    }
    FindingsConserved(AllFindings(e.fullReport.results));
    CountsConserved(AllFindings(e.fullReport.results));
    forall i | v.passed && 0 <= i < |e.sbom.components|
      ensures e.sbom.components[i].reference in References(e.sbom.rootReference, e.sbom.components)
    {
      assert References(e.sbom.rootReference, e.sbom.components)[i + 1] == e.sbom.components[i].reference;
    }
  }

  /** Where no finding is fixable, no vulnerability has a fixed version. */
  lemma NothingToFix(results: seq<ScanResult>)
    requires forall f :: f in AllFindings(results) ==> !Fixable(f)
    ensures forall r, u :: r in results && r.vulnerabilities.Some? && u in r.vulnerabilities.value ==>
              u.fixed.None? || u.fixed.value == ""
  {
    hide AllFindings, Place;
    forall r, u | r in results && r.vulnerabilities.Some? && u in r.vulnerabilities.value
      ensures u.fixed.None? || u.fixed.value == ""
    {
      var i :| 0 <= i < |results| && results[i] == r;
      var j :| 0 <= j < |r.vulnerabilities.value| && r.vulnerabilities.value[j] == u;
      FindingAt(results, i, j);
      assert AllFindings(results)[Place(results, i, j)] in AllFindings(results);
    }
  }

  /** Where there is no finding, there is no vulnerability. */
  lemma NothingFound(results: seq<ScanResult>)
    requires AllFindings(results) == []
    ensures forall r :: r in results ==> r.vulnerabilities.None? || r.vulnerabilities.value == []
  {
    hide AllFindings, Place;
    forall r | r in results ensures r.vulnerabilities.None? || r.vulnerabilities.value == [] {
      var i :| 0 <= i < |results| && results[i] == r;
      assert !InReport(results, i, 0) by {
        if InReport(results, i, 0) {
          var k := Place(results, i, 0);
        }
      }
    }
  }
}

/** The five files of a submission bundle and the ownership manifest among them
    (tools/local-stack/build_submission_bundle.py). */
module BundleFiles {
  import opened Basics
  import opened LocalDisk

  const PAYLOAD_NAMES: seq<Name> := [SubmissionIndex, Limitations, Reproduce, IndexHtml]
  const OUTPUT_FILENAMES: seq<Name> := PAYLOAD_NAMES + [ManifestJson]
  const OUTPUT_FILE_MAX_BYTES: nat := 512 * 1024
  const MANIFEST_SCHEMA := "networkagent-local-submission-manifest/1.0"
  const MARKER := "NETWORKAGENT_LOCAL_SUBMISSION_BUNDLE"
  const REPOSITORY := "LeegenSteven/NetworkAgent-dev"

  function FileName(i: nat): (n: Name)
    requires i < 5
    ensures n in OutputNames()
  {
    OUTPUT_FILENAMES[i]
  }

  function OutputNames(): (s: set<Name>)
    ensures forall n :: n in s <==> n in OUTPUT_FILENAMES
  {
    {SubmissionIndex, Limitations, Reproduce, IndexHtml, ManifestJson}
  }

  datatype Record = Record(name: Name, bytes: int, sha256: string)
  datatype Ownership = Ownership(ledgerSha256: string, marker: string, repository: string, sourceCommit: string)
  datatype Manifest = Manifest(schema: string, ownership: Ownership, files: seq<Record>)

  predicate IsHex(s: string, width: nat) {
    |s| == width && forall i :: 0 <= i < |s| ==> '0' <= s[i] <= '9' || 'a' <= s[i] <= 'f'
  }

  /** Text rules every written document obeys: no carriage return, no NUL, no byte
      order mark, a final newline. */
  predicate CleanText(blob: Bytes) {
    && 0 < |blob| <= OUTPUT_FILE_MAX_BYTES
    && blob[|blob| - 1] == 10
    && !([0xEF, 0xBB, 0xBF] <= blob)
    && 13 !in blob && 0 !in blob
  }

  predicate RecordAccepted(r: Record) {
    0 < r.bytes <= OUTPUT_FILE_MAX_BYTES && IsHex(r.sha256, 64)
  }

  /** `decode` is json.loads with its key, type and canonical-form checks. */
  function ParseOwnedManifest(decode: Bytes -> Option<Manifest>, blob: Bytes): (m: Option<Manifest>)
    ensures m.Some? ==> CleanText(blob) && |m.value.files| == |PAYLOAD_NAMES|
    ensures m.Some? ==> forall i :: 0 <= i < |PAYLOAD_NAMES| ==>
            m.value.files[i].name == PAYLOAD_NAMES[i] && RecordAccepted(m.value.files[i])
  {
    if !CleanText(blob) then None
    else match decode(blob)
      case None => None
      case Some(m) =>
        if && m.schema == MANIFEST_SCHEMA
           && m.ownership.marker == MARKER
           && m.ownership.repository == REPOSITORY
           && IsHex(m.ownership.sourceCommit, 40)
           && IsHex(m.ownership.ledgerSha256, 64)
           && |m.files| == |PAYLOAD_NAMES|
           && (forall i :: 0 <= i < |m.files| ==> RecordAccepted(m.files[i]))
           && (forall i :: 0 <= i < |m.files| ==> m.files[i].name == PAYLOAD_NAMES[i])
        then Some(m) else None
  }

  /** `_parse_owned_manifest`, check by check. */
  method ParseManifest(decode: Bytes -> Option<Manifest>, blob: Bytes) returns (r: Option<Manifest>)
    ensures r == ParseOwnedManifest(decode, blob)
  {
    if blob == [] || |blob| > OUTPUT_FILE_MAX_BYTES || blob[|blob| - 1] != 10 {
      return None;
    }
    if [0xEF, 0xBB, 0xBF] <= blob || 13 in blob || 0 in blob {
      return None;
    }
    var decoded := decode(blob);
    if decoded.None? {
      return None;
    }
    var m := decoded.value;
    if m.schema != MANIFEST_SCHEMA || m.ownership.marker != MARKER || m.ownership.repository != REPOSITORY {
      return None;
    }
    var commit := CheckHex(m.ownership.sourceCommit, 40);
    var ledger := CheckHex(m.ownership.ledgerSha256, 64);
    if !commit || !ledger || |m.files| != 4 {
      return None;
    }
    for i := 0 to 4
      invariant forall k :: 0 <= k < i ==> m.files[k].name == PAYLOAD_NAMES[k] && RecordAccepted(m.files[k])
    {
      var hash := CheckHex(m.files[i].sha256, 64);
      if m.files[i].name != PAYLOAD_NAMES[i] || m.files[i].bytes <= 0 || m.files[i].bytes > OUTPUT_FILE_MAX_BYTES
          || !hash {
        return None;
      }
    }
    return Some(m);
  }

  method CheckHex(s: string, width: nat) returns (ok: bool)
    ensures ok <==> IsHex(s, width)
  {
    if |s| != width {
      return false;
    }
    for i := 0 to |s|
      invariant forall k :: 0 <= k < i ==> '0' <= s[k] <= '9' || 'a' <= s[k] <= 'f'
    {
      var code := s[i] as int;
      if !(48 <= code <= 57) && !(97 <= code <= 102) {
        return false;
      }
    }
    return true;
  }

  predicate HasFiveFiles(files: map<Name, Bytes>) {
    files.Keys == OutputNames()
  }

  /** The manifest among `files` is well formed and lists the other four exactly. */
  predicate ManifestDescribes(decode: Bytes -> Option<Manifest>, sha: Bytes -> string, files: map<Name, Bytes>)
    requires HasFiveFiles(files)
  {
    var m := ParseOwnedManifest(decode, files[ManifestJson]);
    && m.Some?
    && (forall i :: 0 <= i < |PAYLOAD_NAMES| ==>
          RecordDescribes(sha, m.value.files[i], files[OUTPUT_FILENAMES[i]]))
  }

  predicate RecordDescribes(sha: Bytes -> string, r: Record, payload: Bytes) {
    |payload| == r.bytes && sha(payload) == r.sha256
  }

  // ---- the producer ----

  function ManifestFor(sha: Bytes -> string, payloads: seq<Bytes>, ledgerSha256: string, commit: string): Manifest
    requires |payloads| == |PAYLOAD_NAMES|
  {
    Manifest(
      MANIFEST_SCHEMA,
      Ownership(ledgerSha256, MARKER, REPOSITORY, commit),
      seq(|PAYLOAD_NAMES|, i requires 0 <= i < |PAYLOAD_NAMES| =>
        Record(PAYLOAD_NAMES[i], |payloads[i]|, sha(payloads[i]))))
  }

  function RenderBundle(sha: Bytes -> string, json: Manifest -> Bytes, payloads: seq<Bytes>,
                        ledgerSha256: string, commit: string): (files: map<Name, Bytes>)
    requires |payloads| == |PAYLOAD_NAMES|
    ensures HasFiveFiles(files)
    ensures forall i :: 0 <= i < |payloads| ==> files[OUTPUT_FILENAMES[i]] == payloads[i]
  {
    var files := map[
      OUTPUT_FILENAMES[0] := payloads[0],
      OUTPUT_FILENAMES[1] := payloads[1],
      OUTPUT_FILENAMES[2] := payloads[2],
      OUTPUT_FILENAMES[3] := payloads[3],
      ManifestJson := json(ManifestFor(sha, payloads, ledgerSha256, commit))];
    assert OUTPUT_FILENAMES[4] == ManifestJson;
    assert forall n :: n in OutputNames() ==> n in files.Keys;
    assert forall n :: n in files.Keys ==> n in OutputNames();
    files
  }

  /** Producer and parser agree: whatever RenderBundle writes, ParseOwnedManifest
      accepts, provided the JSON printer is inverted by the decoder. */
  lemma RenderedBundleIsDescribed(sha: Bytes -> string, json: Manifest -> Bytes, decode: Bytes -> Option<Manifest>,
                                  payloads: seq<Bytes>, ledgerSha256: string, commit: string)
    requires |payloads| == |PAYLOAD_NAMES|
    requires forall i :: 0 <= i < |payloads| ==> CleanText(payloads[i])
    requires forall b :: IsHex(sha(b), 64)
    requires IsHex(ledgerSha256, 64) && IsHex(commit, 40)
    requires forall m :: decode(json(m)) == Some(m)
    requires CleanText(json(ManifestFor(sha, payloads, ledgerSha256, commit)))
    ensures ManifestDescribes(decode, sha, RenderBundle(sha, json, payloads, ledgerSha256, commit))
  {
    var m := ManifestFor(sha, payloads, ledgerSha256, commit);
    var files := RenderBundle(sha, json, payloads, ledgerSha256, commit);
    assert files[ManifestJson] == json(m);
    forall i | 0 <= i < |m.files| ensures RecordAccepted(m.files[i]) {
      assert m.files[i] == Record(PAYLOAD_NAMES[i], |payloads[i]|, sha(payloads[i]));
    }
    assert ParseOwnedManifest(decode, json(m)) == Some(m);
    forall i | 0 <= i < |PAYLOAD_NAMES| ensures RecordDescribes(sha, m.files[i], files[OUTPUT_FILENAMES[i]]) {
      assert m.files[i] == Record(PAYLOAD_NAMES[i], |payloads[i]|, sha(payloads[i]));
    }
  }
}

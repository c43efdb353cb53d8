/** A loaded conformance corpus: what case loading has checked, the canonical
    expectations, and the committed index.  */
module Corpora {
  import opened Json
  import opened Oracles
  import opened Pairing
  import Artifacts

  const PROFILE := "VATE-AL2-Verifier-Admission-v0.3"
  const CORPUS_INDEX_VERSION := "vate-conformance-corpus-2026-09"
  const CANONICALIZATION := "JSON objects are sorted by key with insignificant whitespace removed before hashing."

  const DECISIONS := {"allow", "attenuate", "deny"}
  const EXECUTION_OUTCOMES := {"success", "partial_success", "failed", "cancelled"}
  const TERMINAL_REASON_CODES := {"FAIL_CLOSED", "POLICY_MATCH"}

  /** Text that is never empty, such as a displayed path. */
  type Name = s: string | s != "" witness "."

  function Expected(c: Object): Object {
    if Get(c, "expected").Obj? then Get(c, "expected").fields else map[]
  }

  predicate CheckEntry(check: Json) {
    check.Obj? && NonEmptyStr(Get(check.fields, "name")) && "expected" in check.fields
  }

  /** The part of `case_envelope_failures` the reports rely on. */
  predicate Envelope(c: Object) {
    && NonEmptyStr(Get(c, "case_id"))
    && Get(c, "expected").Obj?
    && Get(Expected(c), "should_execute").Bool?
    && NonEmptyStrings(Get(Expected(c), "reason_codes"))
    && Get(Expected(c), "checks").Arr?
    && (forall k :: 0 <= k < |Get(Expected(c), "checks").items| ==> CheckEntry(Get(Expected(c), "checks").items[k]))
    && (|| (StrIn(Get(c, "category"), PAIRING_ROLES) && StrIn(Get(Expected(c), "admission_decision"), DECISIONS))
        || (Get(c, "category") == Str("linkage") && StrIn(Get(Expected(c), "post_execution_outcome"), EXECUTION_OUTCOMES)))
  }

  const SAMPLE: Object := map[
    "case_id" := Str("sample"), "category" := Str("positive"),
    "expected" := Obj(map[
      "should_execute" := Bool(false), "reason_codes" := Arr([]), "checks" := Arr([]),
      "admission_decision" := Str("allow")])]

  type Case = c: Object | Envelope(c) witness SAMPLE

  function CaseId(c: Case): string { Get(c, "case_id").s }

  function Category(c: Case): string { Get(c, "category").s }

  /** `expected_outcome`. */
  function ExpectedOutcome(c: Case): (s: string)
    ensures s in DECISIONS + EXECUTION_OUTCOMES
  {
    if Category(c) == "linkage" then Get(Expected(c), "post_execution_outcome").s
    else Get(Expected(c), "admission_decision").s
  }

  function ExpectedShouldExecute(c: Case): bool { Get(Expected(c), "should_execute").b }

  function Texts(items: seq<Json>): (r: seq<string>)
    requires forall k :: 0 <= k < |items| ==> items[k].Str?
    ensures |r| == |items| && forall k :: 0 <= k < |r| ==> items[k] == Str(r[k])
  {
    if items == [] then [] else [items[0].s] + Texts(items[1..])
  }

  function ExpectedCodes(c: Case): (r: seq<string>)
    ensures forall k :: 0 <= k < |r| ==> r[k] != ""
  {
    Texts(Get(Expected(c), "reason_codes").items)
  }

  /** `primary_reason_code`: the first code that is not terminal. */
  function Primary(codes: seq<string>): Option<string> {
    if codes == [] then None
    else if codes[0] !in TERMINAL_REASON_CODES then Some(codes[0]) else Primary(codes[1..])
  }

  // ---------------------------------------------------------------- the corpus

  datatype ManifestEntry = ManifestEntry(path: Name, sha256: HexDigest)

  datatype Corpus = Corpus(
    name: string, root: Name, schemaPath: Name, indexPath: Name,
    hasCasesDirectory: bool,
    cases: seq<Case>,
    loadFailures: seq<string>,
    manifest: seq<ManifestEntry>,
    manifestFailures: seq<string>,
    entryDetails: Object -> Object)

  function Ids(cases: seq<Case>): (r: seq<string>)
    ensures |r| == |cases| && forall k :: 0 <= k < |r| ==> r[k] == CaseId(cases[k])
  {
    if cases == [] then [] else [CaseId(cases[0])] + Ids(cases[1..])
  }

  predicate UniqueIds(cases: seq<Case>) {
    forall i, j :: 0 <= i < |cases| && 0 <= j < |cases| && CaseId(cases[i]) == CaseId(cases[j]) ==> i == j
  }

  /** `expected_by_id.get(case_id)`: later cases overwrite earlier ones. */
  function CaseWithId(cases: seq<Case>, id: string): (r: Option<Case>)
    ensures r.Some? ==> r.value in cases && CaseId(r.value) == id
    ensures r.None? ==> forall k :: 0 <= k < |cases| ==> CaseId(cases[k]) != id
  {
    if cases == [] then None
    else if CaseId(cases[|cases| - 1]) == id then Some(cases[|cases| - 1])
    else CaseWithId(cases[..|cases| - 1], id)
  }

  lemma UniqueCaseWithId(cases: seq<Case>, k: nat)
    requires UniqueIds(cases) && k < |cases|
    ensures CaseWithId(cases, CaseId(cases[k])) == Some(cases[k])
  {
    var r := CaseWithId(cases, CaseId(cases[k])).value;
    var j :| 0 <= j < |cases| && cases[j] == r;
    assert CaseId(cases[j]) == CaseId(cases[k]);
  }

  predicate InputContractsOk(cases: seq<Case>) {
    forall k :: 0 <= k < |cases| ==> Artifacts.ContractOk(cases[k])
  }

  function Bodies(cases: seq<Case>): (r: seq<Object>)
    ensures |r| == |cases| && forall k :: 0 <= k < |r| ==> r[k] == cases[k]
  {
    if cases == [] then [] else (var c: Object := cases[0]; [c]) + Bodies(cases[1..])
  }

  lemma PairingGivesUniqueIds(cases: seq<Case>)
    requires PairingSound(Bodies(cases))
    ensures UniqueIds(cases)
  {
    var bodies := Bodies(cases);
    forall i, j | 0 <= i < |cases| && 0 <= j < |cases| && CaseId(cases[i]) == CaseId(cases[j]) ensures i == j {
      assert Id(bodies[i]) == Get(cases[i], "case_id") && Id(bodies[j]) == Get(cases[j], "case_id");
    }
  }

  /** The manifest as JSON. */
  function ManifestItem(e: ManifestEntry): Json {
    Obj(map["path" := Str(e.path), "sha256" := Str(e.sha256)])
  }

  function ManifestItems(m: seq<ManifestEntry>): (r: seq<Json>)
    ensures |r| == |m| && forall k :: 0 <= k < |r| ==> r[k] == ManifestItem(m[k])
  {
    if m == [] then [] else [ManifestItem(m[0])] + ManifestItems(m[1..])
  }

  function ManifestJson(corpus: Corpus): Json { Arr(ManifestItems(corpus.manifest)) }

  function CorpusDigest(env: Env, corpus: Corpus): Json { DigestDescriptor(env, ManifestJson(corpus)) }

  // ---------------------------------------------------------------- the index

  /** `case_index_entry`; `entryDetails` are its descriptive fields. */
  function IndexEntry(corpus: Corpus, c: Case): Json {
    Obj(corpus.entryDetails(c)["case_id" := Str(CaseId(c))]["category" := Str(Category(c))]
      ["expected_outcome" := Str(ExpectedOutcome(c))]["expected_should_execute" := Bool(ExpectedShouldExecute(c))]
      ["expected_primary_reason_code" := OptStr(Primary(ExpectedCodes(c)))]
      ["expected_reason_codes" := Strings(ExpectedCodes(c))])
  }

  function IndexEntries(corpus: Corpus, cases: seq<Case>): (r: seq<Json>)
    ensures |r| == |cases| && forall k :: 0 <= k < |r| ==> r[k] == IndexEntry(corpus, cases[k])
  {
    if cases == [] then [] else [IndexEntry(corpus, cases[0])] + IndexEntries(corpus, cases[1..])
  }

  /** `category_counts`. */
  function CategoryCounts(cases: seq<Case>): Object {
    if cases == [] then map[]
    else
      var counts := CategoryCounts(cases[..|cases| - 1]);
      var category := Category(cases[|cases| - 1]);
      counts[category := Int(1 + if category in counts && counts[category].Int? then counts[category].i else 0)]
  }

  function Identity(corpus: Corpus): Object {
    map[
      "version" := Str(CORPUS_INDEX_VERSION), "profile" := Str(PROFILE),
      "name" := Str(corpus.name), "root" := Str(corpus.root), "case_schema" := Str(corpus.schemaPath),
      "digest_basis" := Obj(map[
        "alg" := Str("sha-256"), "canonicalization" := Str(CANONICALIZATION),
        "manifest_excludes" := Arr([Str(corpus.indexPath)])])]
  }

  function IndexSummary(corpus: Corpus): Json {
    Obj(map["case_count" := Int(|corpus.cases|), "category_counts" := Obj(CategoryCounts(corpus.cases)),
            "artifact_count" := Int(|corpus.manifest|)])
  }

  function WithContents(base: Object, summary: Json, digest: Json, cases: Json, manifest: Json): Object {
    base["summary" := summary]["digest" := digest]["cases" := cases]["manifest" := manifest]
  }

  /** `make_corpus_index`, up to its fixed descriptive fields. */
  function MakeIndex(env: Env, corpus: Corpus): Object {
    WithContents(Identity(corpus), IndexSummary(corpus), CorpusDigest(env, corpus),
      Arr(IndexEntries(corpus, corpus.cases)), ManifestJson(corpus))
  }
}

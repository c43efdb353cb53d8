/** The dependency-free contracts that `verify_report_bundle` holds reports to,
    and the projections it recomputes from them.  */
module ReportContracts {
  import opened Json
  import opened Oracles
  import opened Corpora
  import opened Normalize
  import opened Compare

  const IMPLEMENTATION_REPORT_VERSION := "vate-implementation-report-2026-09"
  const CONFORMANCE_MEDIA_TYPE := "application/vate-conformance-report+json"
  const DIGEST_BASES := {DIGEST_BASIS, "exact-bytes"}
  const STATUSES := {"pass", "fail", "partial", "not_applicable"}
  const OPTIONAL_IDENTITY := ["source", "commit", "environment"]

  predicate NonNegInt(j: Json) { j.Int? && j.i >= 0 }

  predicate NullOr(j: Json, ok: bool) { j == Null || ok }

  /** `digest_contract_failures`. */
  predicate DigestContract(j: Json) {
    j.Obj? && Get(j.fields, "alg") == Str("sha-256") && Get(j.fields, "value").Str? && IsSha256Hex(Get(j.fields, "value").s)
  }

  /** `artifact_mode_counts_contract_failures`. */
  predicate CountsContract(j: Json) {
    j.Obj? && j.fields.Keys == MODES && NonNegInt(Get(j.fields, CORPUS_MODE)) && NonNegInt(Get(j.fields, GENERATED_MODE))
  }

  /** What both kinds of report ask of a case entry. */
  predicate CaseEntryContract(o: Object) {
    && NonEmptyStr(Get(o, "case_id")) && NonEmptyStr(Get(o, "expected_outcome")) && NonEmptyStr(Get(o, "actual_outcome"))
    && ("artifact_mode" in o ==> StrIn(Get(o, "artifact_mode"), MODES))
    && Get(o, "expected_should_execute").Bool?
    && "actual_should_execute" in o && NullOr(o["actual_should_execute"], o["actual_should_execute"].Bool?)
    && "expected_primary_reason_code" in o && NullOr(o["expected_primary_reason_code"], NonEmptyStr(o["expected_primary_reason_code"]))
    && "actual_primary_reason_code" in o && NullOr(o["actual_primary_reason_code"], NonEmptyStr(o["actual_primary_reason_code"]))
    && Get(o, "pass").Bool?
  }

  /** `implementation_case_contract_failures`. */
  predicate ImplementationCaseContract(j: Json) {
    j.Obj? && CaseEntryContract(j.fields)
  }

  /** `conformance_case_contract_failures`. */
  predicate ConformanceCaseContract(j: Json) {
    && j.Obj? && CaseEntryContract(j.fields)
    && NonEmptyStr(Get(j.fields, "category"))
    && NonEmptyStrings(Get(j.fields, "expected_reason_codes")) && NonEmptyStrings(Get(j.fields, "actual_reason_codes"))
    && NonEmptyStrings(Get(j.fields, "failures"))
  }

  function PrimaryOf(codes: Json): Json
    requires NonEmptyStrings(codes)
  {
    OptStr(Primary(Texts(codes.items)))
  }

  predicate SameField(o: Object, a: string, b: string) { PyEq(Get(o, a), Get(o, b)) }

  /** `conformance_case_consistency_failures`. */
  predicate CaseConsistent(j: Json) {
    j.Obj? ==>
      var o := j.fields;
      && (NonEmptyStrings(Get(o, "expected_reason_codes")) ==>
            PyEq(Get(o, "expected_primary_reason_code"), PrimaryOf(Get(o, "expected_reason_codes"))))
      && (NonEmptyStrings(Get(o, "actual_reason_codes")) ==>
            PyEq(Get(o, "actual_primary_reason_code"), PrimaryOf(Get(o, "actual_reason_codes"))))
      && (Get(o, "pass") == Bool(true) ==>
            && SameField(o, "expected_outcome", "actual_outcome")
            && SameField(o, "expected_should_execute", "actual_should_execute")
            && SameField(o, "expected_primary_reason_code", "actual_primary_reason_code")
            && SameField(o, "expected_reason_codes", "actual_reason_codes")
            && Get(o, "failures") == Arr([]))
      && (Get(o, "pass") == Bool(false) ==> Get(o, "failures").Arr? && Get(o, "failures") != Arr([]))
  }

  // ---------------------------------------------------------------- case collections

  function IdOf(j: Json): Json { if j.Obj? then Get(j.fields, "case_id") else Null }

  predicate ShapedCase(j: Json, requirePass: bool) {
    NonEmptyStr(IdOf(j)) && (requirePass ==> Get(j.fields, "pass").Bool?)
  }

  predicate AllShaped(cases: seq<Json>, requirePass: bool) {
    forall k :: 0 <= k < |cases| ==> ShapedCase(cases[k], requirePass)
  }

  predicate CaseNamed(j: Json, id: string) {
    id != "" && IdOf(j) == Str(id)
  }

  predicate SameCase(a: Json, b: Json) {
    NonEmptyStr(IdOf(a)) && IdOf(a) == IdOf(b)
  }

  predicate DistinctCaseIds(cases: seq<Json>) {
    forall i, j :: 0 <= i < |cases| && 0 <= j < |cases| && SameCase(cases[i], cases[j]) ==> i == j
  }

  /** What `case_collection_failures` accepts. */
  predicate CollectionOk(cases: Json, requirePass: bool) {
    cases.Arr? && AllShaped(cases.items, requirePass) && DistinctCaseIds(cases.items)
  }

  /** The usable case ids of a list, in order. */
  function CollectedIds(cases: seq<Json>): seq<string> {
    if cases == [] then []
    else CollectedIds(cases[..|cases| - 1]) + UsableId(cases[|cases| - 1])
  }

  function UsableId(j: Json): seq<string> {
    if NonEmptyStr(IdOf(j)) then [IdOf(j).s] else []
  }

  function IdsIn(cases: Json): seq<string> { if cases.Arr? then CollectedIds(cases.items) else [] }

  /** The list covers the canonical ids exactly. */
  predicate Covers(cases: Json, requirePass: bool, ids: seq<string>) {
    CollectionOk(cases, requirePass) && ids != [] && multiset(IdsIn(cases)) == multiset(ids)
  }

  lemma {:induction false} CollectedMembers(cases: seq<Json>, id: string)
    ensures id in CollectedIds(cases) <==> exists k :: 0 <= k < |cases| && CaseNamed(cases[k], id)
  {
    if cases != [] {
      var front, last := cases[..|cases| - 1], cases[|cases| - 1];
      CollectedMembers(front, id);
      assert cases == front + [last];
      if k :| 0 <= k < |cases| && CaseNamed(cases[k], id) {
        assert k < |front| ==> front[k] == cases[k];
      }
    }
  }

  lemma ShapeStep(items: seq<Json>, n: nat, requirePass: bool)
    requires n < |items|
    ensures AllShaped(items[..n + 1], requirePass) <==> AllShaped(items[..n], requirePass) && ShapedCase(items[n], requirePass)
    ensures CollectedIds(items[..n + 1]) == CollectedIds(items[..n]) + UsableId(items[n])
  {
    var before, after := items[..n], items[..n + 1];
    assert after == before + [items[n]] && after[..n] == before && after[n] == items[n];
    if AllShaped(after, requirePass) {
      forall k | 0 <= k < n ensures ShapedCase(before[k], requirePass) { assert after[k] == before[k]; }
    }
  }

  /** An id that was not collected is not the id of an entry before. */
  lemma NotCollected(items: seq<Json>, k: nat, next: Json)
    requires k < |items| && NonEmptyStr(IdOf(next)) && IdOf(next).s !in CollectedIds(items)
    ensures !SameCase(items[k], next)
  {
    CollectedMembers(items, IdOf(next).s);
  }

  lemma DistinctStep(items: seq<Json>, n: nat)
    requires n < |items|
    ensures DistinctCaseIds(items[..n + 1]) <==>
      DistinctCaseIds(items[..n]) && (NonEmptyStr(IdOf(items[n])) ==> IdOf(items[n]).s !in CollectedIds(items[..n]))
  {
    var before, after := items[..n], items[..n + 1];
    assert after == before + [items[n]];
    if NonEmptyStr(IdOf(items[n])) { CollectedMembers(before, IdOf(items[n]).s); }
    if NonEmptyStr(IdOf(items[n])) && IdOf(items[n]).s in CollectedIds(before) {
      var k :| 0 <= k < n && CaseNamed(before[k], IdOf(items[n]).s);
      assert SameCase(after[k], after[n]);
    } else if DistinctCaseIds(before) {
      forall i, j | 0 <= i < |after| && 0 <= j < |after| && SameCase(after[i], after[j]) ensures i == j {
        if i < n && j < n {
          assert SameCase(before[i], before[j]);
        } else if i < n {
          NotCollected(before, i, items[n]);
        } else if j < n {
          NotCollected(before, j, items[n]);
        }
      }
    } else {
      var i, j :| 0 <= i < n && 0 <= j < n && SameCase(before[i], before[j]) && i != j;
      assert SameCase(after[i], after[j]);
    }
  }

  /** `case_collection_failures`. */
  method CaseCollection(cases: Json, requirePass: bool) returns (ids: seq<string>, failures: seq<string>)
    ensures failures == [] <==> CollectionOk(cases, requirePass)
    ensures ids == IdsIn(cases)
  {
    if !cases.Arr? {
      return [], ["expected array"];
    }
    ids, failures := [], [];
    var seen: set<string> := {};
    var items := cases.items;
    for n := 0 to |items|
      invariant ids == CollectedIds(items[..n]) && seen == AsSet(ids)
      invariant failures == [] <==> AllShaped(items[..n], requirePass) && DistinctCaseIds(items[..n])
    {
      ShapeStep(items, n, requirePass);
      DistinctStep(items, n);
      var found := ItemFailures(items[n], requirePass, seen);
      failures := failures + found;
      seen := seen + AsSet(UsableId(items[n]));
      AsSetConcat(ids, UsableId(items[n]));
      ids := ids + UsableId(items[n]);
    }
    assert items[..|items|] == items;
  }

  function AsSet(ids: seq<string>): set<string> { set id | id in ids }

  lemma AsSetConcat(a: seq<string>, b: seq<string>)
    ensures AsSet(a + b) == AsSet(a) + AsSet(b)
  {}

  /** One step of `case_collection_failures`. */
  method ItemFailures(item: Json, requirePass: bool, seen: set<string>) returns (failures: seq<string>)
    ensures failures == [] <==>
      ShapedCase(item, requirePass) && (NonEmptyStr(IdOf(item)) ==> IdOf(item).s !in seen)
  {
    if !item.Obj? {
      return ["expected object"];
    }
    var id := Get(item.fields, "case_id");
    failures := [];
    if !NonEmptyStr(id) {
      failures := ["case_id: expected non-empty string"];
    } else if id.s in seen {
      failures := ["duplicate case_id"];
    }
    if requirePass && !Get(item.fields, "pass").Bool? {
      failures := failures + ["pass: expected boolean"];
    }
  }

  // ---------------------------------------------------------------- summaries

  /** How many entries carry this verdict. */
  function CountPass(cases: seq<Json>, verdict: bool): (k: nat)
    ensures k <= |cases|
  {
    if cases == [] then 0
    else CountPass(cases[..|cases| - 1], verdict) + (if HasVerdict(cases[|cases| - 1], verdict) then 1 else 0)
  }

  predicate HasVerdict(j: Json, verdict: bool) {
    j.Obj? && Get(j.fields, "pass") == Bool(verdict)
  }

  /** What `conformance_summary_failures` accepts. */
  predicate SummaryOk(summary: Json, cases: Json) {
    && summary.Obj? && cases.Arr?
    && var s := summary.fields;
       && NonNegInt(Get(s, "total")) && NonNegInt(Get(s, "passed")) && NonNegInt(Get(s, "failed")) && NonNegInt(Get(s, "skipped"))
       && Get(s, "total").i == |cases.items|
       && Get(s, "passed").i == CountPass(cases.items, true) && Get(s, "failed").i == CountPass(cases.items, false)
       && Get(s, "passed").i + Get(s, "failed").i == Get(s, "total").i
       && Get(s, "skipped").i <= Get(s, "failed").i
  }

  method CountVerdicts(cases: seq<Json>) returns (passed: nat, failed: nat)
    ensures passed == CountPass(cases, true) && failed == CountPass(cases, false)
  {
    passed, failed := 0, 0;
    for n := 0 to |cases|
      invariant passed == CountPass(cases[..n], true) && failed == CountPass(cases[..n], false)
    {
      assert cases[..n + 1][..n] == cases[..n];
      if HasVerdict(cases[n], true) {
        passed := passed + 1;
      }
      if HasVerdict(cases[n], false) {
        failed := failed + 1;
      }
    }
    assert cases[..|cases|] == cases;
  }

  method SummaryFailures(summary: Json, cases: Json) returns (failures: seq<string>)
    ensures failures == [] <==> SummaryOk(summary, cases)
  {
    if !summary.Obj? {
      return ["summary: expected object"];
    }
    if !cases.Arr? {
      return ["cases: expected array before summary arithmetic"];
    }
    var s := summary.fields;
    var total, passed, failed, skipped := Get(s, "total"), Get(s, "passed"), Get(s, "failed"), Get(s, "skipped");
    if !(NonNegInt(total) && NonNegInt(passed) && NonNegInt(failed) && NonNegInt(skipped)) {
      return ["summary: expected non-negative integers"];
    }
    var counted, uncounted := CountVerdicts(cases.items);
    failures := Normalize.Fail(total.i == |cases.items|, "summary.total");
    failures := failures + Normalize.Fail(passed.i == counted, "summary.passed");
    failures := failures + Normalize.Fail(failed.i == uncounted, "summary.failed");
    failures := failures + Normalize.Fail(passed.i + failed.i == total.i, "summary: passed + failed must equal total");
    failures := failures + Normalize.Fail(skipped.i <= failed.i, "summary.skipped: cannot exceed failed cases");
  }

  /** `summary_status`. */
  function SummaryStatus(summary: Json): string {
    if !summary.Obj? then "fail"
    else
      var s := summary.fields;
      if !(NonNegInt(Get(s, "total")) && NonNegInt(Get(s, "passed")) && NonNegInt(Get(s, "failed")) && NonNegInt(Get(s, "skipped")))
      then "fail"
      else
        var total, passed, failed, skipped := Get(s, "total").i, Get(s, "passed").i, Get(s, "failed").i, Get(s, "skipped").i;
        if total <= 0 || passed + failed != total || skipped > failed then "fail"
        else if failed != 0 then "fail"
        else if skipped != 0 then "partial"
        else "pass"
  }

  /** Python truth of a parsed value. */
  predicate Truthy(j: Json) {
    match j
    case Null => false
    case Bool(b) => b
    case Int(i) => i != 0
    case Float(r) => r != 0.0
    case Str(s) => s != ""
    case Arr(items) => items != []
    case Obj(fields) => fields != map[]
  }

  /** `conformance_report_status`. */
  function ReportStatus(conf: Object): string {
    if Truthy(Get(conf, "fatal_errors")) then "fail" else SummaryStatus(Get(conf, "summary"))
  }

  // ---------------------------------------------------------------- projections

  /** `implementation_case_result`. */
  function CaseResult(o: Object): Object {
    var r := map[
      "case_id" := Get(o, "case_id"),
      "expected_outcome" := Get(o, "expected_outcome"), "actual_outcome" := Get(o, "actual_outcome"),
      "expected_should_execute" := Get(o, "expected_should_execute"), "actual_should_execute" := Get(o, "actual_should_execute"),
      "expected_primary_reason_code" := Get(o, "expected_primary_reason_code"),
      "actual_primary_reason_code" := Get(o, "actual_primary_reason_code"),
      "pass" := Get(o, "pass")];
    if StrIn(Get(o, "artifact_mode"), MODES) then r["artifact_mode" := Get(o, "artifact_mode")] else r
  }

  function CaseResults(cases: seq<Json>): (r: seq<Json>)
    requires forall k :: 0 <= k < |cases| ==> cases[k].Obj?
    ensures |r| == |cases| && forall k :: 0 <= k < |r| ==> r[k] == Obj(CaseResult(cases[k].fields))
  {
    if cases == [] then [] else [Obj(CaseResult(cases[0].fields))] + CaseResults(cases[1..])
  }

  /** `implementation_case_results_match`. */
  predicate ResultsMatch(conf: Object, impl: Object) {
    var cases, results := Get(conf, "cases"), Get(impl, "case_results");
    && cases.Arr? && results.Arr?
    && (forall k :: 0 <= k < |cases.items| ==> cases.items[k].Obj?)
    && PyEq(results, Arr(CaseResults(cases.items)))
  }

  /** The first entry of a report for a case. */
  function EntryFor(cases: seq<Json>, id: string): (r: Option<Object>)
    ensures r.Some? ==> Obj(r.value) in cases && Get(r.value, "case_id") == Str(id)
  {
    if cases == [] then None
    else if IdOf(cases[0]) == Str(id) then Some(cases[0].fields)
    else EntryFor(cases[1..], id)
  }

  /** The state messages an entry records. */
  function RecordedStates(o: Object): seq<string> {
    var fs := Get(o, "failures");
    if fs.Arr? && forall k :: 0 <= k < |fs.items| ==> fs.items[k].Str? then StatesIn(Texts(fs.items)) else []
  }

  /** An entry repeats what the submission normalizes to. */
  predicate EntryProjects(o: Object, n: NormCase) {
    && PyEq(Get(o, "actual_outcome"), Str(n.outcome))
    && PyEq(Get(o, "actual_should_execute"), OptBool(n.shouldExecute))
    && PyEq(Get(o, "actual_reason_codes"), Strings(n.codes))
    && PyEq(Get(o, "actual_primary_reason_code"), OptStr(Primary(n.codes)))
    && PyEq(Get(o, "artifact_mode"), Str(n.mode))
    && RecordedStates(o) == OptList(n.stateFailure)
    && (n.stateFailure.Some? ==> Get(o, "pass") == Bool(false))
  }

  predicate CaseProjects(cases: seq<Json>, n: NormCase) {
    EntryFor(cases, n.caseId).Some? && EntryProjects(EntryFor(cases, n.caseId).value, n)
  }

  /** What `sut_result_report_projection_failures` accepts. */
  predicate ProjectionOk(ns: seq<NormCase>, cases: Json) {
    cases.Arr? && forall i :: 0 <= i < |ns| ==> CaseProjects(cases.items, ns[i])
  }

  method EntryFailures(o: Object, n: NormCase) returns (failures: seq<string>)
    ensures failures == [] <==> EntryProjects(o, n)
  {
    var decision := PyEq(Get(o, "actual_outcome"), Str(n.outcome)) && PyEq(Get(o, "actual_should_execute"), OptBool(n.shouldExecute));
    var codes := PyEq(Get(o, "actual_reason_codes"), Strings(n.codes))
      && PyEq(Get(o, "actual_primary_reason_code"), OptStr(Primary(n.codes)));
    var mode := PyEq(Get(o, "artifact_mode"), Str(n.mode));
    failures := Normalize.Fail(decision && codes && mode, n.caseId + ": expected actual projection");
    failures := failures + Normalize.Fail(RecordedStates(o) == OptList(n.stateFailure), n.caseId + ": expected state failures");
    failures := failures +
      Normalize.Fail(n.stateFailure.None? || Get(o, "pass") == Bool(false), n.caseId + ": non-completed state requires pass=false");
  }

  /** The messages for one normalized case. */
  method CaseFailures(cases: seq<Json>, n: NormCase) returns (failures: seq<string>)
    ensures failures == [] <==> CaseProjects(cases, n)
  {
    var entry := EntryFor(cases, n.caseId);
    if entry.None? {
      failures := [n.caseId + ": conformance report case missing"];
    } else {
      failures := EntryFailures(entry.value, n);
    }
  }

  /** `sut_result_report_projection_failures`. */
  method ProjectionFailures(ns: seq<NormCase>, cases: Json) returns (failures: seq<string>)
    ensures failures == [] <==> ProjectionOk(ns, cases)
  {
    if !cases.Arr? {
      return ["conformance_report.cases: expected array"];
    }
    failures := [];
    for i := 0 to |ns|
      invariant failures == [] <==> forall j :: 0 <= j < i ==> CaseProjects(cases.items, ns[j])
    {
      var found := CaseFailures(cases.items, ns[i]);
      failures := failures + found;
    }
  }

  /** The canonical fields of a case entry. */
  predicate MatchesExpectation(o: Object, c: Case) {
    && PyEq(Get(o, "category"), Str(Category(c)))
    && PyEq(Get(o, "expected_outcome"), Str(ExpectedOutcome(c)))
    && PyEq(Get(o, "expected_should_execute"), Bool(ExpectedShouldExecute(c)))
    && PyEq(Get(o, "expected_primary_reason_code"), OptStr(Primary(ExpectedCodes(c))))
    && PyEq(Get(o, "expected_reason_codes"), Strings(ExpectedCodes(c)))
  }

  predicate EntryExpected(j: Json, cases: seq<Case>) {
    NonEmptyStr(IdOf(j)) && CaseWithId(cases, IdOf(j).s).Some? ==>
      MatchesExpectation(j.fields, CaseWithId(cases, IdOf(j).s).value)
  }

  /** What `conformance_case_expectation_failures` accepts. */
  predicate ExpectationsOk(cases: Json, corpusCases: seq<Case>) {
    cases.Arr? && forall k :: 0 <= k < |cases.items| ==> EntryExpected(cases.items[k], corpusCases)
  }

  /** Per mode, how many entries of a report claim it. */
  function CountMode(cases: seq<Json>, mode: string): nat {
    if cases == [] then 0
    else CountMode(cases[..|cases| - 1], mode) + (if ClaimsMode(cases[|cases| - 1], mode) then 1 else 0)
  }

  predicate ClaimsMode(j: Json, mode: string) {
    j.Obj? && Get(j.fields, "artifact_mode") == Str(mode)
  }

  function EntryCounts(cases: Json): Json {
    var items := if cases.Arr? then cases.items else [];
    CountsJson(Counts(CountMode(items, CORPUS_MODE), CountMode(items, GENERATED_MODE)))
  }

  // ---------------------------------------------------------------- whole reports

  predicate ManifestItemContract(j: Json) {
    j.Obj? && NonEmptyStr(Get(j.fields, "path")) && Get(j.fields, "sha256").Str? && IsSha256Hex(Get(j.fields, "sha256").s)
  }

  /** `report_corpus_contract_failures`. */
  predicate CorpusBlockContract(j: Json, implementation: bool) {
    && j.Obj? && NonEmptyStr(Get(j.fields, "name")) && NonEmptyStr(Get(j.fields, "root"))
    && NonNegInt(Get(j.fields, "artifact_count")) && DigestContract(Get(j.fields, "digest"))
    && (implementation ==>
          && NonNegInt(Get(j.fields, "case_count")) && Get(j.fields, "manifest").Arr?
          && forall k :: 0 <= k < |Get(j.fields, "manifest").items| ==> ManifestItemContract(Get(j.fields, "manifest").items[k]))
  }

  /** The contract on `sut_results` of a conformance report. */
  predicate SutBlockContract(j: Json) {
    && j.Obj? && NonEmptyStr(Get(j.fields, "path")) && DigestContract(Get(j.fields, "digest"))
    && Get(j.fields, "digest_basis") == Str(DIGEST_BASIS) && StrIn(Get(j.fields, "artifact_mode"), MODES)
    && CountsContract(Get(j.fields, "artifact_mode_counts")) && Get(j.fields, "implementation").Obj?
  }

  predicate AllCases(j: Json, conformance: bool) {
    j.Arr? && forall k :: 0 <= k < |j.items| ==>
      if conformance then ConformanceCaseContract(j.items[k]) else ImplementationCaseContract(j.items[k])
  }

  /** `conformance_report_contract_failures`. */
  predicate ConformanceContract(env: Env, r: Object) {
    && Get(r, "version") == Str(CONFORMANCE_REPORT_VERSION) && Get(r, "profile") == Str(PROFILE)
    && TimeOf(env, Get(r, "checked_at")).Some?
    && AllCases(Get(r, "cases"), true) && SummaryOk(Get(r, "summary"), Get(r, "cases"))
    && CorpusBlockContract(Get(r, "corpus"), false)
    && ("fatal_errors" in r ==> NonEmptyStrings(r["fatal_errors"]))
    && ("sut_results" in r ==> SutBlockContract(r["sut_results"]))
  }

  predicate IdentityContract(j: Json) {
    && j.Obj?
    && (forall k :: 0 <= k < |IDENTITY_FIELDS| ==> NonEmptyStr(Get(j.fields, IDENTITY_FIELDS[k])))
    && forall k :: 0 <= k < |OPTIONAL_IDENTITY| && OPTIONAL_IDENTITY[k] in j.fields ==> NonEmptyStr(j.fields[OPTIONAL_IDENTITY[k]])
  }

  predicate LinkContract(j: Json) {
    && j.Obj? && NonEmptyStr(Get(j.fields, "uri")) && Get(j.fields, "media_type") == Str(CONFORMANCE_MEDIA_TYPE)
    && DigestContract(Get(j.fields, "digest")) && StrIn(Get(j.fields, "digest_basis"), DIGEST_BASES)
  }

  /** `implementation_report_contract_failures`. */
  predicate ImplementationContract(env: Env, r: Object) {
    && Get(r, "version") == Str(IMPLEMENTATION_REPORT_VERSION) && Get(r, "profile") == Str(PROFILE)
    && TimeOf(env, Get(r, "generated_at")).Some? && StrIn(Get(r, "status"), STATUSES)
    && IdentityContract(Get(r, "implementation")) && CorpusBlockContract(Get(r, "corpus"), true)
    && LinkContract(Get(r, "conformance_report"))
    && AllCases(Get(r, "case_results"), false) && SummaryOk(Get(r, "summary"), Get(r, "case_results"))
    && ("artifact_mode_counts" in r ==> CountsContract(r["artifact_mode_counts"]))
    && ("limitations" in r ==> NonEmptyStrings(r["limitations"]))
  }
}

/** `verify_report_bundle`: a corpus, its index, a conformance report, an
    implementation report and, optionally, the submission are checked against
    each other; and `make_implementation_report`, which produces the second
    report from the first.  */
module Bundle {
  import opened Json
  import opened Oracles
  import opened Corpora
  import opened Normalize
  import opened Compare
  import opened ReportContracts

  /** The SUT result file: not supplied, or supplied and perhaps unreadable. */
  datatype Submission = NotGiven | Given(json: Option<Json>)

  /** The files of a bundle; None is a file that is not strict JSON. */
  datatype Bundle = Bundle(index: Option<Json>, conformance: Option<Json>, implementation: Option<Json>, submission: Submission)

  predicate IsObject(o: Option<Json>) { o.Some? && o.value.Obj? }

  /** The object a file holds, or the empty object. */
  function AsObject(o: Option<Json>): Object { if IsObject(o) then o.value.fields else map[] }

  /** A file that cannot be read counts as the empty object. */
  function Raw(o: Option<Json>): Json { if o.Some? then o.value else Obj(map[]) }

  // ---------------------------------------------------------------- what is accepted

  predicate CorpusOk(corpus: Corpus) {
    && corpus.hasCasesDirectory && corpus.loadFailures == [] && corpus.cases != [] && UniqueIds(corpus.cases)
    && corpus.manifestFailures == [] && InputContractsOk(corpus.cases)
  }

  predicate IdentityMatches(corpus: Corpus, index: Object) {
    forall field :: field in Identity(corpus) ==> PyEq(Get(index, field), Identity(corpus)[field])
  }

  predicate IndexSummaryOk(corpus: Corpus, summary: Json) {
    && summary.Obj?
    && PyEq(Get(summary.fields, "case_count"), Int(|corpus.cases|))
    && PyEq(Get(summary.fields, "category_counts"), Obj(CategoryCounts(corpus.cases)))
    && Get(summary.fields, "artifact_count") == Int(|corpus.manifest|)
  }

  /** The committed index is the index of this corpus. */
  predicate IndexOk(env: Env, corpus: Corpus, index: Object) {
    && IdentityMatches(corpus, index)
    && PyEq(Get(index, "digest"), CorpusDigest(env, corpus)) && PyEq(Get(index, "manifest"), ManifestJson(corpus))
    && Covers(Get(index, "cases"), false, Ids(corpus.cases))
    && PyEq(Get(index, "cases"), Arr(IndexEntries(corpus, corpus.cases)))
    && IndexSummaryOk(corpus, Get(index, "summary"))
  }

  predicate AllConsistent(cases: Json) {
    cases.Arr? ==> forall k :: 0 <= k < |cases.items| ==> CaseConsistent(cases.items[k])
  }

  /** The cases of the conformance report: one per canonical case, with the
      canonical expectations, consistent, and correctly summed up.  */
  predicate ConformanceCasesOk(corpus: Corpus, conf: Object) {
    && Covers(Get(conf, "cases"), true, Ids(corpus.cases))
    && ExpectationsOk(Get(conf, "cases"), corpus.cases)
    && AllConsistent(Get(conf, "cases"))
    && SummaryOk(Get(conf, "summary"), Get(conf, "cases"))
  }

  predicate ConformanceCorpusOk(env: Env, corpus: Corpus, block: Json) {
    && block.Obj? && PyEq(Get(block.fields, "digest"), CorpusDigest(env, corpus))
    && Get(block.fields, "artifact_count") == Int(|corpus.manifest|)
  }

  predicate ImplementationCorpusOk(env: Env, corpus: Corpus, block: Json) {
    && block.Obj? && PyEq(Get(block.fields, "digest"), CorpusDigest(env, corpus))
    && PyEq(Get(block.fields, "manifest"), ManifestJson(corpus))
    && PyEq(Get(block.fields, "case_count"), Int(|corpus.cases|))
    && Get(block.fields, "artifact_count") == Int(|corpus.manifest|)
  }

  /** The implementation report points at exactly this conformance report. */
  predicate LinkOk(env: Env, rawConformance: Json, link: Json) {
    && link.Obj? && PyEq(Get(link.fields, "digest"), DigestDescriptor(env, rawConformance))
    && Get(link.fields, "digest_basis") == Str(DIGEST_BASIS)
  }

  /** The implementation report repeats the conformance report. */
  predicate RepeatsConformance(corpus: Corpus, conf: Object, impl: Object) {
    && Covers(Get(impl, "case_results"), true, Ids(corpus.cases))
    && PyEq(Get(impl, "summary"), Get(conf, "summary"))
    && PyEq(Get(impl, "status"), Str(ReportStatus(conf)))
    && ResultsMatch(conf, impl)
  }

  predicate ModeCountsOk(conf: Object, impl: Object) {
    Get(conf, "sut_results").Obj? ==>
      var counts := Get(Get(conf, "sut_results").fields, "artifact_mode_counts");
      PyEq(counts, EntryCounts(Get(conf, "cases"))) && PyEq(Get(impl, "artifact_mode_counts"), counts)
  }

  /** A submission addressed to this corpus. */
  predicate SubmissionOk(env: Env, corpus: Corpus, sut: Object) {
    && EnvelopeOk(env, sut) && StructureOk(sut, Ids(corpus.cases))
    && PyEq(Get(sut, "version"), Str(SUT_RESULTS_VERSION)) && PyEq(Get(sut, "profile"), Str(PROFILE))
    && SutCorpus(sut).Obj? && PyEq(Get(SutCorpus(sut).fields, "digest"), CorpusDigest(env, corpus))
  }

  /** The conformance report describes this submission. */
  predicate DescribesSubmission(env: Env, sut: Object, ns: seq<NormCase>, block: Json) {
    && block.Obj?
    && PyEq(Get(block.fields, "digest"), DigestDescriptor(env, Obj(sut)))
    && Get(block.fields, "digest_basis") == Str(DIGEST_BASIS)
    && PyEq(Get(block.fields, "implementation"), Get(sut, "implementation"))
    && PyEq(Get(block.fields, "artifact_mode"), Str(DefaultMode(sut)))
    && PyEq(Get(block.fields, "artifact_mode_counts"), CountsJson(CountModes(ns)))
  }

  /** Generated receipts of one result, checked again. */
  predicate GeneratedOk(ck: Checkers, cases: seq<Case>, n: NormCase) {
    n.result.Some? ==>
      && n.modeFailures == []
      && if n.mode != GENERATED_MODE then "generated_artifacts" !in n.result.value
         else CaseWithId(cases, n.caseId).Some? && ck.generatedTails(n.result.value, CaseWithId(cases, n.caseId).value) == []
  }

  predicate AllGeneratedOk(ck: Checkers, cases: seq<Case>, ns: seq<NormCase>) {
    forall i :: 0 <= i < |ns| ==> GeneratedOk(ck, cases, ns[i])
  }

  predicate SkippedOk(conf: Object, skipped: nat) {
    Get(conf, "summary").Obj? && PyEq(Get(Get(conf, "summary").fields, "skipped"), Int(skipped))
  }

  /** The canonical cases as the submission answers them. */
  function NormalizedCases(env: Env, sut: Object, ids: seq<string>): seq<NormCase> {
    ReadCases(env, DefaultMode(sut), Results(sut), ids)
  }

  predicate AgreesWithSubmission(env: Env, ck: Checkers, corpus: Corpus, conf: Object, sut: Object) {
    var ns := NormalizedCases(env, sut, Ids(corpus.cases));
    && SubmissionOk(env, corpus, sut)
    && DescribesSubmission(env, sut, ns, Get(conf, "sut_results"))
    && ProjectionOk(ns, Get(conf, "cases"))
    && DefaultModeOk(sut) && AllGeneratedOk(ck, corpus.cases, ns)
    && SkippedOk(conf, CountSkipped(ns))
  }

  /** A reference run carries no submission and skips nothing. */
  predicate ReferenceRun(conf: Object) {
    Get(conf, "sut_results") == Null && SkippedOk(conf, 0)
  }

  /** The conformance report fits the corpus. */
  predicate ConformanceOk(env: Env, corpus: Corpus, conf: Object) {
    && ConformanceContract(env, conf) && ConformanceCasesOk(corpus, conf)
    && ConformanceCorpusOk(env, corpus, Get(conf, "corpus"))
  }

  /** The implementation report fits the corpus and the conformance report. */
  predicate ImplementationOk(env: Env, corpus: Corpus, rawConformance: Json, conf: Object, impl: Object) {
    && ImplementationContract(env, impl) && ImplementationCorpusOk(env, corpus, Get(impl, "corpus"))
    && LinkOk(env, rawConformance, Get(impl, "conformance_report"))
    && RepeatsConformance(corpus, conf, impl) && ModeCountsOk(conf, impl)
  }

  predicate SubmissionAgrees(env: Env, ck: Checkers, corpus: Corpus, conf: Object, submission: Submission) {
    match submission
    case NotGiven => ReferenceRun(conf)
    case Given(json) => IsObject(json) && AgreesWithSubmission(env, ck, corpus, conf, AsObject(json))
  }

  predicate AllObjects(b: Bundle) {
    IsObject(b.index) && IsObject(b.conformance) && IsObject(b.implementation)
  }

  /** What a passing verification stands for. */
  predicate BundleOk(env: Env, ck: Checkers, corpus: Corpus, b: Bundle) {
    && AllObjects(b) && CorpusOk(corpus) && IndexOk(env, corpus, AsObject(b.index))
    && ConformanceOk(env, corpus, AsObject(b.conformance))
    && ImplementationOk(env, corpus, Raw(b.conformance), AsObject(b.conformance), AsObject(b.implementation))
    && SubmissionAgrees(env, ck, corpus, AsObject(b.conformance), b.submission)
  }

  // ---------------------------------------------------------------- the checker

  datatype Check = Check(name: string, pass: bool)

  function Failing(checks: seq<Check>): (k: nat)
    ensures k <= |checks|
    ensures k == 0 <==> AllPass(checks)
  {
    if checks == [] then 0
    else
      var front, last := checks[..|checks| - 1], checks[|checks| - 1];
      assert checks == front + [last];
      AllPassConcat(front, last);
      Failing(front) + if last.pass then 0 else 1
  }

  predicate AllPass(checks: seq<Check>) {
    forall k :: 0 <= k < |checks| ==> checks[k].pass
  }

  lemma AllPassConcat(front: seq<Check>, last: Check)
    ensures AllPass(front + [last]) <==> AllPass(front) && last.pass
  {
    if AllPass(front + [last]) {
      forall k | 0 <= k < |front| ensures front[k].pass { assert (front + [last])[k] == front[k]; }
      assert (front + [last])[|front|] == last;
    }
  }

  /** The `checks` list that the verification appends to. */
  class Checklist {
    var checks: seq<Check>

    constructor ()
      ensures checks == []
    {
      checks := [];
    }

    predicate Clean()
      reads this
    {
      AllPass(checks)
    }

    /** `add_bundle_check`. */
    method Add(name: string, passed: bool)
      modifies this
      ensures checks == old(checks) + [Check(name, passed)]
      ensures Clean() <==> old(Clean()) && passed
    {
      AllPassConcat(checks, Check(name, passed));
      checks := checks + [Check(name, passed)];
    }

    /** One failing check per message. */
    method AddFailures(name: string, failures: seq<string>)
      modifies this
      ensures Clean() <==> old(Clean()) && failures == []
    {
      for n := 0 to |failures|
        invariant Clean() <==> old(Clean()) && n == 0
      {
        Add(name + ": " + failures[n], false);
      }
    }

    /** `read_bundle_json_or_empty` and `json_object_or_empty`. */
    method AddObject(name: string, file: Option<Json>)
      modifies this
      ensures Clean() <==> old(Clean()) && IsObject(file)
    {
      if file.None? {
        Add(name + ".json", false);
      }
      Add(name + ".shape", Raw(file).Obj?);
    }

    method CorpusChecks(corpus: Corpus)
      modifies this
      ensures Clean() <==> old(Clean()) && CorpusOk(corpus)
    {
      Add("corpus.cases.directory", corpus.hasCasesDirectory);
      Add("corpus.cases.envelope", corpus.loadFailures == []);
      Add("corpus.cases.non_empty", corpus.cases != []);
      Add("corpus.cases.unique", UniqueIds(corpus.cases));
      AddFailures("corpus.manifest", corpus.manifestFailures);
      var contracts := Compare.ContractFailures(corpus.cases);
      AddFailures("corpus.sut_inputs", corpus.loadFailures + contracts);
    }

    method IndexChecks(env: Env, corpus: Corpus, index: Object)
      modifies this
      ensures Clean() <==> old(Clean()) && IndexOk(env, corpus, index)
    {
      Add("corpus_index.identity", IdentityMatches(corpus, index));
      Add("corpus_index.digest", PyEq(Get(index, "digest"), CorpusDigest(env, corpus)));
      Add("corpus_index.manifest", PyEq(Get(index, "manifest"), ManifestJson(corpus)));
      AddCoverage("corpus_index.cases", Get(index, "cases"), false, Ids(corpus.cases));
      Add("corpus_index.cases.entries", PyEq(Get(index, "cases"), Arr(IndexEntries(corpus, corpus.cases))));
      IndexSummaryChecks(corpus, Get(index, "summary"));
    }

    method IndexSummaryChecks(corpus: Corpus, summary: Json)
      modifies this
      ensures Clean() <==> old(Clean()) && IndexSummaryOk(corpus, summary)
    {
      Add("corpus_index.summary.case_count", summary.Obj? && PyEq(Get(summary.fields, "case_count"), Int(|corpus.cases|)));
      Add("corpus_index.summary.category_counts",
        summary.Obj? && PyEq(Get(summary.fields, "category_counts"), Obj(CategoryCounts(corpus.cases))));
      Add("corpus_index.summary.artifact_count", summary.Obj? && Get(summary.fields, "artifact_count") == Int(|corpus.manifest|));
    }

    /** A case list is well shaped and covers the canonical ids. */
    method AddCoverage(name: string, cases: Json, requirePass: bool, ids: seq<string>)
      modifies this
      ensures Clean() <==> old(Clean()) && Covers(cases, requirePass, ids)
    {
      var found, failures := CaseCollection(cases, requirePass);
      Add(name + ".shape", failures == []);
      Add(name + ".coverage", failures == [] && ids != [] && multiset(found) == multiset(ids));
    }

    /** The dependency-free contract of a report, and its header once more. */
    method AddReport(name: string, report: Object, contract: bool, version: string)
      requires contract ==> Get(report, "version") == Str(version) && Get(report, "profile") == Str(PROFILE)
      modifies this
      ensures Clean() <==> old(Clean()) && contract
    {
      Add(name + ".envelope", contract);
      Add(name + ".version", PyEq(Get(report, "version"), Str(version)));
      Add(name + ".profile", PyEq(Get(report, "profile"), Str(PROFILE)));
    }

    method ConformanceCorpusChecks(env: Env, corpus: Corpus, block: Json)
      modifies this
      ensures Clean() <==> old(Clean()) && ConformanceCorpusOk(env, corpus, block)
    {
      Add("conformance_report.corpus.digest", block.Obj? && PyEq(Get(block.fields, "digest"), CorpusDigest(env, corpus)));
      Add("conformance_report.corpus.artifact_count", block.Obj? && Get(block.fields, "artifact_count") == Int(|corpus.manifest|));
    }

    method ConformanceCaseChecks(corpus: Corpus, conf: Object)
      modifies this
      ensures Clean() <==> old(Clean()) && ConformanceCasesOk(corpus, conf)
    {
      var cases := Get(conf, "cases");
      AddCoverage("conformance_report.cases", cases, true, Ids(corpus.cases));
      Add("conformance_report.cases.expectations", ExpectationsOk(cases, corpus.cases));
      Add("conformance_report.cases.internal_consistency", AllConsistent(cases));
      var arithmetic := SummaryFailures(Get(conf, "summary"), cases);
      Add("conformance_report.summary.arithmetic", arithmetic == []);
    }

    method ImplementationCorpusChecks(env: Env, corpus: Corpus, block: Json)
      modifies this
      ensures Clean() <==> old(Clean()) && ImplementationCorpusOk(env, corpus, block)
    {
      Add("implementation_report.corpus.digest", block.Obj? && PyEq(Get(block.fields, "digest"), CorpusDigest(env, corpus)));
      Add("implementation_report.corpus.manifest", block.Obj? && PyEq(Get(block.fields, "manifest"), ManifestJson(corpus)));
      Add("implementation_report.corpus.case_count", block.Obj? && PyEq(Get(block.fields, "case_count"), Int(|corpus.cases|)));
      Add("implementation_report.corpus.artifact_count", block.Obj? && Get(block.fields, "artifact_count") == Int(|corpus.manifest|));
    }

    method LinkChecks(env: Env, rawConformance: Json, link: Json)
      modifies this
      ensures Clean() <==> old(Clean()) && LinkOk(env, rawConformance, link)
    {
      Add("implementation_report.conformance_report.digest",
        link.Obj? && PyEq(Get(link.fields, "digest"), DigestDescriptor(env, rawConformance)));
      Add("implementation_report.conformance_report.digest_basis", link.Obj? && Get(link.fields, "digest_basis") == Str(DIGEST_BASIS));
    }

    method RepetitionChecks(corpus: Corpus, conf: Object, impl: Object)
      modifies this
      ensures Clean() <==> old(Clean()) && RepeatsConformance(corpus, conf, impl)
    {
      AddCoverage("implementation_report.case_results", Get(impl, "case_results"), true, Ids(corpus.cases));
      Add("implementation_report.summary", PyEq(Get(impl, "summary"), Get(conf, "summary")));
      Add("implementation_report.status", PyEq(Get(impl, "status"), Str(ReportStatus(conf))));
      Add("implementation_report.case_results", ResultsMatch(conf, impl));
    }

    method ModeCountChecks(conf: Object, impl: Object)
      modifies this
      ensures Clean() <==> old(Clean()) && ModeCountsOk(conf, impl)
    {
      if Get(conf, "sut_results").Obj? {
        var counts := Get(Get(conf, "sut_results").fields, "artifact_mode_counts");
        Add("conformance_report.sut_results.artifact_mode_counts", PyEq(counts, EntryCounts(Get(conf, "cases"))));
        Add("implementation_report.artifact_mode_counts", PyEq(Get(impl, "artifact_mode_counts"), counts));
      }
    }

    method SubmissionChecks(env: Env, corpus: Corpus, sut: Object, structural: seq<string>)
      requires structural == [] <==> StructureOk(sut, Ids(corpus.cases))
      modifies this
      ensures Clean() <==> old(Clean()) && SubmissionOk(env, corpus, sut)
    {
      var envelope := EnvelopeFailures(env, sut);
      Add("sut_results.envelope", envelope == []);
      Add("sut_results.results.structure", structural == []);
      Add("sut_results.version", PyEq(Get(sut, "version"), Str(SUT_RESULTS_VERSION)));
      Add("sut_results.profile", PyEq(Get(sut, "profile"), Str(PROFILE)));
      Add("sut_results.corpus.digest",
        SutCorpus(sut).Obj? && PyEq(Get(SutCorpus(sut).fields, "digest"), CorpusDigest(env, corpus)));
    }

    method DescriptionChecks(env: Env, sut: Object, normalized: Normalized, block: Json)
      requires normalized.defaultMode == DefaultMode(sut) && normalized.counts == CountModes(normalized.cases)
      modifies this
      ensures Clean() <==> old(Clean()) && DescribesSubmission(env, sut, normalized.cases, block)
    {
      Add("conformance_report.sut_results.digest", block.Obj? && PyEq(Get(block.fields, "digest"), DigestDescriptor(env, Obj(sut))));
      Add("conformance_report.sut_results.digest_basis", block.Obj? && Get(block.fields, "digest_basis") == Str(DIGEST_BASIS));
      Add("conformance_report.sut_results.implementation",
        block.Obj? && PyEq(Get(block.fields, "implementation"), Get(sut, "implementation")));
      Add("conformance_report.sut_results.artifact_mode",
        block.Obj? && PyEq(Get(block.fields, "artifact_mode"), Str(normalized.defaultMode)));
      Add("conformance_report.sut_results.submitted_artifact_mode_counts",
        block.Obj? && PyEq(Get(block.fields, "artifact_mode_counts"), CountsJson(normalized.counts)));
    }

    /** `add_generated_artifact_bundle_checks` on one result. */
    method GeneratedChecks(ck: Checkers, cases: seq<Case>, n: NormCase)
      modifies this
      ensures Clean() <==> old(Clean()) && GeneratedOk(ck, cases, n)
    {
      if n.result.None? {
        return;
      }
      if n.modeFailures != [] {
        Add("sut_results.artifact_mode.result", false);
        return;
      }
      if n.mode != GENERATED_MODE {
        if "generated_artifacts" in n.result.value {
          Add("sut_results.generated_artifacts.result", false);
        }
        return;
      }
      var expected := CaseWithId(cases, n.caseId);
      if expected.None? {
        Add("sut_results.generated_artifacts.result", false);
        return;
      }
      Add("sut_results.generated_artifacts." + n.caseId, ck.generatedTails(n.result.value, expected.value) == []);
    }

    /** `add_generated_artifact_bundle_checks`. */
    method AllGeneratedChecks(ck: Checkers, cases: seq<Case>, modeFailure: Option<string>, ns: seq<NormCase>)
      modifies this
      ensures Clean() <==> old(Clean()) && modeFailure.None? && AllGeneratedOk(ck, cases, ns)
    {
      if modeFailure.Some? {
        Add("sut_results.artifact_mode", false);
      }
      ghost var before := Clean();
      for i := 0 to |ns|
        invariant Clean() <==> before && forall j :: 0 <= j < i ==> GeneratedOk(ck, cases, ns[j])
      {
        GeneratedChecks(ck, cases, ns[i]);
      }
    }

    method AddSkipped(conf: Object, skipped: nat)
      modifies this
      ensures Clean() <==> old(Clean()) && SkippedOk(conf, skipped)
    {
      var summary := Get(conf, "summary");
      Add("conformance_report.summary.skipped", summary.Obj? && PyEq(Get(summary.fields, "skipped"), Int(skipped)));
    }

    /** The results themselves against the conformance report. */
    method ResultChecks(ck: Checkers, corpus: Corpus, conf: Object, normalized: Normalized)
      modifies this
      ensures Clean() <==> (old(Clean()) && normalized.structuralFailures == [] && ProjectionOk(normalized.cases, Get(conf, "cases"))
                            && normalized.defaultModeFailure.None? && AllGeneratedOk(ck, corpus.cases, normalized.cases)
                            && SkippedOk(conf, normalized.skipped))
    {
      var projection := ProjectionFailures(normalized.cases, Get(conf, "cases"));
      Add("conformance_report.cases.sut_actual_projection", normalized.structuralFailures == [] && projection == []);
      AllGeneratedChecks(ck, corpus.cases, normalized.defaultModeFailure, normalized.cases);
      AddSkipped(conf, normalized.skipped);
    }

    method SuppliedChecks(env: Env, ck: Checkers, corpus: Corpus, conf: Object, sut: Object)
      modifies this
      ensures Clean() <==> old(Clean()) && AgreesWithSubmission(env, ck, corpus, conf, sut)
    {
      var normalized := Normalize.Normalize(env, sut, Ids(corpus.cases));
      SubmissionChecks(env, corpus, sut, normalized.structuralFailures);
      DescriptionChecks(env, sut, normalized, Get(conf, "sut_results"));
      ResultChecks(ck, corpus, conf, normalized);
    }

    method ReferenceChecks(conf: Object)
      modifies this
      ensures Clean() <==> old(Clean()) && ReferenceRun(conf)
    {
      Add("sut_results.provided", Get(conf, "sut_results") == Null);
      AddSkipped(conf, 0);
    }

    method SubmissionGroup(env: Env, ck: Checkers, corpus: Corpus, conf: Object, submission: Submission)
      modifies this
      ensures Clean() <==> old(Clean()) && SubmissionAgrees(env, ck, corpus, conf, submission)
    {
      match submission {
        case NotGiven =>
          ReferenceChecks(conf);
        case Given(json) =>
          AddObject("sut_results", json);
          SuppliedChecks(env, ck, corpus, conf, AsObject(json));
      }
    }

    method ConformanceGroup(env: Env, corpus: Corpus, conf: Object)
      modifies this
      ensures Clean() <==> old(Clean()) && ConformanceOk(env, corpus, conf)
    {
      AddReport("conformance_report", conf, ConformanceContract(env, conf), CONFORMANCE_REPORT_VERSION);
      ConformanceCaseChecks(corpus, conf);
      ConformanceCorpusChecks(env, corpus, Get(conf, "corpus"));
    }

    method ImplementationGroup(env: Env, corpus: Corpus, rawConformance: Json, conf: Object, impl: Object)
      modifies this
      ensures Clean() <==> old(Clean()) && ImplementationOk(env, corpus, rawConformance, conf, impl)
    {
      AddReport("implementation_report", impl, ImplementationContract(env, impl), IMPLEMENTATION_REPORT_VERSION);
      ImplementationCorpusChecks(env, corpus, Get(impl, "corpus"));
      LinkChecks(env, rawConformance, Get(impl, "conformance_report"));
      RepetitionChecks(corpus, conf, impl);
      ModeCountChecks(conf, impl);
    }

    method FileGroup(b: Bundle)
      modifies this
      ensures Clean() <==> old(Clean()) && AllObjects(b)
    {
      AddObject("conformance_report", b.conformance);
      AddObject("implementation_report", b.implementation);
      AddObject("corpus_index", b.index);
    }
  }

  /** The verification report. */
  datatype Verification = Verification(status: string, total: nat, passed: nat, failed: nat, checks: seq<Check>)

  /** `verify_report_bundle`. */
  method VerifyReportBundle(env: Env, ck: Checkers, corpus: Corpus, b: Bundle) returns (report: Verification)
    ensures report.status == "pass" <==> BundleOk(env, ck, corpus, b)
    ensures report.status == "pass" || report.status == "fail"
    ensures report.total == |report.checks| && report.passed + report.failed == report.total
    ensures report.failed == Failing(report.checks)
  {
    var list := new Checklist();
    list.FileGroup(b);
    list.CorpusChecks(corpus);
    list.IndexChecks(env, corpus, AsObject(b.index));
    list.ConformanceGroup(env, corpus, AsObject(b.conformance));
    list.ImplementationGroup(env, corpus, Raw(b.conformance), AsObject(b.conformance), AsObject(b.implementation));
    list.SubmissionGroup(env, ck, corpus, AsObject(b.conformance), b.submission);
    var failed := Failing(list.checks);
    report := Verification(if failed == 0 then "pass" else "fail", |list.checks|, |list.checks| - failed, failed, list.checks);
  }

  // ---------------------------------------------------------------- the implementation report

  /** Who ran the comparison, and where its report is published. */
  datatype Arguments = Arguments(identity: Object, reportUri: Name, publication: Option<Json>, proofs: Option<Json>)

  /** `text_field`. */
  function TextField(source: Object, key: string, default: string): (r: Json)
    requires default != ""
    ensures NonEmptyStr(r)
  {
    if NonEmptyStr(Get(source, key)) then Get(source, key) else Str(default)
  }

  /** Copies an optional identity field when it is a non-empty text. */
  function WithOptional(o: Object, source: Object, key: string): Object {
    if NonEmptyStr(Get(source, key)) then o[key := source[key]] else o
  }

  /** `implementation_metadata` of a report on a submission. */
  function Metadata(source: Object): Object {
    var o := map[
      "name" := TextField(source, "name", "Unknown external VATE verifier"),
      "type" := TextField(source, "type", "external-verifier"),
      "version" := TextField(source, "version", "unknown"),
      "language" := TextField(source, "language", "unknown")];
    WithOptional(WithOptional(WithOptional(o, source, "source"), source, "commit"), source, "environment")
  }

  function ImplementationOf(args: Arguments, conf: Object): Object {
    var block := Get(conf, "sut_results");
    if block.Obj? && Get(block.fields, "implementation").Obj? then Metadata(Get(block.fields, "implementation").fields)
    else args.identity
  }

  const LIMITATIONS := [
    "This report records one implementation run against one corpus snapshot.",
    "Passing cases do not imply production readiness or endorsement."]

  function SummaryTotal(conf: Object): Json {
    if Get(conf, "summary").Obj? then Get(Get(conf, "summary").fields, "total") else Null
  }

  function MadeCorpus(env: Env, corpus: Corpus, conf: Object): Object {
    map["name" := Str(corpus.name), "root" := Str(corpus.root), "case_count" := SummaryTotal(conf),
        "artifact_count" := Int(|corpus.manifest|), "digest" := CorpusDigest(env, corpus), "manifest" := ManifestJson(corpus)]
  }

  function MadeLink(env: Env, args: Arguments, conf: Object): Object {
    map["uri" := Str(args.reportUri), "media_type" := Str(CONFORMANCE_MEDIA_TYPE),
        "digest" := DigestDescriptor(env, Obj(conf)), "digest_basis" := Str(DIGEST_BASIS)]
  }

  function ImplementationMap(generatedAt: Json, status: Json, implementation: Json, corpus: Json, link: Json,
                             summary: Json, results: Json): Object {
    map["version" := Str(IMPLEMENTATION_REPORT_VERSION), "profile" := Str(PROFILE), "generated_at" := generatedAt,
        "status" := status, "implementation" := implementation, "corpus" := corpus, "conformance_report" := link,
        "summary" := summary, "case_results" := results, "limitations" := Strings(LIMITATIONS)]
  }

  /** The fields `make_implementation_report` always writes. */
  function ReportBody(env: Env, corpus: Corpus, args: Arguments, conf: Object): Object
    requires Get(conf, "cases").Arr? && forall k :: 0 <= k < |Get(conf, "cases").items| ==> Get(conf, "cases").items[k].Obj?
  {
    ImplementationMap(Get(conf, "checked_at"), Str(ReportStatus(conf)), Obj(ImplementationOf(args, conf)),
      Obj(MadeCorpus(env, corpus, conf)), Obj(MadeLink(env, args, conf)), Get(conf, "summary"),
      Arr(CaseResults(Get(conf, "cases").items)))
  }

  function WithSome(o: Object, key: string, value: Option<Json>): Object {
    if value.Some? then o[key := value.value] else o
  }

  function ModeCounts(conf: Object): Option<Json> {
    var block := Get(conf, "sut_results");
    if block.Obj? && Get(block.fields, "artifact_mode_counts").Obj? then Some(Get(block.fields, "artifact_mode_counts")) else None
  }

  /** `make_implementation_report`. */
  function MakeImplementationReport(env: Env, corpus: Corpus, args: Arguments, conf: Object): Object
    requires Get(conf, "cases").Arr? && forall k :: 0 <= k < |Get(conf, "cases").items| ==> Get(conf, "cases").items[k].Obj?
  {
    WithSome(WithSome(WithSome(ReportBody(env, corpus, args, conf),
      "artifact_mode_counts", ModeCounts(conf)), "publication", args.publication), "proofs", args.proofs)
  }
}

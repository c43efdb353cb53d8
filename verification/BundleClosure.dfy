/** Honest output is accepted: comparing a submission, making the
    implementation report and verifying the bundle never disagree, up to two
    conditions the comparison leaves open.  */
module BundleClosure {
  import opened Json
  import opened Oracles
  import opened Corpora
  import opened Normalize
  import opened Compare
  import opened ReportContracts
  import opened Bundle
  import BundleSoundness

  // ---------------------------------------------------------------- coverage

  predicate Lists(items: seq<Json>, ids: seq<string>) {
    |items| == |ids| && forall k :: 0 <= k < |items| ==> CaseNamed(items[k], ids[k])
  }

  lemma {:induction false} CollectedAll(items: seq<Json>, ids: seq<string>)
    requires Lists(items, ids)
    ensures CollectedIds(items) == ids
  {
    if items == [] {
    } else {
      var n := |items| - 1;
      CollectedAll(items[..n], ids[..n]);
      assert CaseNamed(items[n], ids[n]);
      assert ids == ids[..n] + [ids[n]];
    }
  }

  lemma ListCovers(items: seq<Json>, ids: seq<string>, requirePass: bool)
    requires Lists(items, ids) && ids != [] && AllShaped(items, requirePass)
    requires Distinct(ids)
    ensures Covers(Arr(items), requirePass, ids)
  {
    CollectedAll(items, ids);
    forall i, j | 0 <= i < |items| && 0 <= j < |items| && SameCase(items[i], items[j]) ensures i == j {
      assert CaseNamed(items[i], ids[i]) && CaseNamed(items[j], ids[j]);
    }
  }

  predicate Distinct(ids: seq<string>) {
    forall i, j :: 0 <= i < |ids| && 0 <= j < |ids| && ids[i] == ids[j] ==> i == j
  }

  lemma CanonicalIds(cases: seq<Case>)
    ensures UniqueIds(cases) ==> Distinct(Ids(cases))
    ensures forall k :: 0 <= k < |cases| ==> Ids(cases)[k] != ""
  {
    forall k | 0 <= k < |cases| ensures Ids(cases)[k] != "" { IdsNotEmpty(cases[k]); }
  }

  lemma IdsNotEmpty(c: Case)
    ensures CaseId(c) != ""
  {}

  // ---------------------------------------------------------------- corpus and index

  lemma ContentsFields(base: Object, summary: Json, digest: Json, cases: Json, manifest: Json)
    requires base.Keys !! {"summary", "digest", "cases", "manifest"}
    ensures var r := WithContents(base, summary, digest, cases, manifest);
      && (forall field :: field in base ==> Get(r, field) == base[field])
      && Get(r, "summary") == summary && Get(r, "digest") == digest && Get(r, "cases") == cases && Get(r, "manifest") == manifest
  {}

  lemma IdentityKeys(corpus: Corpus)
    ensures Identity(corpus).Keys !! {"summary", "digest", "cases", "manifest"}
  {}

  lemma EntryIds(corpus: Corpus, c: Case)
    ensures IndexEntry(corpus, c).Obj? && CaseNamed(IndexEntry(corpus, c), CaseId(c)) && ShapedCase(IndexEntry(corpus, c), false)
  {
    IdsNotEmpty(c);
  }

  lemma EntriesCover(corpus: Corpus)
    requires UniqueIds(corpus.cases) && corpus.cases != []
    ensures Covers(Arr(IndexEntries(corpus, corpus.cases)), false, Ids(corpus.cases))
  {
    var entries := IndexEntries(corpus, corpus.cases);
    forall k | 0 <= k < |entries| ensures CaseNamed(entries[k], Ids(corpus.cases)[k]) && ShapedCase(entries[k], false) {
      EntryIds(corpus, corpus.cases[k]);
    }
    CanonicalIds(corpus.cases);
    ListCovers(entries, Ids(corpus.cases), false);
  }

  lemma FreshSummaryOk(corpus: Corpus)
    ensures IndexSummaryOk(corpus, IndexSummary(corpus))
  {
    PyEqReflexive(Obj(CategoryCounts(corpus.cases)));
  }

  lemma FreshIdentity(corpus: Corpus, index: Object)
    requires forall field :: field in Identity(corpus) ==> Get(index, field) == Identity(corpus)[field]
    ensures IdentityMatches(corpus, index)
  {
    forall field | field in Identity(corpus) ensures PyEq(Get(index, field), Identity(corpus)[field]) {
      PyEqReflexive(Identity(corpus)[field]);
    }
  }

  /** A freshly made index is accepted. */
  lemma FreshIndexOk(env: Env, corpus: Corpus)
    requires UniqueIds(corpus.cases) && corpus.cases != []
    ensures IndexOk(env, corpus, MakeIndex(env, corpus))
  {
    var index := MakeIndex(env, corpus);
    IdentityKeys(corpus);
    ContentsFields(Identity(corpus), IndexSummary(corpus), CorpusDigest(env, corpus),
      Arr(IndexEntries(corpus, corpus.cases)), ManifestJson(corpus));
    FreshIdentity(corpus, index);
    PyEqReflexive(CorpusDigest(env, corpus));
    PyEqReflexive(ManifestJson(corpus));
    PyEqReflexive(Arr(IndexEntries(corpus, corpus.cases)));
    EntriesCover(corpus);
    FreshSummaryOk(corpus);
  }

  // ---------------------------------------------------------------- one entry of the report

  lemma StringsNonEmpty(codes: seq<string>)
    requires forall k :: 0 <= k < |codes| ==> codes[k] != ""
    ensures NonEmptyStrings(Strings(codes))
  {}

  lemma {:induction false} CodesAreTexts(raw: seq<Json>)
    ensures NonEmptyStrings(Strings(CodesOf(raw)))
    ensures forall k :: 0 <= k < |CodesOf(raw)| ==> CodesOf(raw)[k] != ""
  {
    if raw != [] { CodesAreTexts(raw[1..]); }
    StringsNonEmpty(CodesOf(raw));
  }

  lemma ModeIsSupported(result: Object, default: string)
    requires default in MODES
    ensures ModeOf(result, default).0 in MODES
  {}

  /** What the reading of any case looks like, whatever was submitted. */
  lemma ReadingShape(env: Env, default: string, rs: seq<Json>, id: string)
    requires default in MODES
    ensures var n := CaseOf(env, default, rs, id);
      n.caseId == id && n.mode in MODES && n.outcome != "" && NonEmptyStrings(Strings(n.codes))
  {
    var k := LastFor(rs, id);
    if k >= 0 {
      ModeIsSupported(rs[k].fields, default);
      var codes := GetOr(rs[k].fields, "reason_codes", Arr([]));
      CodesAreTexts(if codes.Arr? then codes.items else []);
    }
  }

  lemma ExpectedTexts(c: Case)
    ensures ExpectedOutcome(c) != "" && Category(c) != "" && NonEmptyStrings(Strings(ExpectedCodes(c)))
  {
    assert ExpectedOutcome(c) in DECISIONS + EXECUTION_OUTCOMES;
  }

  lemma {:induction false} PrimaryIsText(codes: seq<string>)
    requires NonEmptyStrings(Strings(codes))
    ensures NullOr(OptStr(Primary(codes)), NonEmptyStr(OptStr(Primary(codes))))
  {
    if codes != [] && codes[0] in TERMINAL_REASON_CODES {
      forall k | 0 <= k < |codes[1..]| ensures NonEmptyStr(Strings(codes[1..]).items[k]) {
        assert Strings(codes).items[k + 1] == Str(codes[k + 1]);
      }
      PrimaryIsText(codes[1..]);
    } else if codes != [] {
      assert Strings(codes).items[0] == Str(codes[0]);
    }
  }

  predicate FitsReport(n: NormCase) {
    n.mode in MODES && n.outcome != "" && NonEmptyStrings(Strings(n.codes))
  }

  /** The fields of an entry, one by one. */
  predicate HasFields(o: Object, id: Json, category: Json, mode: Json, expected: Decision, actual: Decision,
                      pass: Json, failures: Json) {
    && Get(o, "case_id") == id && Get(o, "category") == category && Get(o, "artifact_mode") == mode
    && Get(o, "expected_outcome") == expected.outcome && Get(o, "actual_outcome") == actual.outcome
    && Get(o, "expected_should_execute") == expected.shouldExecute
    && Get(o, "actual_should_execute") == actual.shouldExecute && "actual_should_execute" in o
    && Get(o, "expected_primary_reason_code") == expected.primary && "expected_primary_reason_code" in o
    && Get(o, "actual_primary_reason_code") == actual.primary && "actual_primary_reason_code" in o
    && Get(o, "expected_reason_codes") == expected.codes && Get(o, "actual_reason_codes") == actual.codes
    && Get(o, "pass") == pass && Get(o, "failures") == failures
  }

  predicate Describes(o: Object, c: Case, n: NormCase, failures: seq<string>) {
    HasFields(o, Str(CaseId(c)), Str(Category(c)), Str(n.mode), ExpectedDecision(c), ActualDecision(n),
      Bool(failures == []), Strings(failures))
  }

  lemma CaseMapFields(id: Json, category: Json, mode: Json, expected: Decision, actual: Decision, pass: Json, failures: Json)
    ensures HasFields(CaseMap(id, category, mode, expected, actual, pass, failures), id, category, mode, expected, actual, pass, failures)
  {}

  lemma FieldsDescribe(c: Case, n: NormCase, failures: seq<string>)
    ensures Describes(CaseFields(c, n, failures), c, n, failures)
  {
    CaseMapFields(Str(CaseId(c)), Str(Category(c)), Str(n.mode), ExpectedDecision(c), ActualDecision(n),
      Bool(failures == []), Strings(failures));
  }

  lemma FieldsContract(o: Object, c: Case, n: NormCase, failures: seq<string>)
    requires Describes(o, c, n, failures) && FitsReport(n) && NonEmptyStrings(Strings(failures))
    ensures ConformanceCaseContract(Obj(o))
  {
    ExpectedTexts(c);
    IdsNotEmpty(c);
    PrimaryIsText(ExpectedCodes(c));
    PrimaryIsText(n.codes);
  }

  lemma TextsOfStrings(codes: seq<string>)
    ensures Texts(Strings(codes).items) == codes
  {
    var items := Strings(codes).items;
    forall k | 0 <= k < |codes| ensures Texts(items)[k] == codes[k] {
      assert items[k] == Str(codes[k]);
    }
  }

  lemma PrimaryOfStrings(codes: seq<string>)
    requires NonEmptyStrings(Strings(codes))
    ensures PrimaryOf(Strings(codes)) == OptStr(Primary(codes))
  {
    TextsOfStrings(codes);
  }

  /** An entry that passed is consistent because its decision is canonical. */
  lemma FieldsConsistent(o: Object, c: Case, n: NormCase, failures: seq<string>)
    requires Describes(o, c, n, failures) && FitsReport(n) && (failures == [] ==> DecisionMatches(c, n))
    ensures CaseConsistent(Obj(o))
  {
    ExpectedTexts(c);
    PrimaryOfStrings(ExpectedCodes(c));
    PrimaryOfStrings(n.codes);
    PyEqReflexive(Strings(ExpectedCodes(c)));
    assert |Strings(failures).items| == |failures|;
  }

  lemma FieldsExpected(o: Object, c: Case, n: NormCase, failures: seq<string>)
    requires Describes(o, c, n, failures)
    ensures MatchesExpectation(o, c)
  {
    PyEqReflexive(Strings(ExpectedCodes(c)));
  }

  lemma StateGivesFailure(n: NormCase, failures: seq<string>)
    requires CaseMessages(n, failures)
    ensures n.stateFailure.Some? ==> failures != []
  {}

  lemma FieldsProject(o: Object, c: Case, n: NormCase, failures: seq<string>)
    requires Describes(o, c, n, failures) && CaseMessages(n, failures)
    ensures EntryProjects(o, n)
  {
    PyEqReflexive(Strings(n.codes));
    TextsOfStrings(failures);
    StateGivesFailure(n, failures);
  }

  lemma ResultContract(o: Object)
    requires CaseEntryContract(o)
    ensures ImplementationCaseContract(Obj(CaseResult(o)))
  {}

  // ---------------------------------------------------------------- the counts of a report

  predicate Verdicts(items: seq<Json>, fs: seq<seq<string>>) {
    |items| == |fs| && forall k :: 0 <= k < |items| ==> Verdict(items[k], fs[k] == [])
  }

  predicate Verdict(j: Json, passed: bool) {
    j.Obj? && Get(j.fields, "pass") == Bool(passed)
  }

  lemma {:induction false} VerdictCounts(items: seq<Json>, fs: seq<seq<string>>)
    requires Verdicts(items, fs)
    ensures CountPass(items, true) == |fs| - FailedCount(fs) && CountPass(items, false) == FailedCount(fs)
  {
    if items != [] {
      var n := |items| - 1;
      VerdictCounts(items[..n], fs[..n]);
      assert Verdict(items[n], fs[n] == []);
    }
  }

  lemma SummaryHolds(items: seq<Json>, fs: seq<seq<string>>, skipped: nat)
    requires Verdicts(items, fs) && skipped <= FailedCount(fs)
    ensures SummaryOk(Summary(fs, skipped), Arr(items))
  {
    VerdictCounts(items, fs);
  }

  /** A skipped case has failed. */
  predicate SkippedFails(n: NormCase, failures: seq<string>) {
    IsSkipped(n.result) ==> failures != []
  }

  lemma {:induction false} SkippedBelowFailed(ns: seq<NormCase>, fs: seq<seq<string>>)
    requires |ns| == |fs| && forall i :: 0 <= i < |ns| ==> SkippedFails(ns[i], fs[i])
    ensures CountSkipped(ns) <= FailedCount(fs)
  {
    if ns != [] {
      var k := |ns| - 1;
      SkippedBelowFailed(ns[..k], fs[..k]);
      assert SkippedFails(ns[k], fs[k]);
    }
  }

  predicate ModeListed(j: Json, n: NormCase) {
    j.Obj? && Get(j.fields, "artifact_mode") == Str(n.mode) && n.mode in MODES
  }

  lemma ModesDiffer()
    ensures CORPUS_MODE != GENERATED_MODE
  {
    assert CORPUS_MODE[0] != GENERATED_MODE[0];
  }

  lemma {:induction false} ModesCounted(items: seq<Json>, ns: seq<NormCase>)
    requires |items| == |ns| && forall k :: 0 <= k < |items| ==> ModeListed(items[k], ns[k])
    ensures CountModes(ns) == Counts(CountMode(items, CORPUS_MODE), CountMode(items, GENERATED_MODE))
  {
    if items != [] {
      var n := |items| - 1;
      ModesCounted(items[..n], ns[..n]);
      assert ModeListed(items[n], ns[n]);
      ModesDiffer();
    }
  }

  lemma CountsFit(counts: Counts)
    ensures CountsContract(CountsJson(counts))
  {
    ModesDiffer();
  }

  // ---------------------------------------------------------------- an honest report

  /** A comparison without fatal errors. */
  ghost predicate Compared(env: Env, ck: Checkers, corpus: Corpus, sut: Object, ns: seq<NormCase>, fs: seq<seq<string>>) {
    && NothingFatal(env, corpus, Some(Obj(sut)))
    && |ns| == |corpus.cases| == |fs|
    && NormalizedFor(env, corpus, sut, ns)
    && AllReported(ck, corpus.cases, ns, fs)
  }

  /** What is known of entry `i`, whatever the submission says. */
  ghost predicate EntryKnown(item: Json, c: Case, n: NormCase, failures: seq<string>) {
    && item.Obj? && Describes(item.fields, c, n, failures) && n.caseId == CaseId(c) && FitsReport(n)
    && CaseMessages(n, failures) && (failures == [] ==> DecisionMatches(c, n)) && SkippedFails(n, failures)
  }

  lemma EntriesKnown(env: Env, ck: Checkers, corpus: Corpus, sut: Object, ns: seq<NormCase>, fs: seq<seq<string>>, i: nat)
    requires Compared(env, ck, corpus, sut, ns, fs) && i < |ns|
    ensures EntryKnown(CaseList(corpus.cases, ns, fs)[i], corpus.cases[i], ns[i], fs[i])
  {
    var c, n, failures := corpus.cases[i], ns[i], fs[i];
    FieldsDescribe(c, n, failures);
    ReadingShape(env, DefaultMode(sut), Results(sut), CaseId(c));
    SkippedState(env, DefaultMode(sut), Results(sut), CaseId(c));
    assert CaseReported(ck, c, n, failures);
    StateGivesFailure(n, failures);
  }

  /** All entries of the case list of a report. */
  ghost predicate ListKnown(items: seq<Json>, cases: seq<Case>, ns: seq<NormCase>, fs: seq<seq<string>>) {
    |items| == |cases| == |ns| == |fs| &&
    forall i :: 0 <= i < |items| ==> EntryKnown(items[i], cases[i], ns[i], fs[i])
  }

  lemma KnownSummary(items: seq<Json>, cases: seq<Case>, ns: seq<NormCase>, fs: seq<seq<string>>)
    requires ListKnown(items, cases, ns, fs)
    ensures SummaryOk(Summary(fs, CountSkipped(ns)), Arr(items))
  {
    forall i | 0 <= i < |items| ensures Verdict(items[i], fs[i] == []) && SkippedFails(ns[i], fs[i]) {
      assert EntryKnown(items[i], cases[i], ns[i], fs[i]);
    }
    SkippedBelowFailed(ns, fs);
    SummaryHolds(items, fs, CountSkipped(ns));
  }

  lemma KnownModes(items: seq<Json>, cases: seq<Case>, ns: seq<NormCase>, fs: seq<seq<string>>)
    requires ListKnown(items, cases, ns, fs)
    ensures EntryCounts(Arr(items)) == CountsJson(CountModes(ns))
  {
    forall i | 0 <= i < |items| ensures ModeListed(items[i], ns[i]) {
      assert EntryKnown(items[i], cases[i], ns[i], fs[i]);
    }
    ModesCounted(items, ns);
  }

  lemma KnownCover(items: seq<Json>, cases: seq<Case>, ns: seq<NormCase>, fs: seq<seq<string>>)
    requires ListKnown(items, cases, ns, fs) && UniqueIds(cases) && cases != []
    ensures Covers(Arr(items), true, Ids(cases))
  {
    CanonicalIds(cases);
    forall k | 0 <= k < |items| ensures CaseNamed(items[k], Ids(cases)[k]) && ShapedCase(items[k], true) {
      assert EntryKnown(items[k], cases[k], ns[k], fs[k]);
    }
    ListCovers(items, Ids(cases), true);
  }

  lemma KnownContract(items: seq<Json>, cases: seq<Case>, ns: seq<NormCase>, fs: seq<seq<string>>)
    requires ListKnown(items, cases, ns, fs)
    ensures AllCases(Arr(items), true)
  {
    forall k | 0 <= k < |items| ensures ConformanceCaseContract(items[k]) {
      assert EntryKnown(items[k], cases[k], ns[k], fs[k]);
      StringsNonEmpty(fs[k]);
      FieldsContract(items[k].fields, cases[k], ns[k], fs[k]);
    }
  }

  lemma KnownConsistent(items: seq<Json>, cases: seq<Case>, ns: seq<NormCase>, fs: seq<seq<string>>)
    requires ListKnown(items, cases, ns, fs)
    ensures AllConsistent(Arr(items))
  {
    forall k | 0 <= k < |items| ensures CaseConsistent(items[k]) {
      assert EntryKnown(items[k], cases[k], ns[k], fs[k]);
      FieldsConsistent(items[k].fields, cases[k], ns[k], fs[k]);
    }
  }

  lemma KnownExpected(items: seq<Json>, cases: seq<Case>, ns: seq<NormCase>, fs: seq<seq<string>>)
    requires ListKnown(items, cases, ns, fs) && UniqueIds(cases)
    ensures ExpectationsOk(Arr(items), cases)
  {
    forall k | 0 <= k < |items| ensures EntryExpected(items[k], cases) {
      assert EntryKnown(items[k], cases[k], ns[k], fs[k]);
      UniqueCaseWithId(cases, k);
      FieldsExpected(items[k].fields, cases[k], ns[k], fs[k]);
    }
  }

  lemma {:induction false} FirstEntry(items: seq<Json>, ids: seq<string>, k: nat)
    requires Lists(items, ids) && Distinct(ids) && k < |items|
    ensures EntryFor(items, ids[k]) == Some(items[k].fields)
  {
    assert CaseNamed(items[0], ids[0]) && CaseNamed(items[k], ids[k]);
    if k > 0 {
      FirstEntry(items[1..], ids[1..], k - 1);
    }
  }

  lemma KnownProjection(items: seq<Json>, cases: seq<Case>, ns: seq<NormCase>, fs: seq<seq<string>>)
    requires ListKnown(items, cases, ns, fs) && UniqueIds(cases)
    ensures ProjectionOk(ns, Arr(items))
  {
    CanonicalIds(cases);
    forall k | 0 <= k < |items| ensures CaseNamed(items[k], Ids(cases)[k]) {
      assert EntryKnown(items[k], cases[k], ns[k], fs[k]);
    }
    forall k | 0 <= k < |ns| ensures CaseProjects(items, ns[k]) {
      assert EntryKnown(items[k], cases[k], ns[k], fs[k]);
      FirstEntry(items, Ids(cases), k);
      FieldsProject(items[k].fields, cases[k], ns[k], fs[k]);
    }
  }

  // ---------------------------------------------------------------- the two reports

  /** The fields of a conformance report, one by one. */
  predicate Reports(conf: Object, env: Env, corpus: Corpus, sut: Object, items: seq<Json>, ns: seq<NormCase>,
                    fs: seq<seq<string>>, checkedAt: string, sutPath: Name) {
    && Get(conf, "version") == Str(CONFORMANCE_REPORT_VERSION) && Get(conf, "profile") == Str(PROFILE)
    && Get(conf, "checked_at") == Str(checkedAt) && "fatal_errors" !in conf
    && Get(conf, "summary") == Summary(fs, CountSkipped(ns)) && Get(conf, "corpus") == Obj(CorpusBlock(env, corpus))
    && Get(conf, "sut_results") == Obj(SutBlock(env, sut, CountModes(ns), sutPath)) && Get(conf, "cases") == Arr(items)
  }

  lemma ReportMapFields(checkedAt: Json, summary: Json, corpus: Json, sut: Json, cases: Json)
    ensures var r := ReportMap(checkedAt, summary, corpus, sut, cases);
      && Get(r, "version") == Str(CONFORMANCE_REPORT_VERSION) && Get(r, "profile") == Str(PROFILE)
      && Get(r, "checked_at") == checkedAt && Get(r, "summary") == summary && Get(r, "corpus") == corpus
      && Get(r, "sut_results") == sut && Get(r, "cases") == cases && "fatal_errors" !in r
  {}

  lemma ReportFieldsReport(env: Env, corpus: Corpus, sut: Object, ns: seq<NormCase>, fs: seq<seq<string>>,
                           checkedAt: string, sutPath: Name)
    requires |ns| == |corpus.cases| == |fs|
    ensures Reports(ReportFields(env, corpus, sut, ns, fs, checkedAt, sutPath), env, corpus, sut,
                    CaseList(corpus.cases, ns, fs), ns, fs, checkedAt, sutPath)
  {
    ReportMapFields(Str(checkedAt), Summary(fs, CountSkipped(ns)), Obj(CorpusBlock(env, corpus)),
      Obj(SutBlock(env, sut, CountModes(ns), sutPath)), Arr(CaseList(corpus.cases, ns, fs)));
  }

  lemma DigestFits(env: Env, value: Json)
    ensures DigestContract(DigestDescriptor(env, value))
  {}

  lemma CorpusBlockFits(env: Env, corpus: Corpus)
    ensures CorpusBlockContract(Obj(CorpusBlock(env, corpus)), false) <==> corpus.name != ""
  {
    DigestFits(env, ManifestJson(corpus));
  }

  lemma SutBlockFits(env: Env, sut: Object, counts: Counts, sutPath: Name)
    ensures SutBlockContract(Obj(SutBlock(env, sut, counts, sutPath)))
  {
    DigestFits(env, Obj(sut));
    CountsFit(counts);
  }

  lemma ReportContract(conf: Object, env: Env, corpus: Corpus, sut: Object, items: seq<Json>,
                       ns: seq<NormCase>, fs: seq<seq<string>>, checkedAt: string, sutPath: Name)
    requires Reports(conf, env, corpus, sut, items, ns, fs, checkedAt, sutPath)
    requires ListKnown(items, corpus.cases, ns, fs)
    ensures ConformanceContract(env, conf) <==> corpus.name != "" && env.parseTime(checkedAt).Some?
  {
    KnownContract(items, corpus.cases, ns, fs);
    KnownSummary(items, corpus.cases, ns, fs);
    CorpusBlockFits(env, corpus);
    SutBlockFits(env, sut, CountModes(ns), sutPath);
  }

  lemma ReportCases(conf: Object, env: Env, corpus: Corpus, sut: Object, items: seq<Json>,
                    ns: seq<NormCase>, fs: seq<seq<string>>, checkedAt: string, sutPath: Name)
    requires Reports(conf, env, corpus, sut, items, ns, fs, checkedAt, sutPath)
    requires ListKnown(items, corpus.cases, ns, fs) && UniqueIds(corpus.cases) && corpus.cases != []
    ensures ConformanceCasesOk(corpus, conf)
  {
    KnownCover(items, corpus.cases, ns, fs);
    KnownExpected(items, corpus.cases, ns, fs);
    KnownConsistent(items, corpus.cases, ns, fs);
    KnownSummary(items, corpus.cases, ns, fs);
  }

  lemma CorpusBlockOk(env: Env, corpus: Corpus)
    ensures ConformanceCorpusOk(env, corpus, Obj(CorpusBlock(env, corpus)))
  {
    PyEqReflexive(CorpusDigest(env, corpus));
  }

  lemma BlockDescribes(env: Env, sut: Object, ns: seq<NormCase>, sutPath: Name)
    requires Get(sut, "implementation").Obj?
    ensures DescribesSubmission(env, sut, ns, Obj(SutBlock(env, sut, CountModes(ns), sutPath)))
  {
    PyEqReflexive(DigestDescriptor(env, Obj(sut)));
    PyEqReflexive(Get(sut, "implementation"));
    PyEqReflexive(CountsJson(CountModes(ns)));
  }

  lemma SubmissionFits(env: Env, corpus: Corpus, sut: Object)
    requires NothingFatal(env, corpus, Some(Obj(sut)))
    ensures SubmissionOk(env, corpus, sut) && DefaultModeOk(sut) && Get(sut, "implementation").Obj?
  {}

  lemma AgreementOpen(env: Env, ck: Checkers, corpus: Corpus, conf: Object, sut: Object, ns: seq<NormCase>)
    requires ns == NormalizedCases(env, sut, Ids(corpus.cases))
    requires SubmissionOk(env, corpus, sut) && DescribesSubmission(env, sut, ns, Get(conf, "sut_results"))
    requires ProjectionOk(ns, Get(conf, "cases")) && DefaultModeOk(sut) && SkippedOk(conf, CountSkipped(ns))
    ensures AgreesWithSubmission(env, ck, corpus, conf, sut) <==> AllGeneratedOk(ck, corpus.cases, ns)
  {}

  lemma SkippedReported(conf: Object, fs: seq<seq<string>>, skipped: nat)
    requires Get(conf, "summary") == Summary(fs, skipped)
    ensures SkippedOk(conf, skipped)
  {}

  /** The conformance report agrees with its submission up to the artifact
      modes and generated receipts, which the comparison does not make fatal.  */
  lemma ReportAgrees(conf: Object, env: Env, ck: Checkers, corpus: Corpus, sut: Object, items: seq<Json>,
                     ns: seq<NormCase>, fs: seq<seq<string>>, checkedAt: string, sutPath: Name)
    requires Reports(conf, env, corpus, sut, items, ns, fs, checkedAt, sutPath)
    requires ListKnown(items, corpus.cases, ns, fs) && UniqueIds(corpus.cases)
    requires NothingFatal(env, corpus, Some(Obj(sut))) && NormalizedFor(env, corpus, sut, ns)
    ensures AgreesWithSubmission(env, ck, corpus, conf, sut) <==> AllGeneratedOk(ck, corpus.cases, ns)
  {
    SubmissionFits(env, corpus, sut);
    BlockDescribes(env, sut, ns, sutPath);
    KnownProjection(items, corpus.cases, ns, fs);
    SkippedReported(conf, fs, CountSkipped(ns));
    AgreementOpen(env, ck, corpus, conf, sut, ns);
  }

  // ---------------------------------------------------------------- the implementation report

  /** The fields of an implementation report, one by one. */
  predicate Holds(r: Object, generatedAt: Json, status: Json, implementation: Json, corpus: Json, link: Json,
                  summary: Json, results: Json) {
    && Get(r, "version") == Str(IMPLEMENTATION_REPORT_VERSION) && Get(r, "profile") == Str(PROFILE)
    && Get(r, "generated_at") == generatedAt && Get(r, "status") == status && Get(r, "implementation") == implementation
    && Get(r, "corpus") == corpus && Get(r, "conformance_report") == link && Get(r, "summary") == summary
    && Get(r, "case_results") == results && Get(r, "limitations") == Strings(LIMITATIONS) && "limitations" in r
  }

  lemma ImplementationMapFields(generatedAt: Json, status: Json, implementation: Json, corpus: Json, link: Json,
                                summary: Json, results: Json)
    ensures Holds(ImplementationMap(generatedAt, status, implementation, corpus, link, summary, results),
                  generatedAt, status, implementation, corpus, link, summary, results)
  {}

  predicate Makes(impl: Object, env: Env, corpus: Corpus, args: Arguments, conf: Object, items: seq<Json>, counts: Counts)
    requires forall k :: 0 <= k < |items| ==> items[k].Obj?
  {
    && Holds(impl, Get(conf, "checked_at"), Str(ReportStatus(conf)), Obj(ImplementationOf(args, conf)),
         Obj(MadeCorpus(env, corpus, conf)), Obj(MadeLink(env, args, conf)), Get(conf, "summary"), Arr(CaseResults(items)))
    && Get(impl, "artifact_mode_counts") == CountsJson(counts)
  }

  ghost predicate SameExcept(a: Object, b: Object, key: string) {
    forall other :: other != key ==> Get(a, other) == Get(b, other) && (other in a <==> other in b)
  }

  /** An optional field does not touch any other. */
  lemma OptionalFields(base: Object, key: string, value: Option<Json>)
    ensures SameExcept(WithSome(base, key, value), base, key)
  {}

  const OPTIONAL_FIELDS := {"artifact_mode_counts", "publication", "proofs"}

  lemma StillHolds(a: Object, b: Object, key: string, generatedAt: Json, status: Json, implementation: Json, corpus: Json,
                   link: Json, summary: Json, results: Json)
    requires Holds(a, generatedAt, status, implementation, corpus, link, summary, results)
    requires SameExcept(b, a, key) && key in OPTIONAL_FIELDS
    ensures Holds(b, generatedAt, status, implementation, corpus, link, summary, results)
  {}

  lemma Completed(body: Object, counts: Json, args: Arguments, generatedAt: Json, status: Json, implementation: Json,
                  corpus: Json, link: Json, summary: Json, results: Json)
    requires Holds(body, generatedAt, status, implementation, corpus, link, summary, results)
    ensures var r := WithSome(WithSome(WithSome(body, "artifact_mode_counts", Some(counts)), "publication", args.publication),
                       "proofs", args.proofs);
      && Holds(r, generatedAt, status, implementation, corpus, link, summary, results)
      && Get(r, "artifact_mode_counts") == counts
  {
    var counted := WithSome(body, "artifact_mode_counts", Some(counts));
    var published := WithSome(counted, "publication", args.publication);
    var proved := WithSome(published, "proofs", args.proofs);
    OptionalFields(body, "artifact_mode_counts", Some(counts));
    OptionalFields(counted, "publication", args.publication);
    OptionalFields(published, "proofs", args.proofs);
    StillHolds(body, counted, "artifact_mode_counts", generatedAt, status, implementation, corpus, link, summary, results);
    StillHolds(counted, published, "publication", generatedAt, status, implementation, corpus, link, summary, results);
    StillHolds(published, proved, "proofs", generatedAt, status, implementation, corpus, link, summary, results);
  }

  lemma CountsOf(env: Env, sut: Object, counts: Counts, sutPath: Name, conf: Object)
    requires Get(conf, "sut_results") == Obj(SutBlock(env, sut, counts, sutPath))
    ensures ModeCounts(conf) == Some(CountsJson(counts))
  {}

  lemma MadeReport(env: Env, corpus: Corpus, args: Arguments, conf: Object, items: seq<Json>, counts: Counts)
    requires Get(conf, "cases") == Arr(items) && forall k :: 0 <= k < |items| ==> items[k].Obj?
    requires ModeCounts(conf) == Some(CountsJson(counts))
    ensures Makes(MakeImplementationReport(env, corpus, args, conf), env, corpus, args, conf, items, counts)
  {
    var body := ReportBody(env, corpus, args, conf);
    ImplementationMapFields(Get(conf, "checked_at"), Str(ReportStatus(conf)), Obj(ImplementationOf(args, conf)),
      Obj(MadeCorpus(env, corpus, conf)), Obj(MadeLink(env, args, conf)), Get(conf, "summary"), Arr(CaseResults(items)));
    Completed(body, CountsJson(counts), args, Get(conf, "checked_at"), Str(ReportStatus(conf)), Obj(ImplementationOf(args, conf)),
      Obj(MadeCorpus(env, corpus, conf)), Obj(MadeLink(env, args, conf)), Get(conf, "summary"), Arr(CaseResults(items)));
  }

  lemma MetadataFits(source: Object)
    ensures IdentityContract(Obj(Metadata(source)))
  {}

  lemma MadeCorpusFits(env: Env, corpus: Corpus, conf: Object)
    requires NonNegInt(SummaryTotal(conf))
    ensures CorpusBlockContract(Obj(MadeCorpus(env, corpus, conf)), true) <==> corpus.name != ""
  {
    DigestFits(env, ManifestJson(corpus));
    var items := ManifestItems(corpus.manifest);
    forall k | 0 <= k < |items| ensures ManifestItemContract(items[k]) {
      assert items[k] == ManifestItem(corpus.manifest[k]);
    }
  }

  lemma MadeLinkFits(env: Env, args: Arguments, conf: Object)
    ensures LinkContract(Obj(MadeLink(env, args, conf))) && LinkOk(env, Obj(conf), Obj(MadeLink(env, args, conf)))
  {
    DigestFits(env, Obj(conf));
    PyEqReflexive(DigestDescriptor(env, Obj(conf)));
  }

  lemma MadeCorpusOk(env: Env, corpus: Corpus, conf: Object)
    requires SummaryTotal(conf) == Int(|corpus.cases|)
    ensures ImplementationCorpusOk(env, corpus, Obj(MadeCorpus(env, corpus, conf)))
  {
    PyEqReflexive(CorpusDigest(env, corpus));
    PyEqReflexive(ManifestJson(corpus));
  }

  lemma ResultsFit(items: seq<Json>, cases: seq<Case>, ns: seq<NormCase>, fs: seq<seq<string>>)
    requires ListKnown(items, cases, ns, fs)
    requires forall k :: 0 <= k < |items| ==> items[k].Obj?
    ensures AllCases(Arr(CaseResults(items)), false) && SummaryOk(Summary(fs, CountSkipped(ns)), Arr(CaseResults(items)))
  {
    var results := CaseResults(items);
    KnownContract(items, cases, ns, fs);
    forall k | 0 <= k < |results|
      ensures ImplementationCaseContract(results[k]) && Verdict(results[k], fs[k] == []) && SkippedFails(ns[k], fs[k])
    {
      assert EntryKnown(items[k], cases[k], ns[k], fs[k]);
      assert ConformanceCaseContract(items[k]);
      ResultContract(items[k].fields);
      BundleSoundness.ResultFields(items[k].fields);
    }
    SkippedBelowFailed(ns, fs);
    SummaryHolds(results, fs, CountSkipped(ns));
  }

  lemma ResultsCover(items: seq<Json>, cases: seq<Case>, ns: seq<NormCase>, fs: seq<seq<string>>)
    requires ListKnown(items, cases, ns, fs) && UniqueIds(cases) && cases != []
    requires forall k :: 0 <= k < |items| ==> items[k].Obj?
    ensures Covers(Arr(CaseResults(items)), true, Ids(cases))
  {
    var results := CaseResults(items);
    CanonicalIds(cases);
    forall k | 0 <= k < |results| ensures CaseNamed(results[k], Ids(cases)[k]) && ShapedCase(results[k], true) {
      assert EntryKnown(items[k], cases[k], ns[k], fs[k]);
      BundleSoundness.ResultFields(items[k].fields);
    }
    ListCovers(results, Ids(cases), true);
  }

  lemma StatusSupported(conf: Object)
    ensures ReportStatus(conf) in STATUSES
  {
    BundleSoundness.PartialIsUnreachable(Get(conf, "summary"));
  }

  lemma SummaryTotals(conf: Object, fs: seq<seq<string>>, skipped: nat)
    requires Get(conf, "summary") == Summary(fs, skipped)
    ensures SummaryTotal(conf) == Int(|fs|)
  {}

  lemma SubmissionNames(env: Env, sut: Object, counts: Counts, sutPath: Name, args: Arguments, conf: Object)
    requires Get(conf, "sut_results") == Obj(SutBlock(env, sut, counts, sutPath))
    ensures ImplementationOf(args, conf) == Metadata(Implementation(sut))
  {}

  lemma LimitationsFit()
    ensures NonEmptyStrings(Strings(LIMITATIONS))
  {}

  lemma ContractParts(env: Env, r: Object, generatedAt: Json, status: Json, implementation: Json, corpus: Json,
                      link: Json, summary: Json, results: Json)
    requires Holds(r, generatedAt, status, implementation, corpus, link, summary, results)
    requires TimeOf(env, generatedAt).Some? && StrIn(status, STATUSES) && IdentityContract(implementation)
    requires LinkContract(link) && AllCases(results, false) && SummaryOk(summary, results)
    requires CountsContract(Get(r, "artifact_mode_counts"))
    ensures ImplementationContract(env, r) <==> CorpusBlockContract(corpus, true)
  {
    LimitationsFit();
  }

  lemma MadeContract(impl: Object, conf: Object, env: Env, corpus: Corpus, sut: Object, args: Arguments,
                     items: seq<Json>, ns: seq<NormCase>, fs: seq<seq<string>>, checkedAt: string, sutPath: Name)
    requires Reports(conf, env, corpus, sut, items, ns, fs, checkedAt, sutPath)
    requires ListKnown(items, corpus.cases, ns, fs) && env.parseTime(checkedAt).Some?
    requires forall k :: 0 <= k < |items| ==> items[k].Obj?
    requires Makes(impl, env, corpus, args, conf, items, CountModes(ns))
    ensures ImplementationContract(env, impl) <==> corpus.name != ""
  {
    StatusSupported(conf);
    SubmissionNames(env, sut, CountModes(ns), sutPath, args, conf);
    MetadataFits(Implementation(sut));
    SummaryTotals(conf, fs, CountSkipped(ns));
    MadeCorpusFits(env, corpus, conf);
    MadeLinkFits(env, args, conf);
    ResultsFit(items, corpus.cases, ns, fs);
    CountsFit(CountModes(ns));
    ContractParts(env, impl, Get(conf, "checked_at"), Str(ReportStatus(conf)), Obj(ImplementationOf(args, conf)),
      Obj(MadeCorpus(env, corpus, conf)), Obj(MadeLink(env, args, conf)), Get(conf, "summary"), Arr(CaseResults(items)));
  }

  lemma ResultsMatched(conf: Object, impl: Object, items: seq<Json>)
    requires Get(conf, "cases") == Arr(items) && forall k :: 0 <= k < |items| ==> items[k].Obj?
    requires Get(impl, "case_results") == Arr(CaseResults(items))
    ensures ResultsMatch(conf, impl)
  {
    PyEqReflexive(Arr(CaseResults(items)));
  }

  lemma RepeatsParts(corpus: Corpus, conf: Object, impl: Object)
    requires Covers(Get(impl, "case_results"), true, Ids(corpus.cases)) && PyEq(Get(impl, "summary"), Get(conf, "summary"))
    requires Get(impl, "status") == Str(ReportStatus(conf)) && ResultsMatch(conf, impl)
    ensures RepeatsConformance(corpus, conf, impl)
  {}

  lemma SameSummary(conf: Object, impl: Object)
    requires Get(impl, "summary") == Get(conf, "summary")
    ensures PyEq(Get(impl, "summary"), Get(conf, "summary"))
  {
    PyEqReflexive(Get(conf, "summary"));
  }

  lemma CountsParts(env: Env, sut: Object, conf: Object, impl: Object, counts: Counts, sutPath: Name)
    requires Get(conf, "sut_results") == Obj(SutBlock(env, sut, counts, sutPath))
    requires EntryCounts(Get(conf, "cases")) == CountsJson(counts) && Get(impl, "artifact_mode_counts") == CountsJson(counts)
    ensures ModeCountsOk(conf, impl)
  {
    PyEqReflexive(CountsJson(counts));
  }

  lemma MadeRepeats(impl: Object, conf: Object, env: Env, corpus: Corpus, sut: Object, args: Arguments,
                    items: seq<Json>, ns: seq<NormCase>, fs: seq<seq<string>>, checkedAt: string, sutPath: Name)
    requires Reports(conf, env, corpus, sut, items, ns, fs, checkedAt, sutPath)
    requires ListKnown(items, corpus.cases, ns, fs) && UniqueIds(corpus.cases) && corpus.cases != []
    requires forall k :: 0 <= k < |items| ==> items[k].Obj?
    requires Makes(impl, env, corpus, args, conf, items, CountModes(ns))
    ensures RepeatsConformance(corpus, conf, impl) && ModeCountsOk(conf, impl)
  {
    ResultsCover(items, corpus.cases, ns, fs);
    ResultsMatched(conf, impl, items);
    SameSummary(conf, impl);
    RepeatsParts(corpus, conf, impl);
    KnownModes(items, corpus.cases, ns, fs);
    CountsParts(env, sut, conf, impl, CountModes(ns), sutPath);
  }

  // ---------------------------------------------------------------- closure

  /** A report on a submission that is fit for comparison: the fields of the
      report, and entries of which everything is known but the reasons for a
      failed case.  */
  ghost predicate Written(env: Env, corpus: Corpus, sut: Object, conf: Object, items: seq<Json>, ns: seq<NormCase>,
                          fs: seq<seq<string>>, checkedAt: string, sutPath: Name) {
    && NothingFatal(env, corpus, Some(Obj(sut))) && NormalizedFor(env, corpus, sut, ns)
    && Reports(conf, env, corpus, sut, items, ns, fs, checkedAt, sutPath)
    && ListKnown(items, corpus.cases, ns, fs)
  }

  lemma ComparedIsWritten(env: Env, ck: Checkers, corpus: Corpus, sut: Object, ns: seq<NormCase>, fs: seq<seq<string>>,
                          checkedAt: string, sutPath: Name)
    requires Compared(env, ck, corpus, sut, ns, fs)
    ensures Written(env, corpus, sut, ReportFields(env, corpus, sut, ns, fs, checkedAt, sutPath),
                    CaseList(corpus.cases, ns, fs), ns, fs, checkedAt, sutPath)
  {
    ReportFieldsReport(env, corpus, sut, ns, fs, checkedAt, sutPath);
    forall i | 0 <= i < |ns| ensures EntryKnown(CaseList(corpus.cases, ns, fs)[i], corpus.cases[i], ns[i], fs[i]) {
      EntriesKnown(env, ck, corpus, sut, ns, fs, i);
    }
  }

  lemma ReportKnown(env: Env, ck: Checkers, corpus: Corpus, submitted: Option<Json>, checkedAt: string, sutPath: Name,
                    conf: Object, ns: seq<NormCase>, fs: seq<seq<string>>)
    requires IsReport(env, ck, corpus, submitted, checkedAt, sutPath, conf, ns, fs, [])
    ensures var sut := SubmittedObject(submitted);
      submitted == Some(Obj(sut)) && Written(env, corpus, sut, conf, CaseList(corpus.cases, ns, fs), ns, fs, checkedAt, sutPath)
  {
    ComparedIsWritten(env, ck, corpus, SubmittedObject(submitted), ns, fs, checkedAt, sutPath);
  }

  lemma UsableCorpus(env: Env, corpus: Corpus, submitted: Option<Json>)
    requires NothingFatal(env, corpus, submitted)
    ensures UniqueIds(corpus.cases) && corpus.cases != []
    ensures CorpusOk(corpus) <==> corpus.hasCasesDirectory
  {
    PairingGivesUniqueIds(corpus.cases);
  }

  /** A conformance report can be turned into an implementation report. */
  predicate HasCases(conf: Object) {
    Get(conf, "cases").Arr? && forall k :: 0 <= k < |Get(conf, "cases").items| ==> Get(conf, "cases").items[k].Obj?
  }

  /** The files an honest run leaves behind, with a fresh index. */
  function HonestBundle(env: Env, corpus: Corpus, args: Arguments, conf: Object, submitted: Option<Json>): Bundle
    requires HasCases(conf)
  {
    Bundle(Some(Obj(MakeIndex(env, corpus))), Some(Obj(conf)),
      Some(Obj(MakeImplementationReport(env, corpus, args, conf))), Given(submitted))
  }

  /** The conditions the comparison does not decide: a directory, a root with a
      name, a clock that prints valid times, and no artifact-mode, stray or
      generated-receipt failure.  */
  predicate Presentable(env: Env, ck: Checkers, corpus: Corpus, checkedAt: string, ns: seq<NormCase>) {
    && corpus.hasCasesDirectory && corpus.name != "" && env.parseTime(checkedAt).Some?
    && AllGeneratedOk(ck, corpus.cases, ns)
  }

  /** The conformance side of an honest bundle. */
  lemma ConformanceSide(env: Env, ck: Checkers, corpus: Corpus, sut: Object, conf: Object, items: seq<Json>, ns: seq<NormCase>,
                        fs: seq<seq<string>>, checkedAt: string, sutPath: Name)
    requires Written(env, corpus, sut, conf, items, ns, fs, checkedAt, sutPath)
    ensures ConformanceOk(env, corpus, conf) <==> corpus.name != "" && env.parseTime(checkedAt).Some?
    ensures AgreesWithSubmission(env, ck, corpus, conf, sut) <==> AllGeneratedOk(ck, corpus.cases, ns)
  {
    UsableCorpus(env, corpus, Some(Obj(sut)));
    ReportContract(conf, env, corpus, sut, items, ns, fs, checkedAt, sutPath);
    ReportCases(conf, env, corpus, sut, items, ns, fs, checkedAt, sutPath);
    CorpusBlockOk(env, corpus);
    ReportAgrees(conf, env, ck, corpus, sut, items, ns, fs, checkedAt, sutPath);
  }

  lemma MadeBlocks(impl: Object, conf: Object, env: Env, corpus: Corpus, args: Arguments, items: seq<Json>,
                   fs: seq<seq<string>>, skipped: nat, counts: Counts)
    requires (forall k :: 0 <= k < |items| ==> items[k].Obj?) && Makes(impl, env, corpus, args, conf, items, counts)
    requires Get(conf, "summary") == Summary(fs, skipped) && |fs| == |corpus.cases|
    ensures ImplementationCorpusOk(env, corpus, Get(impl, "corpus")) && LinkOk(env, Obj(conf), Get(impl, "conformance_report"))
  {
    SummaryTotals(conf, fs, skipped);
    MadeCorpusOk(env, corpus, conf);
    MadeLinkFits(env, args, conf);
  }

  /** The implementation side of an honest bundle. */
  lemma ImplementationSide(env: Env, corpus: Corpus, sut: Object, args: Arguments, conf: Object, items: seq<Json>,
                           ns: seq<NormCase>, fs: seq<seq<string>>, checkedAt: string, sutPath: Name)
    requires Written(env, corpus, sut, conf, items, ns, fs, checkedAt, sutPath)
    requires env.parseTime(checkedAt).Some? && HasCases(conf)
    ensures ImplementationOk(env, corpus, Obj(conf), conf, MakeImplementationReport(env, corpus, args, conf)) <==> corpus.name != ""
  {
    var impl := MakeImplementationReport(env, corpus, args, conf);
    UsableCorpus(env, corpus, Some(Obj(sut)));
    CountsOf(env, sut, CountModes(ns), sutPath, conf);
    MadeReport(env, corpus, args, conf, items, CountModes(ns));
    MadeContract(impl, conf, env, corpus, sut, args, items, ns, fs, checkedAt, sutPath);
    MadeBlocks(impl, conf, env, corpus, args, items, fs, CountSkipped(ns), CountModes(ns));
    MadeRepeats(impl, conf, env, corpus, sut, args, items, ns, fs, checkedAt, sutPath);
  }

  lemma KnownHasCases(conf: Object, items: seq<Json>, cases: seq<Case>, ns: seq<NormCase>, fs: seq<seq<string>>)
    requires Get(conf, "cases") == Arr(items) && ListKnown(items, cases, ns, fs)
    ensures HasCases(conf)
  {
    forall k | 0 <= k < |items| ensures items[k].Obj? { assert EntryKnown(items[k], cases[k], ns[k], fs[k]); }
  }

  /** What an honest bundle amounts to: its parts, verified one by one. */
  lemma BundleParts(env: Env, ck: Checkers, corpus: Corpus, args: Arguments, conf: Object, sut: Object)
    requires HasCases(conf)
    ensures var impl := MakeImplementationReport(env, corpus, args, conf);
      BundleOk(env, ck, corpus, HonestBundle(env, corpus, args, conf, Some(Obj(sut)))) <==>
        && CorpusOk(corpus) && IndexOk(env, corpus, MakeIndex(env, corpus)) && ConformanceOk(env, corpus, conf)
        && ImplementationOk(env, corpus, Obj(conf), conf, impl) && AgreesWithSubmission(env, ck, corpus, conf, sut)
  {
    var index, impl := MakeIndex(env, corpus), MakeImplementationReport(env, corpus, args, conf);
    FilesRead(index, conf, impl, sut);
    PartsOf(env, ck, corpus, HonestBundle(env, corpus, args, conf, Some(Obj(sut))), index, conf, impl, sut);
  }

  /** A bundle whose files hold these objects. */
  predicate Holding(b: Bundle, index: Object, conf: Object, impl: Object, sut: Object) {
    && AllObjects(b) && AsObject(b.index) == index && AsObject(b.conformance) == conf && AsObject(b.implementation) == impl
    && Raw(b.conformance) == Obj(conf)
    && b.submission.Given? && IsObject(b.submission.json) && AsObject(b.submission.json) == sut
  }

  lemma FilesRead(index: Object, conf: Object, impl: Object, sut: Object)
    ensures Holding(Bundle(Some(Obj(index)), Some(Obj(conf)), Some(Obj(impl)), Given(Some(Obj(sut)))), index, conf, impl, sut)
  {}

  lemma PartsOf(env: Env, ck: Checkers, corpus: Corpus, b: Bundle, index: Object, conf: Object, impl: Object, sut: Object)
    requires Holding(b, index, conf, impl, sut)
    ensures BundleOk(env, ck, corpus, b) <==>
      && CorpusOk(corpus) && IndexOk(env, corpus, index) && ConformanceOk(env, corpus, conf)
      && ImplementationOk(env, corpus, Obj(conf), conf, impl) && AgreesWithSubmission(env, ck, corpus, conf, sut)
  {}

  /** The bundle of a written report passes exactly when it is presentable. */
  lemma WrittenPasses(env: Env, ck: Checkers, corpus: Corpus, sut: Object, args: Arguments, conf: Object, items: seq<Json>,
                      ns: seq<NormCase>, fs: seq<seq<string>>, checkedAt: string, sutPath: Name)
    requires Written(env, corpus, sut, conf, items, ns, fs, checkedAt, sutPath)
    ensures HasCases(conf)
    ensures BundleOk(env, ck, corpus, HonestBundle(env, corpus, args, conf, Some(Obj(sut)))) <==>
      Presentable(env, ck, corpus, checkedAt, ns)
  {
    KnownHasCases(conf, items, corpus.cases, ns, fs);
    BundleParts(env, ck, corpus, args, conf, sut);
    UsableCorpus(env, corpus, Some(Obj(sut)));
    FreshIndexOk(env, corpus);
    ConformanceSide(env, ck, corpus, sut, conf, items, ns, fs, checkedAt, sutPath);
    if env.parseTime(checkedAt).Some? {
      ImplementationSide(env, corpus, sut, args, conf, items, ns, fs, checkedAt, sutPath);
    }
  }

  /** Whatever was submitted and however many cases failed, the bundle of a
      comparison without fatal errors passes exactly when it is presentable.  */
  lemma Closure(env: Env, ck: Checkers, corpus: Corpus, submitted: Option<Json>, args: Arguments, checkedAt: string,
                sutPath: Name, conf: Object, ns: seq<NormCase>, fs: seq<seq<string>>)
    requires IsReport(env, ck, corpus, submitted, checkedAt, sutPath, conf, ns, fs, [])
    ensures HasCases(conf)
    ensures BundleOk(env, ck, corpus, HonestBundle(env, corpus, args, conf, submitted)) <==>
      Presentable(env, ck, corpus, checkedAt, ns)
  {
    ReportKnown(env, ck, corpus, submitted, checkedAt, sutPath, conf, ns, fs);
    WrittenPasses(env, ck, corpus, SubmittedObject(submitted), args, conf, CaseList(corpus.cases, ns, fs), ns, fs, checkedAt, sutPath);
  }

  lemma {:induction false} NoneFailed(fs: seq<seq<string>>)
    ensures FailedCount(fs) == 0 <==> forall i :: 0 <= i < |fs| ==> fs[i] == []
  {
    if fs != [] {
      NoneFailed(fs[..|fs| - 1]);
    }
  }

  lemma VerdictsAreHonest(ck: Checkers, cases: seq<Case>, ns: seq<NormCase>, fs: seq<seq<string>>)
    requires |ns| == |fs| && AllReported(ck, cases, ns, fs)
    ensures FailedCount(fs) == 0 <==> forall i :: 0 <= i < |ns| ==> CasePasses(ck, cases[i], ns[i])
  {
    NoneFailed(fs);
    if forall i :: 0 <= i < |ns| ==> CasePasses(ck, cases[i], ns[i]) {
      forall i | 0 <= i < |fs| ensures fs[i] == [] { assert CaseReported(ck, cases[i], ns[i], fs[i]); }
    }
    if FailedCount(fs) == 0 {
      forall i | 0 <= i < |ns| ensures CasePasses(ck, cases[i], ns[i]) { assert CaseReported(ck, cases[i], ns[i], fs[i]); }
    }
  }

  lemma SkipsHaveFailed(items: seq<Json>, cases: seq<Case>, ns: seq<NormCase>, fs: seq<seq<string>>)
    requires ListKnown(items, cases, ns, fs)
    ensures CountSkipped(ns) <= FailedCount(fs)
  {
    forall i | 0 <= i < |ns| ensures SkippedFails(ns[i], fs[i]) { assert EntryKnown(items[i], cases[i], ns[i], fs[i]); }
    SkippedBelowFailed(ns, fs);
  }

  /** The reported status is `pass` exactly when every case passes. */
  lemma StatusIsVerdict(env: Env, ck: Checkers, corpus: Corpus, submitted: Option<Json>, checkedAt: string, sutPath: Name,
                        conf: Object, ns: seq<NormCase>, fs: seq<seq<string>>)
    requires IsReport(env, ck, corpus, submitted, checkedAt, sutPath, conf, ns, fs, [])
    ensures ReportStatus(conf) == "pass" <==> forall i :: 0 <= i < |ns| ==> CasePasses(ck, corpus.cases[i], ns[i])
  {
    ReportKnown(env, ck, corpus, submitted, checkedAt, sutPath, conf, ns, fs);
    SkipsHaveFailed(CaseList(corpus.cases, ns, fs), corpus.cases, ns, fs);
    StatusOfSummary(conf, fs, CountSkipped(ns));
    VerdictsAreHonest(ck, corpus.cases, ns, fs);
  }

  lemma StatusOfSummary(conf: Object, fs: seq<seq<string>>, skipped: nat)
    requires Get(conf, "summary") == Summary(fs, skipped) && "fatal_errors" !in conf && skipped <= FailedCount(fs) && fs != []
    ensures ReportStatus(conf) == "pass" <==> FailedCount(fs) == 0
  {}
}

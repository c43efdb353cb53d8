/** What a passing bundle implies about the submission it was built from. */
module BundleSoundness {
  import opened Json
  import opened Oracles
  import opened Corpora
  import opened Normalize
  import opened Compare
  import opened ReportContracts
  import opened Bundle

  /** Entry `k` of the result set is the only one for this case. */
  ghost predicate OnlyResult(rs: seq<Json>, id: string, k: int) {
    0 <= k < |rs| && IsFor(rs[k], id) && forall j :: 0 <= j < |rs| && IsFor(rs[j], id) ==> j == k
  }

  function SubmittedCodes(result: Object): seq<string> {
    var codes := GetOr(result, "reason_codes", Arr([]));
    if codes.Arr? then CodesOf(codes.items) else []
  }

  /** A result was completed and says what the corpus expects. */
  predicate Meets(result: Object, c: Case) {
    && Get(result, "status") == Str("completed")
    && Get(result, "outcome") == Str(ExpectedOutcome(c))
    && Get(result, "should_execute") == Bool(ExpectedShouldExecute(c))
    && SubmittedCodes(result) == ExpectedCodes(c)
  }

  /** Exactly one result was submitted for the case, and it meets it. */
  ghost predicate Vindicated(sut: Object, c: Case) {
    exists k :: OnlyResult(Results(sut), CaseId(c), k) && Meets(Results(sut)[k].fields, c)
  }

  lemma LastIsOnly(rs: seq<Json>, id: string)
    requires NoRepeats(rs) && LastFor(rs, id) >= 0
    ensures OnlyResult(rs, id, LastFor(rs, id))
  {
    var k := LastFor(rs, id);
    forall j | 0 <= j < |rs| && IsFor(rs[j], id) ensures j == k {
      assert SameId(rs[j], rs[k]);
    }
  }

  lemma CompletedState(env: Env, result: Object)
    ensures StateOf(env, result).None? <==> Get(result, "status") == Str("completed")
  {
    assert "skipped" != "completed";
  }

  /** Reading a result gives the canonical decision exactly when it meets it. */
  lemma ReadingMeets(env: Env, default: string, result: Object, index: nat, c: Case)
    ensures var n := ReadResult(env, default, result, index, CaseId(c));
      n.stateFailure.None? && DecisionMatches(c, n) <==> Meets(result, c)
  {
    CompletedState(env, result);
    NeverMissing(c);
  }

  lemma NeverMissing(c: Case)
    ensures ExpectedOutcome(c) != "missing" && ExpectedOutcome(c) != ""
  {
    assert ExpectedOutcome(c) in DECISIONS + EXECUTION_OUTCOMES;
  }

  lemma VindicatedByLast(sut: Object, c: Case)
    requires NoRepeats(Results(sut))
    ensures Vindicated(sut, c) <==>
      LastFor(Results(sut), CaseId(c)) >= 0 && Meets(Results(sut)[LastFor(Results(sut), CaseId(c))].fields, c)
  {
    if LastFor(Results(sut), CaseId(c)) >= 0 { LastIsOnly(Results(sut), CaseId(c)); }
  }

  /** The normalized reading of a case agrees with the corpus exactly when the
      submission vindicates the case.  */
  lemma AgreementIsVindication(env: Env, sut: Object, c: Case)
    requires NoRepeats(Results(sut))
    ensures var n := CaseOf(env, DefaultMode(sut), Results(sut), CaseId(c));
      n.stateFailure.None? && DecisionMatches(c, n) <==> Vindicated(sut, c)
  {
    var rs := Results(sut);
    var k := LastFor(rs, CaseId(c));
    VindicatedByLast(sut, c);
    if k >= 0 {
      ReadingMeets(env, DefaultMode(sut), rs[k].fields, k, c);
    }
  }

  /** An entry marked as passed carries the canonical decision. */
  lemma PassedEntryAgrees(o: Object, c: Case, n: NormCase)
    requires MatchesExpectation(o, c) && EntryProjects(o, n) && CaseConsistent(Obj(o)) && Get(o, "pass") == Bool(true)
    ensures n.stateFailure.None? && DecisionMatches(c, n)
  {
    SameOutcome(Get(o, "expected_outcome"), Get(o, "actual_outcome"), ExpectedOutcome(c), n.outcome);
    SameExecute(Get(o, "expected_should_execute"), Get(o, "actual_should_execute"), ExpectedShouldExecute(c), n.shouldExecute);
    PyEqStrings(ExpectedCodes(c), Get(o, "expected_reason_codes"));
    PyEqStrings(n.codes, Get(o, "actual_reason_codes"));
    PyEqStrings(ExpectedCodes(c), Strings(n.codes));
    StringsInjective(ExpectedCodes(c), n.codes);
  }

  lemma SameOutcome(expected: Json, actual: Json, a: string, b: string)
    requires PyEq(expected, Str(a)) && PyEq(actual, Str(b)) && PyEq(expected, actual)
    ensures a == b
  {}

  lemma SameExecute(expected: Json, actual: Json, a: bool, b: Option<bool>)
    requires PyEq(expected, Bool(a)) && PyEq(actual, OptBool(b)) && PyEq(expected, actual)
    ensures b == Some(a)
  {}

  lemma {:induction false} EntryIsFirst(cases: seq<Json>, k: nat)
    requires k < |cases| && DistinctCaseIds(cases) && NonEmptyStr(IdOf(cases[k]))
    ensures EntryFor(cases, IdOf(cases[k]).s) == Some(cases[k].fields)
  {
    if k == 0 {
    } else {
      assert !SameCase(cases[k], cases[0]);
      var rest := cases[1..];
      forall i, j | 0 <= i < |rest| && 0 <= j < |rest| && SameCase(rest[i], rest[j]) ensures i == j {
        assert SameCase(cases[i + 1], cases[j + 1]);
      }
      EntryIsFirst(rest, k - 1);
    }
  }

  lemma CoveredIsCanonical(cases: Json, ids: seq<string>, k: nat)
    requires Covers(cases, true, ids) && k < |cases.items|
    ensures IdOf(cases.items[k]).s in ids
  {
    var id := IdOf(cases.items[k]).s;
    assert ShapedCase(cases.items[k], true);
    assert CaseNamed(cases.items[k], id);
    CollectedMembers(cases.items, id);
    assert id in multiset(IdsIn(cases));
    assert id in multiset(ids);
  }

  lemma CanonicalIsCovered(cases: Json, ids: seq<string>, id: string) returns (k: nat)
    requires Covers(cases, true, ids) && id in ids
    ensures k < |cases.items| && CaseNamed(cases.items[k], id)
  {
    assert id in multiset(ids);
    assert id in multiset(IdsIn(cases));
    CollectedMembers(cases.items, id);
    k :| 0 <= k < |cases.items| && CaseNamed(cases.items[k], id);
  }

  /** The canonical case an entry of a report speaks about. */
  function CaseFor(corpus: Corpus, j: Json): Option<Case> {
    if NonEmptyStr(IdOf(j)) then CaseWithId(corpus.cases, IdOf(j).s) else None
  }

  /** The entry is marked as passed only if the submission earned it. */
  ghost predicate Earned(corpus: Corpus, sut: Object, j: Json) {
    HasVerdict(j, true) ==> CaseFor(corpus, j).Some? && Vindicated(sut, CaseFor(corpus, j).value)
  }

  lemma CaseAtId(corpus: Corpus, id: string) returns (i: nat)
    requires UniqueIds(corpus.cases) && id in Ids(corpus.cases)
    ensures i < |corpus.cases| && CaseId(corpus.cases[i]) == id && CaseWithId(corpus.cases, id) == Some(corpus.cases[i])
  {
    i :| 0 <= i < |corpus.cases| && Ids(corpus.cases)[i] == id;
    UniqueCaseWithId(corpus.cases, i);
  }

  /** One entry of a conformance report that agrees with a submission. */
  lemma EntryIsEarned(env: Env, ck: Checkers, corpus: Corpus, conf: Object, sut: Object, k: nat)
    requires UniqueIds(corpus.cases) && ConformanceCasesOk(corpus, conf) && AgreesWithSubmission(env, ck, corpus, conf, sut)
    requires k < |Get(conf, "cases").items|
    ensures Earned(corpus, sut, Get(conf, "cases").items[k])
  {
    var cases := Get(conf, "cases");
    var entry := cases.items[k];
    if HasVerdict(entry, true) {
      CoveredIsCanonical(cases, Ids(corpus.cases), k);
      assert ShapedCase(entry, true);
      var i := CaseAtId(corpus, IdOf(entry).s);
      EntryIsFirst(cases.items, k);
      var ns := NormalizedCases(env, sut, Ids(corpus.cases));
      assert CaseProjects(cases.items, ns[i]);
      NormalizedId(env, DefaultMode(sut), Results(sut), IdOf(entry).s);
      assert EntryExpected(entry, corpus.cases);
      assert CaseConsistent(entry) && entry == Obj(entry.fields);
      PassedEntryAgrees(entry.fields, corpus.cases[i], ns[i]);
      AgreementIsVindication(env, sut, corpus.cases[i]);
    }
  }

  lemma NormalizedId(env: Env, default: string, rs: seq<Json>, id: string)
    ensures CaseOf(env, default, rs, id).caseId == id
  {}

  // ---------------------------------------------------------------- counting

  ghost function PassedAt(cases: seq<Json>): set<nat> {
    set k: nat | k < |cases| && HasVerdict(cases[k], true)
  }

  lemma {:induction false} CountIsSize(cases: seq<Json>)
    ensures CountPass(cases, true) == |PassedAt(cases)|
  {
    if cases != [] {
      var n := |cases| - 1;
      CountIsSize(cases[..n]);
      assert PassedAt(cases) == PassedAt(cases[..n]) + (if HasVerdict(cases[n], true) then {n} else {});
    }
  }

  lemma {:induction false} FullCount(cases: seq<Json>, k: nat)
    requires CountPass(cases, true) == |cases| && k < |cases|
    ensures HasVerdict(cases[k], true)
  {
    var n := |cases| - 1;
    if k < n {
      FullCount(cases[..n], k);
    }
  }

  // ---------------------------------------------------------------- soundness

  function Cases(report: Object, field: string): seq<Json> {
    if Get(report, field).Arr? then Get(report, field).items else []
  }

  function Passed(report: Object): Json {
    if Get(report, "summary").Obj? then Get(Get(report, "summary").fields, "passed") else Null
  }

  /** Every case a passing bundle marks as passed has exactly one submitted
      result; that result is completed and equals the expectation of the corpus;
      and `summary.passed` is the number of those cases.  */
  lemma Soundness(env: Env, ck: Checkers, corpus: Corpus, b: Bundle)
    requires BundleOk(env, ck, corpus, b) && b.submission.Given?
    ensures var conf, sut := AsObject(b.conformance), AsObject(b.submission.json);
      && (forall k :: 0 <= k < |Cases(conf, "cases")| ==> Earned(corpus, sut, Cases(conf, "cases")[k]))
      && Passed(conf) == Int(|PassedAt(Cases(conf, "cases"))|)
  {
    var conf, sut := AsObject(b.conformance), AsObject(b.submission.json);
    forall k | 0 <= k < |Cases(conf, "cases")| ensures Earned(corpus, sut, Cases(conf, "cases")[k]) {
      EntryIsEarned(env, ck, corpus, conf, sut, k);
    }
    CountIsSize(Cases(conf, "cases"));
  }

  lemma FieldOf(a: Object, b: Object, key: string)
    requires PyEq(Obj(a), Obj(b)) && key in b
    ensures key in a && PyEq(a[key], b[key])
  {}

  lemma ResultFields(o: Object)
    ensures "case_id" in CaseResult(o) && CaseResult(o)["case_id"] == Get(o, "case_id")
    ensures "pass" in CaseResult(o) && CaseResult(o)["pass"] == Get(o, "pass")
  {}

  /** An entry of the implementation report says what its origin says. */
  lemma RepeatedVerdict(result: Json, o: Object)
    requires PyEq(result, Obj(CaseResult(o))) && result.Obj? && Get(result.fields, "pass").Bool?
    requires Get(o, "case_id").Str? && Get(o, "pass").Bool?
    ensures IdOf(result) == Get(o, "case_id")
    ensures HasVerdict(result, true) <==> Get(o, "pass") == Bool(true)
  {
    ResultFields(o);
    FieldOf(result.fields, CaseResult(o), "case_id");
    FieldOf(result.fields, CaseResult(o), "pass");
  }

  lemma ContractShapes(cases: Json, conformance: bool, k: nat)
    requires AllCases(cases, conformance) && k < |cases.items|
    ensures cases.items[k].Obj? && NonEmptyStr(IdOf(cases.items[k])) && Get(cases.items[k].fields, "pass").Bool?
  {}

  lemma ItemOf(xs: seq<Json>, ys: seq<Json>, k: nat)
    requires PyEq(Arr(xs), Arr(ys)) && k < |xs|
    ensures |xs| == |ys| && PyEq(xs[k], ys[k])
  {}

  lemma ResultOrigin(cases: Json, results: Json, k: nat)
    requires AllCases(cases, true) && AllCases(results, false)
    requires (forall j :: 0 <= j < |cases.items| ==> cases.items[j].Obj?) && PyEq(results, Arr(CaseResults(cases.items)))
    requires k < |results.items|
    ensures k < |cases.items| && IdOf(results.items[k]) == IdOf(cases.items[k])
    ensures HasVerdict(results.items[k], true) <==> HasVerdict(cases.items[k], true)
  {
    var projected := CaseResults(cases.items);
    ItemOf(results.items, projected, k);
    ContractShapes(cases, true, k);
    ContractShapes(results, false, k);
    var o := cases.items[k].fields;
    assert projected[k] == Obj(CaseResult(o));
    RepeatedVerdict(results.items[k], o);
  }

  lemma ReportsShaped(env: Env, conf: Object, impl: Object)
    requires ConformanceContract(env, conf) && ImplementationContract(env, impl)
    ensures AllCases(Get(conf, "cases"), true) && AllCases(Get(impl, "case_results"), false)
  {}

  lemma ResultIsEarned(env: Env, ck: Checkers, corpus: Corpus, conf: Object, impl: Object, sut: Object, k: nat)
    requires UniqueIds(corpus.cases) && ConformanceCasesOk(corpus, conf) && AgreesWithSubmission(env, ck, corpus, conf, sut)
    requires AllCases(Get(conf, "cases"), true) && AllCases(Get(impl, "case_results"), false) && ResultsMatch(conf, impl)
    requires k < |Get(impl, "case_results").items|
    ensures Earned(corpus, sut, Get(impl, "case_results").items[k])
  {
    ResultOrigin(Get(conf, "cases"), Get(impl, "case_results"), k);
    EntryIsEarned(env, ck, corpus, conf, sut, k);
  }

  /** The same holds of the implementation report. */
  lemma ImplementationSoundness(env: Env, ck: Checkers, corpus: Corpus, b: Bundle)
    requires BundleOk(env, ck, corpus, b) && b.submission.Given?
    ensures var impl, sut := AsObject(b.implementation), AsObject(b.submission.json);
      && (forall k :: 0 <= k < |Cases(impl, "case_results")| ==> Earned(corpus, sut, Cases(impl, "case_results")[k]))
      && Passed(impl) == Int(|PassedAt(Cases(impl, "case_results"))|)
  {
    var conf, impl, sut := AsObject(b.conformance), AsObject(b.implementation), AsObject(b.submission.json);
    var results := Get(impl, "case_results");
    ReportsShaped(env, conf, impl);
    forall k | 0 <= k < |results.items| ensures Earned(corpus, sut, results.items[k]) {
      ResultIsEarned(env, ck, corpus, conf, impl, sut, k);
    }
    CountIsSize(results.items);
  }

  /** A report whose status is `pass` describes a submission that answers every
      case of the corpus as expected.  */
  lemma EveryCase(env: Env, ck: Checkers, corpus: Corpus, conf: Object, sut: Object, i: nat)
    requires UniqueIds(corpus.cases) && ConformanceCasesOk(corpus, conf) && AgreesWithSubmission(env, ck, corpus, conf, sut)
    requires ReportStatus(conf) == "pass" && i < |corpus.cases|
    ensures Vindicated(sut, corpus.cases[i])
  {
    var cases := Get(conf, "cases");
    PassedAll(conf);
    assert Ids(corpus.cases)[i] == CaseId(corpus.cases[i]);
    var k := CanonicalIsCovered(cases, Ids(corpus.cases), CaseId(corpus.cases[i]));
    FullCount(cases.items, k);
    EntryIsEarned(env, ck, corpus, conf, sut, k);
    UniqueCaseWithId(corpus.cases, i);
  }

  lemma PassedAll(conf: Object)
    requires ReportStatus(conf) == "pass" && SummaryOk(Get(conf, "summary"), Get(conf, "cases"))
    ensures CountPass(Get(conf, "cases").items, true) == |Get(conf, "cases").items|
  {}

  lemma StatusRepeated(corpus: Corpus, conf: Object, impl: Object, status: string)
    requires RepeatsConformance(corpus, conf, impl) && Get(impl, "status") == Str(status)
    ensures ReportStatus(conf) == status
  {}

  /** A passing bundle whose implementation report claims `pass` comes from a
      submission that answers every case of the corpus as expected.  */
  lemma PassMeansEveryCase(env: Env, ck: Checkers, corpus: Corpus, b: Bundle)
    requires BundleOk(env, ck, corpus, b) && b.submission.Given?
    requires Get(AsObject(b.implementation), "status") == Str("pass")
    ensures forall i :: 0 <= i < |corpus.cases| ==> Vindicated(AsObject(b.submission.json), corpus.cases[i])
  {
    var conf, sut := AsObject(b.conformance), AsObject(b.submission.json);
    StatusRepeated(corpus, conf, AsObject(b.implementation), "pass");
    forall i | 0 <= i < |corpus.cases| ensures Vindicated(sut, corpus.cases[i]) {
      EveryCase(env, ck, corpus, conf, sut, i);
    }
  }

  /** `partial` is a status no summary can ever have: `skipped` is bounded by
      `failed`, and a failed case already makes the status `fail`.  */
  lemma PartialIsUnreachable(summary: Json)
    ensures SummaryStatus(summary) == "pass" || SummaryStatus(summary) == "fail"
  {}
}

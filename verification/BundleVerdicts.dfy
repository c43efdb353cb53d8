/** Which verdicts a passing bundle may carry for a given submission. */
module BundleVerdicts {
  import opened Json
  import opened Oracles
  import opened Corpora
  import opened Normalize
  import opened Compare
  import opened ReportContracts
  import opened Bundle
  import opened BundleSoundness
  import opened BundleClosure

  predicate MarkedAt(cases: seq<Json>, k: int, id: string) {
    0 <= k < |cases| && CaseNamed(cases[k], id) && HasVerdict(cases[k], true)
  }

  ghost predicate MarkedIn(cases: seq<Json>, id: string) {
    exists k :: MarkedAt(cases, k, id)
  }

  /** The conformance report of a bundle marks this case as passed. */
  ghost predicate Marked(b: Bundle, id: string) {
    MarkedIn(Cases(AsObject(b.conformance), "cases"), id)
  }

  /** It marks exactly the canonical cases at these positions. */
  ghost predicate MarksExactly(corpus: Corpus, b: Bundle, passed: set<nat>) {
    forall i: nat :: i < |corpus.cases| ==> (i in passed <==> Marked(b, CaseId(corpus.cases[i])))
  }

  ghost predicate CarriedBy(env: Env, ck: Checkers, corpus: Corpus, sut: Object, passed: set<nat>, b: Bundle) {
    BundleOk(env, ck, corpus, b) && b.submission == Given(Some(Obj(sut))) && MarksExactly(corpus, b, passed)
  }

  /** Some passing bundle with this submission marks exactly these cases. */
  ghost predicate Acceptable(env: Env, ck: Checkers, corpus: Corpus, sut: Object, passed: set<nat>) {
    exists b :: CarriedBy(env, ck, corpus, sut, passed, b)
  }

  ghost predicate AllVindicated(corpus: Corpus, sut: Object, passed: set<nat>) {
    forall i :: i in passed && i < |corpus.cases| ==> Vindicated(sut, corpus.cases[i])
  }

  ghost predicate AllEarned(corpus: Corpus, sut: Object, cases: seq<Json>) {
    forall k :: 0 <= k < |cases| ==> Earned(corpus, sut, cases[k])
  }

  /** A marked case was earned. */
  lemma MarkedIsVindicated(corpus: Corpus, sut: Object, cases: seq<Json>, i: nat)
    requires UniqueIds(corpus.cases) && AllEarned(corpus, sut, cases)
    requires i < |corpus.cases| && MarkedIn(cases, CaseId(corpus.cases[i]))
    ensures Vindicated(sut, corpus.cases[i])
  {
    var k :| MarkedAt(cases, k, CaseId(corpus.cases[i]));
    assert Earned(corpus, sut, cases[k]);
    UniqueCaseWithId(corpus.cases, i);
  }

  lemma MarksAreVindicated(corpus: Corpus, b: Bundle, sut: Object, passed: set<nat>)
    requires UniqueIds(corpus.cases) && MarksExactly(corpus, b, passed)
    requires AllEarned(corpus, sut, Cases(AsObject(b.conformance), "cases"))
    ensures AllVindicated(corpus, sut, passed)
  {
    forall i | i in passed && i < |corpus.cases| ensures Vindicated(sut, corpus.cases[i]) {
      MarkedIsVindicated(corpus, sut, Cases(AsObject(b.conformance), "cases"), i);
    }
  }

  /** Messages that record a case as failed, whatever was submitted for it. */
  function Refusal(n: NormCase): seq<string> {
    n.fieldFailures + ["refused"]
  }

  lemma RefusalReads(n: NormCase)
    requires CaseMessages(n, n.fieldFailures)
    ensures CaseMessages(n, Refusal(n))
  {
    assert "refused"[0] == 'r';
    PlainHasNoState(["refused"]);
    StatesConcat(n.fieldFailures, ["refused"]);
    assert StatesIn(n.fieldFailures) + [] == StatesIn(n.fieldFailures);
  }

  /** The messages of a report that marks exactly these cases. */
  function Messages(ns: seq<NormCase>, passed: set<nat>): (fs: seq<seq<string>>)
    ensures |fs| == |ns| && forall i :: 0 <= i < |ns| ==> fs[i] == if i in passed then [] else Refusal(ns[i])
  {
    seq(|ns|, i requires 0 <= i < |ns| => if i in passed then [] else Refusal(ns[i]))
  }

  /** What is known of a reading, whatever was submitted. */
  lemma ReadingKnown(env: Env, default: string, rs: seq<Json>, id: string)
    requires default in MODES
    ensures var n := CaseOf(env, default, rs, id);
      && n.caseId == id && FitsReport(n) && CaseMessages(n, n.fieldFailures)
      && (IsSkipped(n.result) ==> n.stateFailure.Some?)
  {
    ReadingShape(env, default, rs, id);
    SkippedState(env, default, rs, id);
    FieldFailuresState(env, default, rs, id);
  }

  lemma ReadingAt(env: Env, corpus: Corpus, sut: Object, ns: seq<NormCase>, i: nat)
    requires NormalizedFor(env, corpus, sut, ns) && i < |ns|
    ensures |ns| == |corpus.cases| && ns[i] == CaseOf(env, DefaultMode(sut), Results(sut), CaseId(corpus.cases[i]))
  {}

  lemma SubmissionShape(env: Env, corpus: Corpus, sut: Object)
    requires NothingFatal(env, corpus, Some(Obj(sut)))
    ensures NoRepeats(Results(sut)) && DefaultMode(sut) in MODES
  {}

  lemma ClaimMessages(c: Case, n: NormCase, failures: seq<string>)
    requires CaseMessages(n, n.fieldFailures) && (IsSkipped(n.result) ==> n.stateFailure.Some?)
    requires if failures == [] then n.stateFailure.None? && DecisionMatches(c, n) else failures == Refusal(n)
    ensures CaseMessages(n, failures) && SkippedFails(n, failures)
  {
    RefusalReads(n);
  }

  ghost predicate Claims(cases: seq<Case>, ns: seq<NormCase>, fs: seq<seq<string>>, i: nat)
    requires |cases| == |ns| == |fs| && i < |ns|
  {
    EntryKnown(Obj(CaseFields(cases[i], ns[i], fs[i])), cases[i], ns[i], fs[i])
  }

  /** An entry may claim what it likes, if a pass is earned. */
  lemma ClaimKnown(env: Env, sut: Object, cases: seq<Case>, ns: seq<NormCase>, fs: seq<seq<string>>, i: nat)
    requires |cases| == |ns| == |fs| && i < |ns| && NoRepeats(Results(sut)) && DefaultMode(sut) in MODES
    requires ns[i] == CaseOf(env, DefaultMode(sut), Results(sut), CaseId(cases[i]))
    requires if fs[i] == [] then Vindicated(sut, cases[i]) else fs[i] == Refusal(ns[i])
    ensures Claims(cases, ns, fs, i)
  {
    ReadingKnown(env, DefaultMode(sut), Results(sut), CaseId(cases[i]));
    AgreementIsVindication(env, sut, cases[i]);
    ClaimMessages(cases[i], ns[i], fs[i]);
    FieldsDescribe(cases[i], ns[i], fs[i]);
  }

  lemma ClaimsKnown(env: Env, corpus: Corpus, sut: Object, ns: seq<NormCase>, fs: seq<seq<string>>, passed: set<nat>)
    requires NoRepeats(Results(sut)) && DefaultMode(sut) in MODES && NormalizedFor(env, corpus, sut, ns)
    requires fs == Messages(ns, passed) && AllVindicated(corpus, sut, passed)
    ensures |corpus.cases| == |ns| == |fs| && forall i: nat :: i < |ns| ==> Claims(corpus.cases, ns, fs, i)
  {
    forall i: nat | i < |ns| ensures Claims(corpus.cases, ns, fs, i) {
      ReadingAt(env, corpus, sut, ns, i);
      ClaimKnown(env, sut, corpus.cases, ns, fs, i);
    }
  }

  lemma ListOfClaims(cases: seq<Case>, ns: seq<NormCase>, fs: seq<seq<string>>)
    requires |cases| == |ns| == |fs| && forall i: nat :: i < |ns| ==> Claims(cases, ns, fs, i)
    ensures ListKnown(CaseList(cases, ns, fs), cases, ns, fs)
  {
    var items := CaseList(cases, ns, fs);
    forall i | 0 <= i < |items| ensures EntryKnown(items[i], cases[i], ns[i], fs[i]) { assert Claims(cases, ns, fs, i); }
  }

  lemma EntryVerdict(item: Json, c: Case, n: NormCase, failures: seq<string>)
    requires EntryKnown(item, c, n, failures)
    ensures CaseNamed(item, CaseId(c)) && (HasVerdict(item, true) <==> failures == [])
  {
    IdsNotEmpty(c);
  }

  lemma MarksOfList(cases: seq<Case>, items: seq<Json>, ns: seq<NormCase>, fs: seq<seq<string>>, i: nat)
    requires UniqueIds(cases) && ListKnown(items, cases, ns, fs) && i < |cases|
    ensures MarkedIn(items, CaseId(cases[i])) <==> fs[i] == []
  {
    CanonicalIds(cases);
    assert EntryKnown(items[i], cases[i], ns[i], fs[i]);
    EntryVerdict(items[i], cases[i], ns[i], fs[i]);
    if fs[i] == [] { assert MarkedAt(items, i, CaseId(cases[i])); }
    if MarkedIn(items, CaseId(cases[i])) {
      var k :| MarkedAt(items, k, CaseId(cases[i]));
      assert EntryKnown(items[k], cases[k], ns[k], fs[k]);
      EntryVerdict(items[k], cases[k], ns[k], fs[k]);
      assert Ids(cases)[k] == Ids(cases)[i];
    }
  }

  lemma MarksOfReport(corpus: Corpus, b: Bundle, conf: Object, items: seq<Json>, ns: seq<NormCase>, passed: set<nat>)
    requires UniqueIds(corpus.cases) && ListKnown(items, corpus.cases, ns, Messages(ns, passed))
    requires AsObject(b.conformance) == conf && Get(conf, "cases") == Arr(items)
    ensures MarksExactly(corpus, b, passed)
  {
    forall i: nat | i < |corpus.cases| ensures i in passed <==> Marked(b, CaseId(corpus.cases[i])) {
      MarksOfList(corpus.cases, items, ns, Messages(ns, passed), i);
    }
  }

  /** A written report, as the conformance report of its honest bundle. */
  lemma CarriesMarks(env: Env, ck: Checkers, corpus: Corpus, sut: Object, args: Arguments, conf: Object, items: seq<Json>,
                     ns: seq<NormCase>, checkedAt: string, sutPath: Name, passed: set<nat>)
    requires Written(env, corpus, sut, conf, items, ns, Messages(ns, passed), checkedAt, sutPath)
    requires Presentable(env, ck, corpus, checkedAt, ns)
    ensures Acceptable(env, ck, corpus, sut, passed)
  {
    WrittenPasses(env, ck, corpus, sut, args, conf, items, ns, Messages(ns, passed), checkedAt, sutPath);
    var b := HonestBundle(env, corpus, args, conf, Some(Obj(sut)));
    FilesRead(MakeIndex(env, corpus), conf, MakeImplementationReport(env, corpus, args, conf), sut);
    UsableCorpus(env, corpus, Some(Obj(sut)));
    MarksOfReport(corpus, b, conf, items, ns, passed);
    assert CarriedBy(env, ck, corpus, sut, passed, b);
  }

  lemma EntriesAreEarned(env: Env, ck: Checkers, corpus: Corpus, b: Bundle)
    requires BundleOk(env, ck, corpus, b) && b.submission.Given?
    ensures UniqueIds(corpus.cases) && AllEarned(corpus, AsObject(b.submission.json), Cases(AsObject(b.conformance), "cases"))
  {
    Soundness(env, ck, corpus, b);
  }

  lemma AcceptableIsVindicated(env: Env, ck: Checkers, corpus: Corpus, sut: Object, passed: set<nat>)
    requires Acceptable(env, ck, corpus, sut, passed)
    ensures AllVindicated(corpus, sut, passed)
  {
    var b :| CarriedBy(env, ck, corpus, sut, passed, b);
    EntriesAreEarned(env, ck, corpus, b);
    MarksAreVindicated(corpus, b, sut, passed);
  }

  lemma VindicatedIsAcceptable(env: Env, ck: Checkers, corpus: Corpus, sut: Object, ns: seq<NormCase>, args: Arguments,
                               checkedAt: string, sutPath: Name, passed: set<nat>)
    requires NothingFatal(env, corpus, Some(Obj(sut))) && NormalizedFor(env, corpus, sut, ns)
    requires Presentable(env, ck, corpus, checkedAt, ns) && AllVindicated(corpus, sut, passed)
    ensures Acceptable(env, ck, corpus, sut, passed)
  {
    var fs := Messages(ns, passed);
    SubmissionShape(env, corpus, sut);
    ClaimsKnown(env, corpus, sut, ns, fs, passed);
    ListOfClaims(corpus.cases, ns, fs);
    ReportFieldsReport(env, corpus, sut, ns, fs, checkedAt, sutPath);
    CarriesMarks(env, ck, corpus, sut, args, ReportFields(env, corpus, sut, ns, fs, checkedAt, sutPath),
      CaseList(corpus.cases, ns, fs), ns, checkedAt, sutPath, passed);
  }

  /** For a submission fit for comparison and a presentable corpus, a set of
      cases can be marked as passed exactly when every one of them has a single
      result that meets the case.  Reported checks and input artifacts play no
      part in it: the verification does not look at them again.  */
  lemma AcceptableIffVindicated(env: Env, ck: Checkers, corpus: Corpus, sut: Object, ns: seq<NormCase>, args: Arguments,
                                checkedAt: string, sutPath: Name, passed: set<nat>)
    requires NothingFatal(env, corpus, Some(Obj(sut))) && NormalizedFor(env, corpus, sut, ns)
    requires Presentable(env, ck, corpus, checkedAt, ns)
    ensures Acceptable(env, ck, corpus, sut, passed) <==> AllVindicated(corpus, sut, passed)
  {
    if Acceptable(env, ck, corpus, sut, passed) { AcceptableIsVindicated(env, ck, corpus, sut, passed); }
    if AllVindicated(corpus, sut, passed) {
      VindicatedIsAcceptable(env, ck, corpus, sut, ns, args, checkedAt, sutPath, passed);
    }
  }

  predicate ArtifactsRefused(ck: Checkers, c: Case, n: NormCase) {
    n.result.Some? && ck.artifactTails(n.result.value, c) != []
  }

  lemma RefusedFails(ck: Checkers, c: Case, n: NormCase)
    requires ArtifactsRefused(ck, c, n)
    ensures !CasePasses(ck, c, n)
  {}

  lemma OneVindicated(corpus: Corpus, sut: Object, i: nat)
    requires i < |corpus.cases| && Vindicated(sut, corpus.cases[i])
    ensures AllVindicated(corpus, sut, {i})
  {}

  /** So a vindicated case whose artifacts the comparison refuses fails there
      and can still be marked as passed in a bundle that passes.  */
  lemma RefusedArtifactsCanBeMarked(env: Env, ck: Checkers, corpus: Corpus, sut: Object, ns: seq<NormCase>, args: Arguments,
                                    checkedAt: string, sutPath: Name, i: nat)
    requires NothingFatal(env, corpus, Some(Obj(sut))) && NormalizedFor(env, corpus, sut, ns)
    requires Presentable(env, ck, corpus, checkedAt, ns)
    requires i < |ns| == |corpus.cases| && Vindicated(sut, corpus.cases[i])
    requires ArtifactsRefused(ck, corpus.cases[i], ns[i])
    ensures !CasePasses(ck, corpus.cases[i], ns[i]) && Acceptable(env, ck, corpus, sut, {i})
  {
    RefusedFails(ck, corpus.cases[i], ns[i]);
    OneVindicated(corpus, sut, i);
    VindicatedIsAcceptable(env, ck, corpus, sut, ns, args, checkedAt, sutPath, {i});
  }
}

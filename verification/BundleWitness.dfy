/** The hypotheses of soundness and closure can be met: a corpus of one case, a
    submission that answers it, and the bundle they lead to.  */
module BundleWitness {
  import opened Json
  import opened Oracles
  import opened Corpora
  import opened Normalize
  import opened Compare
  import opened ReportContracts
  import opened Bundle
  import opened BundleClosure
  import BundleSoundness
  import Pairing
  import Artifacts

  const ZEROS: HexDigest := seq(64, _ => '0')

  const SURROUNDINGS := Env((_: Json) => ZEROS, (_: string) => Some(0), (_: real) => None, (_: Json) => "")

  const NO_FAILURES := Checkers((_: Object, _: Object) => [], (_: Object, _: Object) => [])

  const EXPECTED: Object := map[
    "should_execute" := Bool(false), "reason_codes" := Arr([]), "checks" := Arr([]), "admission_decision" := Str("deny")]

  const ONLY_CASE: Object := map[
    "case_id" := Str("c"), "category" := Str("negative"), "expected" := Obj(EXPECTED), "artifacts" := Obj(map[])]

  lemma ExpectedFields()
    ensures Get(EXPECTED, "should_execute") == Bool(false) && Get(EXPECTED, "reason_codes") == Arr([])
    ensures Get(EXPECTED, "checks") == Arr([]) && Get(EXPECTED, "admission_decision") == Str("deny")
  {}

  lemma CaseFieldsOf()
    ensures Get(ONLY_CASE, "case_id") == Str("c") && Get(ONLY_CASE, "category") == Str("negative")
    ensures Get(ONLY_CASE, "expected") == Obj(EXPECTED) && Get(ONLY_CASE, "artifacts") == Obj(map[])
    ensures Get(ONLY_CASE, "pairing") == Null && "sut_inputs" !in ONLY_CASE
  {}

  lemma IsCase()
    ensures Envelope(ONLY_CASE)
  {
    ExpectedFields();
    CaseFieldsOf();
  }

  function TheCase(): (c: Case)
    ensures c == ONLY_CASE
  {
    IsCase();
    ONLY_CASE
  }

  function TheCorpus(): Corpus {
    Corpus("corpus", "r", "s", "i", true, [TheCase()], [], [], [], (_: Object) => map[])
  }

  lemma CaseReading()
    ensures CaseId(TheCase()) == "c" && Category(TheCase()) == "negative" && ExpectedOutcome(TheCase()) == "deny"
    ensures ExpectedShouldExecute(TheCase()) == false && ExpectedCodes(TheCase()) == [] && RequiredChecks(TheCase()) == []
  {
    ExpectedFields();
    CaseFieldsOf();
    assert "negative" != "linkage";
  }

  lemma NoStatusArtifacts()
    ensures Artifacts.StatusArtifacts(ONLY_CASE) == {}
  {
    ExpectedFields();
    CaseFieldsOf();
  }

  lemma CorpusIsUsable()
    ensures CorpusUsable(TheCorpus())
  {
    CaseFieldsOf();
    NoStatusArtifacts();
    assert Artifacts.ContractOk(TheCase());
    var bodies := Bodies(TheCorpus().cases);
    assert |bodies| == 1 && bodies[0] == ONLY_CASE;
    assert !Pairing.Paired(bodies[0]);
    assert Pairing.PairingSound(bodies);
  }

  // ---------------------------------------------------------------- the submission

  const ANSWER: Object := map[
    "case_id" := Str("c"), "status" := Str("completed"), "outcome" := Str("deny"),
    "should_execute" := Bool(false), "reason_codes" := Arr([])]

  const MAKER: Object := map["name" := Str("n"), "type" := Str("t"), "version" := Str("v"), "language" := Str("l")]

  const SUBMITTED_CORPUS: Object := map["profile" := Str(PROFILE), "digest" := CorpusDigest(SURROUNDINGS, TheCorpus())]

  const SUBMISSION: Object := map[
    "version" := Str(SUT_RESULTS_VERSION), "profile" := Str(PROFILE), "generated_at" := Str("now"),
    "implementation" := Obj(MAKER), "corpus" := Obj(SUBMITTED_CORPUS), "results" := Arr([Obj(ANSWER)])]

  lemma AnswerFields()
    ensures Get(ANSWER, "case_id") == Str("c") && Get(ANSWER, "status") == Str("completed") && Get(ANSWER, "outcome") == Str("deny")
    ensures Get(ANSWER, "should_execute") == Bool(false) && GetOr(ANSWER, "reason_codes", Arr([])) == Arr([])
    ensures "artifact_mode" !in ANSWER && "generated_artifacts" !in ANSWER && "checks" !in ANSWER
  {}

  lemma SubmissionFields()
    ensures Get(SUBMISSION, "version") == Str(SUT_RESULTS_VERSION) && Get(SUBMISSION, "profile") == Str(PROFILE)
    ensures Get(SUBMISSION, "generated_at") == Str("now") && Get(SUBMISSION, "implementation") == Obj(MAKER)
    ensures GetOr(SUBMISSION, "corpus", Obj(map[])) == Obj(SUBMITTED_CORPUS) && Get(SUBMISSION, "results") == Arr([Obj(ANSWER)])
    ensures "artifact_mode" !in SUBMISSION
  {}

  lemma SubmissionReading()
    ensures DefaultMode(SUBMISSION) == CORPUS_MODE && DefaultModeOk(SUBMISSION)
    ensures Results(SUBMISSION) == [Obj(ANSWER)] && StructureOk(SUBMISSION, ["c"])
  {
    SubmissionFields();
    AnswerFields();
  }

  lemma EnvelopeIsOk()
    ensures EnvelopeOk(SURROUNDINGS, SUBMISSION)
  {
    SubmissionFields();
    assert Get(MAKER, "name") == Str("n") && Get(MAKER, "type") == Str("t");
    assert Get(MAKER, "version") == Str("v") && Get(MAKER, "language") == Str("l");
  }

  lemma HeaderIsOk()
    ensures HeaderOk(SURROUNDINGS, TheCorpus(), SUBMISSION)
  {
    EnvelopeIsOk();
    SubmissionFields();
    PyEqReflexive(CorpusDigest(SURROUNDINGS, TheCorpus()));
    assert Get(SUBMITTED_CORPUS, "profile") == Str(PROFILE);
  }

  lemma TheIds()
    ensures Ids(TheCorpus().cases) == ["c"]
  {
    CaseReading();
  }

  lemma NothingIsFatal()
    ensures NothingFatal(SURROUNDINGS, TheCorpus(), Some(Obj(SUBMISSION)))
  {
    CorpusIsUsable();
    HeaderIsOk();
    SubmissionReading();
    TheIds();
  }

  function TheReading(): NormCase {
    NormCase("c", Some(ANSWER), Some(0), None, CORPUS_MODE, [], "deny", Some(false), [], [])
  }

  lemma ReadsTheAnswer()
    ensures ReadResult(SURROUNDINGS, CORPUS_MODE, ANSWER, 0, "c") == TheReading()
  {
    AnswerFields();
    assert CORPUS_MODE != GENERATED_MODE by { ModesDiffer(); }
  }

  lemma LastIsTheAnswer()
    ensures LastFor([Obj(ANSWER)], "c") == 0
  {
    AnswerFields();
    assert IsFor(Obj(ANSWER), "c");
  }

  lemma TheNormalization()
    ensures NormalizedFor(SURROUNDINGS, TheCorpus(), SUBMISSION, [TheReading()])
  {
    SubmissionReading();
    TheIds();
    LastIsTheAnswer();
    ReadsTheAnswer();
    var ids := ["c"];
    assert ids[..0] == [];
    assert ReadCases(SURROUNDINGS, CORPUS_MODE, [Obj(ANSWER)], []) == [];
  }

  /** And its only case passes. */
  lemma AnswerPasses()
    ensures CasePasses(NO_FAILURES, TheCase(), TheReading())
  {
    CaseReading();
    AnswerFields();
    ModesDiffer();
    assert ReportedChecks(ANSWER) == Arr([]);
  }

  lemma AllAreReported()
    ensures AllReported(NO_FAILURES, TheCorpus().cases, [TheReading()], [[]])
  {
    AnswerPasses();
    assert CaseReported(NO_FAILURES, TheCase(), TheReading(), []);
  }

  /** The submission was compared without fatal errors. */
  lemma WasCompared()
    ensures Compared(SURROUNDINGS, NO_FAILURES, TheCorpus(), SUBMISSION, [TheReading()], [[]])
  {
    NothingIsFatal();
    TheNormalization();
    AllAreReported();
  }

  /** Its bundle is in order, so by `BundleOf` it passes, whatever the artifact
      checks of the comparison say.  */
  lemma IsPresentable(ck: Checkers)
    ensures Presentable(SURROUNDINGS, ck, TheCorpus(), "now", [TheReading()])
  {
    ModesDiffer();
    AnswerFields();
    assert GeneratedOk(ck, TheCorpus().cases, TheReading());
  }

  // ---------------------------------------------------------------- the bundle

  /** Every presentable comparison without fatal errors has a bundle that passes. */
  lemma BundleOf(env: Env, ck: Checkers, corpus: Corpus, sut: Object, ns: seq<NormCase>, fs: seq<seq<string>>,
                 args: Arguments, checkedAt: string, sutPath: Name)
    returns (b: Bundle)
    requires Compared(env, ck, corpus, sut, ns, fs) && Presentable(env, ck, corpus, checkedAt, ns)
    ensures BundleOk(env, ck, corpus, b) && b.submission == Given(Some(Obj(sut)))
  {
    var conf := ReportFields(env, corpus, sut, ns, fs, checkedAt, sutPath);
    ComparedIsWritten(env, ck, corpus, sut, ns, fs, checkedAt, sutPath);
    WrittenPasses(env, ck, corpus, sut, args, conf, CaseList(corpus.cases, ns, fs), ns, fs, checkedAt, sutPath);
    b := HonestBundle(env, corpus, args, conf, Some(Obj(sut)));
  }

  lemma TheCaseIsVindicated()
    ensures BundleSoundness.Vindicated(SUBMISSION, TheCase())
  {
    CaseReading();
    AnswerFields();
    SubmissionReading();
    assert BundleSoundness.OnlyResult(Results(SUBMISSION), "c", 0);
  }
}

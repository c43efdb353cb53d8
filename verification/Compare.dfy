/** `compare_sut_results`: a submitted result set against the expectations of
    a corpus, and the conformance report it yields.  */
module Compare {
  import opened Json
  import opened Oracles
  import opened Corpora
  import opened Normalize
  import Pairing
  import Artifacts

  const CONFORMANCE_REPORT_VERSION := "vate-conformance-report-2026-09"
  const SUT_RESULTS_VERSION := "vate-sut-results-2026-09"
  const DIGEST_BASIS := "json-sorted-no-whitespace"

  /** The checks of a result's artifacts, by the texts of their messages after
      the fixed first words `artifacts` and `generated_artifacts`.  */
  datatype Checkers = Checkers(
    artifactTails: (Object, Object) -> seq<string>,
    generatedTails: (Object, Object) -> seq<string>)

  // ---------------------------------------------------------------- messages

  /** A message that records why a case was not completed. */
  predicate StateMessage(m: string) {
    m == MISSING || m == SKIPPED || STATUS_PREFIX <= m
  }

  /** `recorded_state_failures`: the state messages of a list. */
  function StatesIn(ms: seq<string>): seq<string> {
    if ms == [] then [] else (if StateMessage(ms[0]) then [ms[0]] else []) + StatesIn(ms[1..])
  }

  /** A message that cannot be taken for a state message. */
  predicate Plain(m: string) {
    |m| >= 2 && !(m[0] == 's' && m[1] == 'u')
  }

  predicate AllPlain(ms: seq<string>) {
    forall k :: 0 <= k < |ms| ==> Plain(ms[k])
  }

  lemma {:induction false} PlainHasNoState(ms: seq<string>)
    requires AllPlain(ms)
    ensures StatesIn(ms) == []
  {
    if ms != [] {
      assert Plain(ms[0]);
      assert MISSING[0] == 's' && MISSING[1] == 'u' && SKIPPED[0] == 's' && SKIPPED[1] == 'u';
      assert STATUS_PREFIX[0] == 's' && STATUS_PREFIX[1] == 'u';
      assert AllPlain(ms[1..]);
      PlainHasNoState(ms[1..]);
    }
  }

  lemma {:induction false} StatesConcat(a: seq<string>, b: seq<string>)
    ensures StatesIn(a + b) == StatesIn(a) + StatesIn(b)
  {
    if a == [] {
      assert a + b == b;
    } else {
      assert (a + b)[1..] == a[1..] + b;
      StatesConcat(a[1..], b);
    }
  }

  lemma StateIsState(env: Env, result: Object)
    ensures StateOf(env, result).Some? ==> StateMessage(StateOf(env, result).value) && StateOf(env, result).value != ""
  {
    var tail := env.show(Get(result, "status"));
    assert STATUS_PREFIX <= STATUS_PREFIX + tail;
  }

  lemma PlainConcat(a: seq<string>, b: seq<string>)
    requires AllPlain(a) && AllPlain(b)
    ensures AllPlain(a + b)
  {}

  lemma ModeFailuresPlain(result: Object, default: string)
    ensures AllPlain(ModeOf(result, default).1)
  {
    var a, b := "artifact_mode: expected a supported mode", "artifact_mode: " + "a generated-receipts default cannot be downgraded per case";
    assert a[0] == 'a' && b[0] == 'a';
    assert forall m :: m in ModeOf(result, default).1 ==> m == a || m == b;
  }

  lemma FieldProblemsPlain(result: Object)
    ensures AllPlain(FieldProblems(result))
  {
    var codes := GetOr(result, "reason_codes", Arr([]));
    var a, b := "outcome: expected non-empty string", "should_execute: expected boolean";
    var c, d := "reason_codes: expected array", "reason_codes: expected non-empty string entries";
    assert a[0] == 'o' && b[1] == 'h' && c[0] == 'r' && d[0] == 'r';
    var x, y := Normalize.Fail(NonEmptyStr(Get(result, "outcome")), a), Normalize.Fail(Get(result, "should_execute").Bool?, b);
    var z := if !codes.Arr? then [c] else Normalize.Fail(|CodesOf(codes.items)| == |codes.items|, d);
    assert AllPlain(x) && AllPlain(y) && AllPlain(z);
    PlainConcat(x, y);
    PlainConcat(x + y, z);
  }

  /** The field failures of a normalized case end with its state message. */
  lemma FieldFailuresState(env: Env, default: string, rs: seq<Json>, id: string)
    ensures var n := CaseOf(env, default, rs, id);
      StatesIn(n.fieldFailures) == OptList(n.stateFailure) && forall k :: 0 <= k < |n.fieldFailures| ==> n.fieldFailures[k] != ""
  {
    var n := CaseOf(env, default, rs, id);
    if n.result.Some? {
      var head := n.modeFailures + FieldProblems(n.result.value);
      ModeFailuresPlain(n.result.value, default);
      FieldProblemsPlain(n.result.value);
      PlainConcat(n.modeFailures, FieldProblems(n.result.value));
      PlainHasNoState(head);
      StatesConcat(head, OptList(n.stateFailure));
      StateIsState(env, n.result.value);
    } else {
      assert StateMessage(MISSING);
      assert [MISSING][1..] == [];
    }
  }

  // ---------------------------------------------------------------- one case

  predicate Repeats(codes: seq<string>) {
    exists i, j :: 0 <= i < j < |codes| && codes[i] == codes[j]
  }

  /** What `reason_code_order_failures` accepts of non-empty codes. */
  predicate OrderOk(codes: seq<string>, outcome: string) {
    && !Repeats(codes)
    && ("FAIL_CLOSED" in codes ==> outcome == "deny" && codes[|codes| - 1] == "FAIL_CLOSED" && |codes| > 1)
    && ("POLICY_MATCH" in codes ==> outcome == "allow" && codes[|codes| - 1] == "POLICY_MATCH")
  }

  method OrderFailures(codes: seq<string>, outcome: string, at: string) returns (failures: seq<string>)
    requires Plain(at)
    ensures failures == [] <==> OrderOk(codes, outcome)
    ensures AllPlain(failures)
  {
    failures := NotedAt([], !Repeats(codes), at, ": duplicate reason codes are not allowed");
    if "FAIL_CLOSED" in codes {
      failures := NotedAt(failures, outcome == "deny", at, ": FAIL_CLOSED requires deny outcome");
      failures := NotedAt(failures, codes[|codes| - 1] == "FAIL_CLOSED", at, ": FAIL_CLOSED must be last");
      failures := NotedAt(failures, |codes| != 1, at, ": FAIL_CLOSED must follow a primary denial reason");
    }
    if "POLICY_MATCH" in codes {
      failures := NotedAt(failures, outcome == "allow", at, ": POLICY_MATCH requires allow outcome");
      failures := NotedAt(failures, codes[|codes| - 1] == "POLICY_MATCH", at, ": POLICY_MATCH must be last for allow outcomes");
    }
  }

  /** Appends a message unless the condition holds. */
  method Noted(failures: seq<string>, ok: bool, message: string) returns (r: seq<string>)
    requires AllPlain(failures) && Plain(message)
    ensures AllPlain(r) && (r == [] <==> failures == [] && ok)
  {
    r := if ok then failures else failures + [message];
  }

  method NotedAt(failures: seq<string>, ok: bool, at: string, message: string) returns (r: seq<string>)
    requires AllPlain(failures) && Plain(at)
    ensures AllPlain(r) && (r == [] <==> failures == [] && ok)
  {
    assert (at + message)[0] == at[0] && (at + message)[1] == at[1];
    r := Noted(failures, ok, at + message);
  }

  /** The reported checks of a result; an explicit null reads as none. */
  function ReportedChecks(result: Object): Json {
    var raw := GetOr(result, "checks", Arr([]));
    if raw == Null then Arr([]) else raw
  }

  predicate NamedCheck(check: Json) {
    check.Obj? && NonEmptyStr(Get(check.fields, "name"))
  }

  predicate SameName(a: Json, b: Json) {
    NamedCheck(a) && NamedCheck(b) && Get(a.fields, "name") == Get(b.fields, "name")
  }

  predicate WellNamed(checks: seq<Json>) {
    && (forall k :: 0 <= k < |checks| ==> NamedCheck(checks[k]))
    && forall i, j :: 0 <= i < |checks| && 0 <= j < |checks| && SameName(checks[i], checks[j]) ==> i == j
  }

  ghost predicate Reported(checks: seq<Json>, name: Json) {
    exists k :: 0 <= k < |checks| && NamedCheck(checks[k]) && Get(checks[k].fields, "name") == name
      && Get(checks[k].fields, "pass") == Bool(true)
  }

  function RequiredChecks(c: Case): seq<Json> { Get(Expected(c), "checks").items }

  /** The expected check was reported as passed. */
  ghost predicate Met(checks: seq<Json>, expected: Json) {
    expected.Obj? && Reported(checks, Get(expected.fields, "name"))
  }

  ghost predicate AllMet(checks: seq<Json>, required: seq<Json>) {
    forall k :: 0 <= k < |required| ==> Met(checks, required[k])
  }

  /** Every expected check is reported, under a unique name, as passed. */
  ghost predicate ChecksOk(result: Object, c: Case) {
    && ReportedChecks(result).Arr?
    && WellNamed(ReportedChecks(result).items)
    && AllMet(ReportedChecks(result).items, RequiredChecks(c))
  }

  /** `check_results`: every check under its own name. */
  ghost predicate NamesKnown(byName: map<string, Json>, checks: seq<Json>) {
    && (forall k :: 0 <= k < |checks| ==> NameKnown(byName, checks[k]))
    && forall name :: name in byName ==> IsNamed(byName[name], name) && byName[name] in checks
  }

  predicate NameKnown(byName: map<string, Json>, check: Json) {
    NamedCheck(check) && Get(check.fields, "name").s in byName && byName[Get(check.fields, "name").s] == check
  }

  predicate IsNamed(check: Json, name: string) {
    NamedCheck(check) && Get(check.fields, "name") == Str(name)
  }

  lemma NamesStep(byName: map<string, Json>, checks: seq<Json>, n: nat)
    requires n < |checks| && NamesKnown(byName, checks[..n]) && WellNamed(checks[..n])
    ensures NamedCheck(checks[n]) && Get(checks[n].fields, "name").s !in byName ==>
      NamesKnown(byName[Get(checks[n].fields, "name").s := checks[n]], checks[..n + 1]) && WellNamed(checks[..n + 1])
    ensures !(NamedCheck(checks[n]) && Get(checks[n].fields, "name").s !in byName) ==> !WellNamed(checks[..n + 1])
  {
    var before, after := checks[..n], checks[..n + 1];
    assert after == before + [checks[n]];
    if NamedCheck(checks[n]) {
      var name := Get(checks[n].fields, "name").s;
      if name !in byName {
        assert forall k :: 0 <= k < n ==> !SameName(before[k], checks[n]);
        forall i, j | 0 <= i < |after| && 0 <= j < |after| && SameName(after[i], after[j]) ensures i == j {
          if i < n && j < n { assert SameName(before[i], before[j]); }
        }
      } else {
        var k :| 0 <= k < n && before[k] == byName[name];
        assert SameName(after[k], after[n]);
      }
    } else {
      assert after[n] == checks[n];
    }
  }

  lemma WellNamedPrefix(checks: seq<Json>, n: nat)
    requires n < |checks|
    ensures WellNamed(checks[..n + 1]) ==> WellNamed(checks[..n])
  {
    var before, after := checks[..n], checks[..n + 1];
    assert after == before + [checks[n]];
    if WellNamed(after) {
      forall k | 0 <= k < n ensures NamedCheck(before[k]) { assert before[k] == after[k]; }
      forall i, j | 0 <= i < n && 0 <= j < n && SameName(before[i], before[j]) ensures i == j {
        assert SameName(after[i], after[j]);
      }
    }
  }

  method IndexChecks(checks: seq<Json>) returns (failures: seq<string>, byName: map<string, Json>)
    ensures failures == [] <==> WellNamed(checks)
    ensures failures == [] ==> NamesKnown(byName, checks)
    ensures forall name :: name in byName ==> IsNamed(byName[name], name)
    ensures AllPlain(failures)
  {
    failures, byName := [], map[];
    for n := 0 to |checks|
      invariant failures == [] <==> WellNamed(checks[..n])
      invariant failures == [] ==> NamesKnown(byName, checks[..n])
      invariant forall name :: name in byName ==> IsNamed(byName[name], name)
      invariant AllPlain(failures)
    {
      WellNamedPrefix(checks, n);
      if failures == [] { NamesStep(byName, checks, n); }
      var check := checks[n];
      if !check.Obj? {
        failures := failures + ["checks: expected object"];
        continue;
      }
      var name := Get(check.fields, "name");
      if !NonEmptyStr(name) {
        failures := failures + ["checks: name: expected non-empty string"];
        continue;
      }
      if name.s in byName {
        failures := failures + ["checks: name: duplicate check name"];
        continue;
      }
      byName := byName[name.s := check];
    }
    assert checks[..|checks|] == checks;
  }

  method CheckFailures(result: Object, c: Case) returns (failures: seq<string>)
    ensures failures == [] <==> ChecksOk(result, c)
    ensures AllPlain(failures)
  {
    var raw := ReportedChecks(result);
    failures := if raw.Arr? then [] else ["checks: expected array"];
    var checks := if raw.Arr? then raw.items else [];
    var named, byName := IndexChecks(checks);
    var missing := ExpectedFailures(byName, RequiredChecks(c), checks);
    failures := failures + named + missing;
  }

  /** The expected checks of a case against the reported ones. */
  method ExpectedFailures(byName: map<string, Json>, required: seq<Json>, ghost checks: seq<Json>) returns (failures: seq<string>)
    requires forall k :: 0 <= k < |required| ==> CheckEntry(required[k])
    ensures NamesKnown(byName, checks) ==> (failures == [] <==> AllMet(checks, required))
    ensures AllPlain(failures)
  {
    failures := [];
    ghost var known := NamesKnown(byName, checks);
    for n := 0 to |required|
      invariant AllPlain(failures)
      invariant known ==> (failures == [] <==> AllMet(checks, required[..n]))
    {
      assert CheckEntry(required[n]);
      var name := Get(required[n].fields, "name").s;
      if known { ReportedByName(checks, byName, name); }
      MetStep(checks, required, n);
      var found := ExpectedCheck(byName, name);
      PlainConcat(failures, found);
      failures := failures + found;
    }
    assert required[..|required|] == required;
  }

  lemma MetStep(checks: seq<Json>, required: seq<Json>, n: nat)
    requires n < |required|
    ensures AllMet(checks, required[..n + 1]) <==> AllMet(checks, required[..n]) && Met(checks, required[n])
  {
    var before, after := required[..n], required[..n + 1];
    assert after == before + [required[n]];
    if AllMet(checks, after) {
      forall k | 0 <= k < n ensures Met(checks, before[k]) { assert after[k] == before[k]; }
      assert after[n] == required[n];
    }
  }

  /** One expected check against the reported ones. */
  method ExpectedCheck(byName: map<string, Json>, name: string) returns (failures: seq<string>)
    ensures failures == [] <==> name in byName && Passed(byName[name])
    ensures AllPlain(failures)
  {
    if name !in byName {
      failures := ["check " + name + ": missing"];
    } else {
      failures := if !Passed(byName[name]) then ["check " + name + ": expected pass"] else [];
    }
  }

  predicate Passed(check: Json) {
    check.Obj? && Get(check.fields, "pass") == Bool(true)
  }

  lemma ReportedByName(checks: seq<Json>, byName: map<string, Json>, name: string)
    requires NamesKnown(byName, checks)
    ensures Reported(checks, Str(name)) <==> name in byName && Passed(byName[name])
  {
    if Reported(checks, Str(name)) {
      var k :| 0 <= k < |checks| && NamedCheck(checks[k]) && Get(checks[k].fields, "name") == Str(name)
        && Get(checks[k].fields, "pass") == Bool(true);
      assert NameKnown(byName, checks[k]);
    }
    if name in byName { assert IsNamed(byName[name], name) && byName[name] in checks; }
  }

  /** A submitted decision equals the canonical one. */
  predicate DecisionMatches(c: Case, n: NormCase) {
    && n.shouldExecute == Some(ExpectedShouldExecute(c))
    && n.outcome == ExpectedOutcome(c)
    && n.codes == ExpectedCodes(c)
  }

  /** What the artifact-mode rules and the artifact checks accept. */
  predicate ArtifactsPass(ck: Checkers, c: Case, mode: string, result: Object) {
    && ck.artifactTails(result, c) == []
    && if mode == GENERATED_MODE then ck.generatedTails(result, c) == [] else "generated_artifacts" !in result
  }

  /** The conditions for a case to pass. */
  ghost predicate CasePasses(ck: Checkers, c: Case, n: NormCase) {
    && n.fieldFailures == [] && n.result.Some?
    && DecisionMatches(c, n)
    && OrderOk(ExpectedCodes(c), ExpectedOutcome(c))
    && ChecksOk(n.result.value, c)
    && ArtifactsPass(ck, c, n.mode, n.result.value)
  }

  function Prefixed(at: string, tails: seq<string>): (r: seq<string>)
    ensures |r| == |tails| && forall k :: 0 <= k < |r| ==> r[k] == at + tails[k]
  {
    if tails == [] then [] else [at + tails[0]] + Prefixed(at, tails[1..])
  }

  lemma PrefixedPlain(at: string, tails: seq<string>)
    requires Plain(at)
    ensures AllPlain(Prefixed(at, tails))
  {
    forall k | 0 <= k < |tails| ensures Plain(Prefixed(at, tails)[k]) {
      assert (at + tails[k])[0] == at[0] && (at + tails[k])[1] == at[1];
    }
  }

  method DecisionFailures(c: Case, n: NormCase) returns (failures: seq<string>)
    ensures n.shouldExecute.Some? ==> (failures == [] <==> DecisionMatches(c, n))
    ensures AllPlain(failures)
  {
    var sameExecute := n.shouldExecute.None? || n.shouldExecute.value == ExpectedShouldExecute(c);
    failures := Noted([], sameExecute, "should_execute: expected value differs");
    failures := Noted(failures, n.outcome == ExpectedOutcome(c), "outcome: expected value differs");
    failures := Noted(failures, n.codes == ExpectedCodes(c), "reason_codes: expected value differs");
    failures := Noted(failures, Primary(n.codes) == Primary(ExpectedCodes(c)), "primary_reason_code: expected value differs");
  }

  method ArtifactFailures(ck: Checkers, c: Case, mode: string, result: Object) returns (failures: seq<string>)
    ensures failures == [] <==> ArtifactsPass(ck, c, mode, result)
    ensures AllPlain(failures)
  {
    PrefixedPlain("artifacts", ck.artifactTails(result, c));
    PrefixedPlain("generated_artifacts", ck.generatedTails(result, c));
    failures := Prefixed("artifacts", ck.artifactTails(result, c));
    if mode == GENERATED_MODE {
      failures := failures + Prefixed("generated_artifacts", ck.generatedTails(result, c));
    } else if "generated_artifacts" in result {
      failures := failures + ["generated_artifacts: set artifact_mode to generated-receipts"];
    }
  }

  /** The messages of a case: non-empty texts, with its state message as the
      only one that reads like one.  */
  ghost predicate CaseMessages(n: NormCase, failures: seq<string>) {
    StatesIn(failures) == OptList(n.stateFailure) && forall k :: 0 <= k < |failures| ==> failures[k] != ""
  }

  method ResultFailures(ck: Checkers, c: Case, n: NormCase) returns (failures: seq<string>)
    requires n.result.Some?
    ensures n.fieldFailures == [] && n.shouldExecute.Some? ==> (failures == [] <==> CasePasses(ck, c, n))
    ensures AllPlain(failures)
  {
    var result := n.result.value;
    var decision := DecisionFailures(c, n);
    var expectedOrder := OrderFailures(ExpectedCodes(c), ExpectedOutcome(c), "expected_reason_codes");
    var actualOrder := OrderFailures(n.codes, n.outcome, "actual_reason_codes");
    var checks := CheckFailures(result, c);
    var artifacts := ArtifactFailures(ck, c, n.mode, result);
    failures := decision + expectedOrder + actualOrder + checks + artifacts;
  }

  method CompareCase(ck: Checkers, c: Case, n: NormCase) returns (failures: seq<string>)
    requires Comparable(n)
    ensures failures == [] <==> CasePasses(ck, c, n)
    ensures CaseMessages(n, failures)
  {
    failures := n.fieldFailures;
    if n.result.Some? {
      var more := ResultFailures(ck, c, n);
      PlainHasNoState(more);
      StatesConcat(failures, more);
      assert StatesIn(failures) + [] == StatesIn(failures);
      failures := failures + more;
    }
  }

  // ---------------------------------------------------------------- the report

  /** The decision of a case as the reports print it. */
  datatype Decision = Decision(outcome: Json, shouldExecute: Json, primary: Json, codes: Json)

  function CaseMap(id: Json, category: Json, mode: Json, expected: Decision, actual: Decision, pass: Json, failures: Json): Object {
    map[
      "case_id" := id, "category" := category, "artifact_mode" := mode,
      "expected_outcome" := expected.outcome, "actual_outcome" := actual.outcome,
      "expected_should_execute" := expected.shouldExecute, "actual_should_execute" := actual.shouldExecute,
      "expected_primary_reason_code" := expected.primary, "actual_primary_reason_code" := actual.primary,
      "expected_reason_codes" := expected.codes, "actual_reason_codes" := actual.codes,
      "pass" := pass, "failures" := failures]
  }

  function ExpectedDecision(c: Case): Decision {
    Decision(Str(ExpectedOutcome(c)), Bool(ExpectedShouldExecute(c)), OptStr(Primary(ExpectedCodes(c))), Strings(ExpectedCodes(c)))
  }

  function ActualDecision(n: NormCase): Decision {
    Decision(Str(n.outcome), OptBool(n.shouldExecute), OptStr(Primary(n.codes)), Strings(n.codes))
  }

  function CaseFields(c: Case, n: NormCase, failures: seq<string>): Object {
    CaseMap(Str(CaseId(c)), Str(Category(c)), Str(n.mode), ExpectedDecision(c), ActualDecision(n),
      Bool(failures == []), Strings(failures))
  }

  /** One entry of the report is what the comparison of its case says. */
  ghost predicate CaseReported(ck: Checkers, c: Case, n: NormCase, failures: seq<string>) {
    (failures == [] <==> CasePasses(ck, c, n)) && CaseMessages(n, failures)
  }

  /** The comparisons of the first cases. */
  ghost predicate AllReported(ck: Checkers, cases: seq<Case>, ns: seq<NormCase>, fs: seq<seq<string>>) {
    |fs| <= |cases| == |ns| && forall i :: 0 <= i < |fs| ==> CaseReported(ck, cases[i], ns[i], fs[i])
  }

  function CountsJson(counts: Counts): Json {
    Obj(map[CORPUS_MODE := Int(counts.corpus), GENERATED_MODE := Int(counts.generated)])
  }

  /** Normalized cases of a whole submission. */
  ghost predicate NormalizedFor(env: Env, corpus: Corpus, sut: Object, ns: seq<NormCase>) {
    ns == ReadCases(env, DefaultMode(sut), Results(sut), Ids(corpus.cases))
  }

  function CaseList(cases: seq<Case>, ns: seq<NormCase>, fs: seq<seq<string>>): (r: seq<Json>)
    requires |ns| == |cases| == |fs|
    ensures |r| == |cases| && forall i :: 0 <= i < |r| ==> r[i] == Obj(CaseFields(cases[i], ns[i], fs[i]))
  {
    if cases == [] then [] else [Obj(CaseFields(cases[0], ns[0], fs[0]))] + CaseList(cases[1..], ns[1..], fs[1..])
  }

  function FailedCount(fs: seq<seq<string>>): (k: nat)
    ensures k <= |fs|
  {
    if fs == [] then 0 else FailedCount(fs[..|fs| - 1]) + if fs[|fs| - 1] == [] then 0 else 1
  }

  function Summary(fs: seq<seq<string>>, skipped: nat): Json {
    Obj(map["total" := Int(|fs|), "passed" := Int(|fs| - FailedCount(fs)), "failed" := Int(FailedCount(fs)), "skipped" := Int(skipped)])
  }

  function Implementation(sut: Object): Object {
    if Get(sut, "implementation").Obj? then Get(sut, "implementation").fields else map[]
  }

  function CorpusBlock(env: Env, corpus: Corpus): Object {
    map["name" := Str(corpus.name), "root" := Str(corpus.root),
        "artifact_count" := Int(|corpus.manifest|), "digest" := CorpusDigest(env, corpus)]
  }

  function SutBlock(env: Env, sut: Object, counts: Counts, sutPath: Name): Object {
    map["path" := Str(sutPath), "digest" := DigestDescriptor(env, Obj(sut)), "digest_basis" := Str(DIGEST_BASIS),
        "artifact_mode" := Str(DefaultMode(sut)), "artifact_mode_counts" := CountsJson(counts),
        "implementation" := Obj(Implementation(sut))]
  }

  function ReportMap(checkedAt: Json, summary: Json, corpus: Json, sut: Json, cases: Json): Object {
    map["version" := Str(CONFORMANCE_REPORT_VERSION), "profile" := Str(PROFILE), "checked_at" := checkedAt,
        "summary" := summary, "corpus" := corpus, "sut_results" := sut, "cases" := cases]
  }

  /** The report without `fatal_errors`. */
  function ReportFields(env: Env, corpus: Corpus, sut: Object, ns: seq<NormCase>, fs: seq<seq<string>>,
                        checkedAt: string, sutPath: Name): Object
    requires |ns| == |corpus.cases| == |fs|
  {
    ReportMap(Str(checkedAt), Summary(fs, CountSkipped(ns)), Obj(CorpusBlock(env, corpus)),
      Obj(SutBlock(env, sut, CountModes(ns), sutPath)), Arr(CaseList(corpus.cases, ns, fs)))
  }

  const IDENTITY_FIELDS := ["name", "type", "version", "language"]

  /** What `sut_result_envelope_failures` accepts. */
  predicate EnvelopeOk(env: Env, sut: Object) {
    && TimeOf(env, Get(sut, "generated_at")).Some?
    && Get(sut, "results").Arr?
    && Get(sut, "implementation").Obj?
    && forall k :: 0 <= k < |IDENTITY_FIELDS| ==> NonEmptyStr(Get(Implementation(sut), IDENTITY_FIELDS[k]))
  }

  function SutCorpus(sut: Object): Json { GetOr(sut, "corpus", Obj(map[])) }

  /** The header of a submission names this profile and this corpus. */
  predicate HeaderOk(env: Env, corpus: Corpus, sut: Object) {
    && PyEq(Get(sut, "version"), Str(SUT_RESULTS_VERSION)) && PyEq(Get(sut, "profile"), Str(PROFILE))
    && EnvelopeOk(env, sut)
    && SutCorpus(sut).Obj? && PyEq(Get(SutCorpus(sut).fields, "profile"), Str(PROFILE))
    && PyEq(Get(SutCorpus(sut).fields, "digest"), CorpusDigest(env, corpus))
  }

  /** The corpus can be compared against at all. */
  ghost predicate CorpusUsable(corpus: Corpus) {
    && corpus.loadFailures == [] && Pairing.PairingSound(Bodies(corpus.cases)) && InputContractsOk(corpus.cases)
    && corpus.manifestFailures == [] && corpus.cases != []
  }

  /** No fatal error: the corpus and the submission are fit for comparison. */
  ghost predicate NothingFatal(env: Env, corpus: Corpus, submitted: Option<Json>) {
    && CorpusUsable(corpus)
    && submitted.Some? && submitted.value.Obj?
    && HeaderOk(env, corpus, submitted.value.fields)
    && DefaultModeOk(submitted.value.fields)
    && StructureOk(submitted.value.fields, Ids(corpus.cases))
  }

  method ContractFailures(cases: seq<Case>) returns (failures: seq<string>)
    ensures failures == [] <==> InputContractsOk(cases)
  {
    failures := [];
    for n := 0 to |cases|
      invariant failures == [] <==> forall k :: 0 <= k < n ==> Artifacts.ContractOk(cases[k])
    {
      var found := Artifacts.ContractFailures(cases[n]);
      failures := failures + found;
    }
  }

  method EnvelopeFailures(env: Env, sut: Object) returns (failures: seq<string>)
    ensures failures == [] <==> EnvelopeOk(env, sut)
  {
    failures := Normalize.Fail(TimeOf(env, Get(sut, "generated_at")).Some?, "sut_results.generated_at: expected valid RFC3339 date-time");
    failures := failures + Normalize.Fail(Get(sut, "results").Arr?, "sut_results.results: expected array");
    if !Get(sut, "implementation").Obj? {
      return failures + ["sut_results.implementation: expected object"];
    }
    var ok := failures == [];
    for k := 0 to |IDENTITY_FIELDS|
      invariant failures == [] <==> ok && forall j :: 0 <= j < k ==> NonEmptyStr(Get(Implementation(sut), IDENTITY_FIELDS[j]))
    {
      var named := NonEmptyStr(Get(Implementation(sut), IDENTITY_FIELDS[k]));
      failures := failures + Normalize.Fail(named, "sut_results.implementation: expected non-empty string");
    }
  }

  method HeaderFailures(env: Env, corpus: Corpus, sut: Object) returns (failures: seq<string>)
    ensures failures == [] <==> HeaderOk(env, corpus, sut)
  {
    failures := Normalize.Fail(PyEq(Get(sut, "version"), Str(SUT_RESULTS_VERSION)), "sut_results.version");
    failures := failures + Normalize.Fail(PyEq(Get(sut, "profile"), Str(PROFILE)), "sut_results.profile");
    var envelope := EnvelopeFailures(env, sut);
    failures := failures + envelope;
    var sutCorpus := map[];
    if SutCorpus(sut).Obj? {
      sutCorpus := SutCorpus(sut).fields;
    } else {
      failures := failures + ["sut_results.corpus: expected object"];
    }
    failures := failures + Normalize.Fail(PyEq(Get(sutCorpus, "profile"), Str(PROFILE)), "sut_results.corpus.profile");
    failures := failures + Normalize.Fail(PyEq(Get(sutCorpus, "digest"), CorpusDigest(env, corpus)), "sut_results.corpus.digest");
  }

  /** The submission as the comparison reads it. */
  function SubmittedObject(submitted: Option<Json>): Object {
    if submitted.Some? && submitted.value.Obj? then submitted.value.fields else map[]
  }

  method CorpusFailures(corpus: Corpus) returns (failures: seq<string>)
    ensures failures == [] <==> CorpusUsable(corpus)
  {
    var pairing := Pairing.CorpusPairingFailures(corpus.loadFailures, Bodies(corpus.cases));
    var contracts := ContractFailures(corpus.cases);
    failures := corpus.loadFailures + pairing + contracts + corpus.manifestFailures
      + Normalize.Fail(corpus.cases != [], "no valid conformance cases loaded");
  }

  method FatalErrors(env: Env, corpus: Corpus, submitted: Option<Json>, normalized: Normalized) returns (failures: seq<string>)
    requires normalized.defaultModeFailure.None? <==> DefaultModeOk(SubmittedObject(submitted))
    requires normalized.structuralFailures == [] <==> StructureOk(SubmittedObject(submitted), Ids(corpus.cases))
    ensures failures == [] <==> NothingFatal(env, corpus, submitted)
  {
    failures := CorpusFailures(corpus);
    if submitted.None? {
      failures := failures + ["sut_results: invalid strict JSON input"];
    } else if !submitted.value.Obj? {
      failures := failures + ["sut_results: expected object"];
    }
    var header := HeaderFailures(env, corpus, SubmittedObject(submitted));
    failures := failures + header + OptList(normalized.defaultModeFailure) + normalized.structuralFailures;
  }

  function WithFatal(report: Object, fatal: seq<string>): Object {
    if fatal == [] then report else report["fatal_errors" := Strings(fatal)]
  }

  /** A report of `compare_sut_results` on a submission: the normalized cases
      `ns`, the messages `fs` of every case, and the fatal errors.  */
  ghost predicate IsReport(env: Env, ck: Checkers, corpus: Corpus, submitted: Option<Json>, checkedAt: string, sutPath: Name,
                           report: Object, ns: seq<NormCase>, fs: seq<seq<string>>, fatal: seq<string>) {
    && |ns| == |corpus.cases| == |fs|
    && NormalizedFor(env, corpus, SubmittedObject(submitted), ns)
    && AllReported(ck, corpus.cases, ns, fs)
    && (fatal == [] <==> NothingFatal(env, corpus, submitted))
    && report == WithFatal(ReportFields(env, corpus, SubmittedObject(submitted), ns, fs, checkedAt, sutPath), fatal)
  }

  /** `compare_sut_results`; None is a submission that is not strict JSON. */
  method CompareSutResults(env: Env, ck: Checkers, corpus: Corpus, submitted: Option<Json>, checkedAt: string, sutPath: Name)
    returns (report: Object, ns: seq<NormCase>, fs: seq<seq<string>>, fatal: seq<string>)
    ensures IsReport(env, ck, corpus, submitted, checkedAt, sutPath, report, ns, fs, fatal)
  {
    var sut := SubmittedObject(submitted);
    var normalized := Normalize.Normalize(env, sut, Ids(corpus.cases));
    fatal := FatalErrors(env, corpus, submitted, normalized);
    ns := normalized.cases;
    AllReady(env, corpus, sut, ns);
    fs := CompareCases(ck, corpus.cases, ns);
    report := WithFatal(ReportFields(env, corpus, sut, ns, fs, checkedAt, sutPath), fatal);
  }

  /** What a comparison asks of a normalized case. */
  ghost predicate Comparable(n: NormCase) {
    && CaseMessages(n, n.fieldFailures)
    && (n.result.None? || n.shouldExecute.None? ==> n.fieldFailures != [])
  }

  lemma ReadyToCompare(env: Env, corpus: Corpus, sut: Object, ns: seq<NormCase>, i: nat)
    requires NormalizedFor(env, corpus, sut, ns) && i < |ns|
    ensures Comparable(ns[i])
  {
    FieldFailuresState(env, DefaultMode(sut), Results(sut), CaseId(corpus.cases[i]));
    UnreadHasProblems(env, DefaultMode(sut), Results(sut), CaseId(corpus.cases[i]));
  }

  lemma AllReady(env: Env, corpus: Corpus, sut: Object, ns: seq<NormCase>)
    requires NormalizedFor(env, corpus, sut, ns)
    ensures AllComparable(ns)
  {
    forall i | 0 <= i < |ns| ensures Comparable(ns[i]) { ReadyToCompare(env, corpus, sut, ns, i); }
  }

  lemma UnreadHasProblems(env: Env, default: string, rs: seq<Json>, id: string)
    ensures var n := CaseOf(env, default, rs, id);
      n.result.None? || n.shouldExecute.None? ==> n.fieldFailures != []
  {
    var n := CaseOf(env, default, rs, id);
    if n.result.Some? && n.shouldExecute.None? {
      assert FieldProblems(n.result.value) != [];
    }
  }

  ghost predicate AllComparable(ns: seq<NormCase>) {
    forall i :: 0 <= i < |ns| ==> Comparable(ns[i])
  }

  method CompareCases(ck: Checkers, cases: seq<Case>, ns: seq<NormCase>) returns (fs: seq<seq<string>>)
    requires |ns| == |cases| && AllComparable(ns)
    ensures |fs| == |ns| && AllReported(ck, cases, ns, fs)
  {
    fs := [];
    for i := 0 to |ns|
      invariant |fs| == i && AllReported(ck, cases, ns, fs)
    {
      var failures := CompareCase(ck, cases[i], ns[i]);
      OneMoreReported(ck, cases, ns, fs, failures);
      fs := fs + [failures];
    }
  }

  lemma OneMoreReported(ck: Checkers, cases: seq<Case>, ns: seq<NormCase>, fs: seq<seq<string>>, failures: seq<string>)
    requires |fs| < |cases| == |ns| && AllReported(ck, cases, ns, fs)
    requires CaseReported(ck, cases[|fs|], ns[|fs|], failures)
    ensures AllReported(ck, cases, ns, fs + [failures])
  {}
}

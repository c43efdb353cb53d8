/** `normalize_sut_results`: one submitted result set read against the
    canonical case ids, without looking at any expectation.  */
module Normalize {
  import opened Json
  import opened Oracles
  import opened Corpora

  const CORPUS_MODE := "corpus-fixture-validation"
  const GENERATED_MODE := "generated-receipts"
  const MODES := {CORPUS_MODE, GENERATED_MODE}

  const MISSING := "sut result missing"
  const SKIPPED := "sut result skipped"
  const STATUS_PREFIX := "sut result status: expected completed actual "

  datatype NormCase = NormCase(
    caseId: string, result: Option<Object>, index: Option<nat>, stateFailure: Option<string>,
    mode: string, modeFailures: seq<string>,
    outcome: string, shouldExecute: Option<bool>, codes: seq<string>, fieldFailures: seq<string>)

  datatype Normalized = Normalized(
    defaultMode: string, defaultModeFailure: Option<string>, structuralFailures: seq<string>,
    cases: seq<NormCase>, counts: Counts, skipped: nat)

  /** `artifact_mode_counts`. */
  datatype Counts = Counts(corpus: nat, generated: nat)

  // ---------------------------------------------------------------- meaning

  predicate DefaultModeOk(sut: Object) {
    StrIn(GetOr(sut, "artifact_mode", Str(CORPUS_MODE)), MODES)
  }

  function DefaultMode(sut: Object): (mode: string)
    ensures mode in MODES
  {
    if DefaultModeOk(sut) then GetOr(sut, "artifact_mode", Str(CORPUS_MODE)).s else CORPUS_MODE
  }

  function Results(sut: Object): seq<Json> {
    if Get(sut, "results").Arr? then Get(sut, "results").items else []
  }

  /** A result entry that can be attributed to a case. */
  predicate Usable(r: Json) {
    r.Obj? && NonEmptyStr(Get(r.fields, "case_id"))
  }

  function ResultId(r: Json): string
    requires Usable(r)
  {
    Get(r.fields, "case_id").s
  }

  predicate IsFor(r: Json, id: string) {
    Usable(r) && ResultId(r) == id
  }

  /** Where the last result for a case sits; -1 when there is none. */
  function LastFor(rs: seq<Json>, id: string): (k: int)
    ensures -1 <= k < |rs|
    ensures k >= 0 ==> IsFor(rs[k], id)
    ensures k < 0 ==> forall j :: 0 <= j < |rs| ==> !IsFor(rs[j], id)
  {
    if rs == [] then -1
    else if IsFor(rs[|rs| - 1], id) then |rs| - 1
    else LastFor(rs[..|rs| - 1], id)
  }

  predicate SameId(r: Json, s: Json) {
    Usable(r) && Usable(s) && ResultId(r) == ResultId(s)
  }

  predicate AllUsable(rs: seq<Json>) {
    forall k :: 0 <= k < |rs| ==> Usable(rs[k])
  }

  predicate NoRepeats(rs: seq<Json>) {
    forall i, j :: 0 <= i < |rs| && 0 <= j < |rs| && SameId(rs[i], rs[j]) ==> i == j
  }

  /** The result set is an array of usable entries, one per case at most, for
      canonical cases only.  */
  predicate StructureOk(sut: Object, ids: seq<string>) {
    var rs := Results(sut);
    && Get(sut, "results").Arr?
    && AllUsable(rs) && NoRepeats(rs)
    && forall k :: 0 <= k < |rs| && Usable(rs[k]) ==> ResultId(rs[k]) in ids
  }

  /** The artifact mode of one result and what is wrong with it. */
  function ModeOf(result: Object, default: string): (string, seq<string>) {
    var raw := GetOr(result, "artifact_mode", Str(default));
    var bad := !StrIn(raw, MODES);
    var mode := if bad then default else raw.s;
    (mode,
      (if bad then ["artifact_mode: expected a supported mode"] else []) +
      (if default == GENERATED_MODE && mode != GENERATED_MODE
       then ["artifact_mode: " + "a generated-receipts default cannot be downgraded per case"] else []))
  }

  function CodesOf(raw: seq<Json>): seq<string> {
    if raw == [] then []
    else (if NonEmptyStr(raw[0]) then [raw[0].s] else []) + CodesOf(raw[1..])
  }

  function StateOf(env: Env, result: Object): Option<string> {
    var status := Get(result, "status");
    if status == Str("skipped") then Some(SKIPPED)
    else if status == Str("completed") then None
    else Some(STATUS_PREFIX + env.show(status))
  }

  predicate IsSkipped(result: Option<Object>) {
    result.Some? && Get(result.value, "status") == Str("skipped")
  }

  function OptList(o: Option<string>): seq<string> {
    match o
    case None => []
    case Some(s) => [s]
  }

  function Fail(ok: bool, message: string): seq<string> {
    if ok then [] else [message]
  }

  /** The normalized reading of one case. */
  function CaseOf(env: Env, default: string, rs: seq<Json>, id: string): NormCase {
    var k := LastFor(rs, id);
    if k < 0 then MissingCase(default, id) else ReadResult(env, default, rs[k].fields, k, id)
  }

  function MissingCase(default: string, id: string): NormCase {
    NormCase(id, None, None, Some(MISSING), default, [], "missing", None, [], [MISSING])
  }

  function ReadResult(env: Env, default: string, result: Object, index: nat, id: string): NormCase {
    var (mode, modeFailures) := ModeOf(result, default);
    var outcome, execute := Get(result, "outcome"), Get(result, "should_execute");
    var codes := GetOr(result, "reason_codes", Arr([]));
    var read := if codes.Arr? then CodesOf(codes.items) else [];
    var state := StateOf(env, result);
    NormCase(id, Some(result), Some(index), state, mode, modeFailures,
      if NonEmptyStr(outcome) then outcome.s else "missing",
      if execute.Bool? then Some(execute.b) else None,
      read,
      modeFailures + FieldProblems(result) + OptList(state))
  }

  /** What is wrong with the decision fields of a result. */
  function FieldProblems(result: Object): seq<string> {
    var codes := GetOr(result, "reason_codes", Arr([]));
    Fail(NonEmptyStr(Get(result, "outcome")), "outcome: expected non-empty string")
    + Fail(Get(result, "should_execute").Bool?, "should_execute: expected boolean")
    + (if !codes.Arr? then ["reason_codes: expected array"]
       else Fail(|CodesOf(codes.items)| == |codes.items|, "reason_codes: expected non-empty string entries"))
  }

  /** The readings of all canonical cases. */
  function ReadCases(env: Env, default: string, rs: seq<Json>, ids: seq<string>): (r: seq<NormCase>)
    ensures |r| == |ids| && forall i :: 0 <= i < |r| ==> r[i] == CaseOf(env, default, rs, ids[i])
  {
    if ids == [] then []
    else ReadCases(env, default, rs, ids[..|ids| - 1]) + [CaseOf(env, default, rs, ids[|ids| - 1])]
  }

  function CountModes(cases: seq<NormCase>): Counts {
    if cases == [] then Counts(0, 0)
    else
      var c := CountModes(cases[..|cases| - 1]);
      if cases[|cases| - 1].mode == GENERATED_MODE then c.(generated := c.generated + 1) else c.(corpus := c.corpus + 1)
  }

  function CountSkipped(cases: seq<NormCase>): nat {
    if cases == [] then 0
    else CountSkipped(cases[..|cases| - 1]) + if IsSkipped(cases[|cases| - 1].result) then 1 else 0
  }

  // ---------------------------------------------------------------- the loops

  ghost function UsableIds(rs: seq<Json>): set<string> {
    set k | 0 <= k < |rs| && Usable(rs[k]) :: ResultId(rs[k])
  }

  /** `results_by_case` and `result_indexes_by_case` in one map. */
  ghost predicate Indexed(byCase: map<string, nat>, rs: seq<Json>) {
    && byCase.Keys == UsableIds(rs)
    && forall id :: id in byCase ==> byCase[id] == LastFor(rs, id)
  }

  lemma UsableStep(rs: seq<Json>, n: nat)
    requires n < |rs|
    ensures UsableIds(rs[..n + 1]) == UsableIds(rs[..n]) + if Usable(rs[n]) then {ResultId(rs[n])} else {}
    ensures AllUsable(rs[..n + 1]) <==> AllUsable(rs[..n]) && Usable(rs[n])
  {
    var before, after := rs[..n], rs[..n + 1];
    assert after == before + [rs[n]];
    forall id | id in UsableIds(before) ensures id in UsableIds(after) {
      var k :| 0 <= k < n && Usable(before[k]) && ResultId(before[k]) == id;
      assert after[k] == before[k];
    }
    if Usable(rs[n]) { assert after[n] == rs[n]; }
    if AllUsable(after) {
      forall k | 0 <= k < n ensures Usable(before[k]) { assert after[k] == before[k]; }
      assert after[n] == rs[n];
    }
  }

  lemma IndexStep(byCase: map<string, nat>, rs: seq<Json>, n: nat)
    requires n < |rs| && Indexed(byCase, rs[..n])
    ensures Indexed(if Usable(rs[n]) then byCase[ResultId(rs[n]) := n] else byCase, rs[..n + 1])
  {
    UsableStep(rs, n);
    assert rs[..n + 1][..n] == rs[..n];
  }

  lemma RepeatStep(rs: seq<Json>, n: nat)
    requires n < |rs|
    ensures NoRepeats(rs[..n + 1]) <==> NoRepeats(rs[..n]) && (Usable(rs[n]) ==> ResultId(rs[n]) !in UsableIds(rs[..n]))
  {
    var before, after := rs[..n], rs[..n + 1];
    assert after == before + [rs[n]];
    if NoRepeats(after) {
      forall i, j | 0 <= i < n && 0 <= j < n && SameId(before[i], before[j]) ensures i == j {
        assert SameId(after[i], after[j]);
      }
      if Usable(rs[n]) && ResultId(rs[n]) in UsableIds(before) {
        var k :| 0 <= k < n && Usable(before[k]) && ResultId(before[k]) == ResultId(rs[n]);
        assert SameId(after[k], after[n]);
      }
    }
    if NoRepeats(before) && (Usable(rs[n]) ==> ResultId(rs[n]) !in UsableIds(before)) {
      assert forall k :: 0 <= k < n && Usable(before[k]) ==> ResultId(before[k]) in UsableIds(before);
      forall i, j | 0 <= i < |after| && 0 <= j < |after| && SameId(after[i], after[j]) ensures i == j {
        if i < n && j < n { assert SameId(before[i], before[j]); }
      }
    }
  }

  /** First loop: index the usable results, note duplicates. */
  method IndexResults(rs: seq<Json>)
    returns (failures: seq<string>, byCase: map<string, nat>, duplicates: set<string>)
    ensures Indexed(byCase, rs)
    ensures failures == [] <==> AllUsable(rs)
    ensures duplicates == {} <==> NoRepeats(rs)
  {
    failures, byCase, duplicates := [], map[], {};
    for n := 0 to |rs|
      invariant Indexed(byCase, rs[..n])
      invariant failures == [] <==> AllUsable(rs[..n])
      invariant duplicates == {} <==> NoRepeats(rs[..n])
    {
      UsableStep(rs, n);
      IndexStep(byCase, rs, n);
      RepeatStep(rs, n);
      var result := rs[n];
      if !result.Obj? {
        failures := failures + ["sut_results.results: expected object"];
        continue;
      }
      var id := Get(result.fields, "case_id");
      if !NonEmptyStr(id) {
        failures := failures + ["sut_results.results: expected non-empty string case_id"];
        continue;
      }
      if id.s in byCase {
        duplicates := duplicates + {id.s};
      }
      byCase := byCase[id.s := n];
    }
    assert rs[..|rs|] == rs;
  }

  lemma UnknownIds(rs: seq<Json>, byCase: map<string, nat>, ids: seq<string>, unknown: set<string>)
    requires Indexed(byCase, rs) && unknown == set id | id in byCase && id !in ids
    ensures unknown == {} <==> forall k :: 0 <= k < |rs| && Usable(rs[k]) ==> ResultId(rs[k]) in ids
  {
    if unknown == {} {
      forall k | 0 <= k < |rs| && Usable(rs[k]) ensures ResultId(rs[k]) in ids {
        assert ResultId(rs[k]) in byCase;
        assert ResultId(rs[k]) !in unknown;
      }
    }
  }

  /** `normalize_sut_results`. */
  method Normalize(env: Env, sut: Object, ids: seq<string>) returns (r: Normalized)
    ensures r.defaultMode == DefaultMode(sut) && (r.defaultModeFailure.None? <==> DefaultModeOk(sut))
    ensures r.structuralFailures == [] <==> StructureOk(sut, ids)
    ensures r.cases == ReadCases(env, DefaultMode(sut), Results(sut), ids)
    ensures r.counts == CountModes(r.cases) && r.skipped == CountSkipped(r.cases)
  {
    var default, modeFailure := CORPUS_MODE, None;
    var rawMode := GetOr(sut, "artifact_mode", Str(CORPUS_MODE));
    if !StrIn(rawMode, MODES) {
      modeFailure := Some("sut_results.artifact_mode: expected a supported mode");
    } else {
      default := rawMode.s;
    }
    var structural := [];
    if !Get(sut, "results").Arr? {
      structural := ["sut_results.results: expected array"];
    }
    var rs := Results(sut);
    var unusable, byCase, duplicates := IndexResults(rs);
    var unknown := set id | id in byCase && id !in ids;
    structural := structural + unusable
      + Fail(duplicates == {}, "sut_results.results: duplicate case_id")
      + Fail(unknown == {}, "sut_results.results: unknown case_id");
    UnknownIds(rs, byCase, ids, unknown);
    var cases, counts, skipped := NormalizeCases(env, default, rs, byCase, ids);
    r := Normalized(default, modeFailure, structural, cases, counts, skipped);
  }

  lemma CaseByIndex(env: Env, default: string, rs: seq<Json>, byCase: map<string, nat>, id: string)
    requires Indexed(byCase, rs)
    ensures id in byCase <==> LastFor(rs, id) >= 0
    ensures id in byCase ==> byCase[id] < |rs| && rs[byCase[id]].Obj?
    ensures CaseOf(env, default, rs, id) ==
      if id in byCase then ReadResult(env, default, rs[byCase[id]].fields, byCase[id], id) else MissingCase(default, id)
  {
    if LastFor(rs, id) >= 0 { assert id in UsableIds(rs); }
  }

  lemma CountStep(cases: seq<NormCase>, c: NormCase)
    ensures CountSkipped(cases + [c]) == CountSkipped(cases) + if IsSkipped(c.result) then 1 else 0
    ensures var k := CountModes(cases);
      CountModes(cases + [c]) == if c.mode == GENERATED_MODE then k.(generated := k.generated + 1) else k.(corpus := k.corpus + 1)
  {
    assert (cases + [c])[..|cases|] == cases;
  }

  method NormalizeCase(env: Env, default: string, rs: seq<Json>, byCase: map<string, nat>, ids: seq<string>, n: nat,
                       ghost before: seq<NormCase>) returns (c: NormCase)
    requires default in MODES && Indexed(byCase, rs) && n < |ids| && before == ReadCases(env, default, rs, ids[..n])
    ensures before + [c] == ReadCases(env, default, rs, ids[..n + 1])
    ensures c.stateFailure == Some(SKIPPED) <==> IsSkipped(c.result)
  {
    var id := ids[n];
    assert ids[..n + 1][..n] == ids[..n];
    CaseByIndex(env, default, rs, byCase, id);
    SkippedState(env, default, rs, id);
    c := if id in byCase then ReadResult(env, default, rs[byCase[id]].fields, byCase[id], id) else MissingCase(default, id);
  }

  /** Second loop: one normalized entry per canonical case. */
  method NormalizeCases(env: Env, default: string, rs: seq<Json>, byCase: map<string, nat>, ids: seq<string>)
    returns (cases: seq<NormCase>, counts: Counts, skipped: nat)
    requires default in MODES && Indexed(byCase, rs)
    ensures cases == ReadCases(env, default, rs, ids)
    ensures counts == CountModes(cases) && skipped == CountSkipped(cases)
  {
    cases, counts, skipped := [], Counts(0, 0), 0;
    for n := 0 to |ids|
      invariant cases == ReadCases(env, default, rs, ids[..n])
      invariant counts == CountModes(cases) && skipped == CountSkipped(cases)
    {
      var c := NormalizeCase(env, default, rs, byCase, ids, n, cases);
      CountStep(cases, c);
      if c.mode == GENERATED_MODE {
        counts := counts.(generated := counts.generated + 1);
      } else {
        counts := counts.(corpus := counts.corpus + 1);
      }
      if c.stateFailure == Some(SKIPPED) {
        skipped := skipped + 1;
      }
      cases := cases + [c];
    }
    assert ids[..|ids|] == ids;
  }

  /** Only a result whose status is `skipped` is recorded as skipped. */
  lemma SkippedState(env: Env, default: string, rs: seq<Json>, id: string)
    ensures var c := CaseOf(env, default, rs, id);
      c.stateFailure == Some(SKIPPED) <==> IsSkipped(c.result)
  {
    var c := CaseOf(env, default, rs, id);
    assert MISSING[12] != SKIPPED[12];
    if c.result.Some? && Get(c.result.value, "status") !in {Str("skipped"), Str("completed")} {
      assert c.stateFailure.value[12] == STATUS_PREFIX[12];
    }
  }
}

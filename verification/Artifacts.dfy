/** The input-artifact contract of a case, and `sut_result_artifact_failures`
    on a submission for a case that declares authoritative `sut_inputs`.  */
module Artifacts {
  import opened Json
  import opened Oracles

  type Key = (string, string)

  // ---------------------------------------------------------------- the contract of a case

  /** The artifacts that the status context checks of a case name. */
  function StatusArtifacts(c: Object): set<string> {
    var checks := Get(c, "al2_context_checks");
    if !checks.Arr? then {}
    else set k | 0 <= k < |checks.items| && IsStatusCheck(checks.items[k]) :: Get(checks.items[k].fields, "artifact").s
  }

  predicate IsStatusCheck(check: Json) {
    check.Obj? && Get(check.fields, "kind") == Str("status") && NonEmptyStr(Get(check.fields, "artifact"))
  }

  const INPUT_FIELDS := {"artifact", "role", "media_type"}

  /** The checks made on one declared input on its own. */
  predicate InputOk(artifacts: Object, item: Json) {
    && item.Obj? && item.fields.Keys <= INPUT_FIELDS
    && NonEmptyStr(Get(item.fields, "artifact")) && Get(artifacts, Get(item.fields, "artifact").s).Str?
    && NonEmptyStr(Get(item.fields, "role")) && NonEmptyStr(Get(item.fields, "media_type"))
  }

  predicate HasKey(item: Json, name: string) {
    item.Obj? && NonEmptyStr(Get(item.fields, name)) && NonEmptyStr(Get(item.fields, "role"))
  }

  function KeyOf(item: Json, name: string): Key
    requires HasKey(item, name)
  {
    (Get(item.fields, name).s, Get(item.fields, "role").s)
  }

  predicate SameKey(a: Json, b: Json, name: string) {
    HasKey(a, name) && HasKey(b, name) && KeyOf(a, name) == KeyOf(b, name)
  }

  /** No two entries of a list share their logical key. */
  predicate DistinctKeys(items: seq<Json>, name: string) {
    forall i, j :: 0 <= i < |items| && 0 <= j < |items| && SameKey(items[i], items[j], name) ==> i == j
  }

  predicate HasStatusEvidence(items: seq<Json>, artifact: string) {
    exists k :: 0 <= k < |items| && HasKey(items[k], "artifact") && KeyOf(items[k], "artifact") == (artifact, "status_evidence")
  }

  /** What `sut_input_contract_failures` accepts. */
  predicate ContractOk(c: Object) {
    var artifacts := Get(c, "artifacts");
    && artifacts.Obj?
    && if "sut_inputs" !in c then StatusArtifacts(c) == {}
       else
         var raw := c["sut_inputs"];
         && raw.Arr? && raw.items != []
         && InputsOk(artifacts.fields, raw.items)
         && DistinctKeys(raw.items, "artifact")
         && forall a :: a in StatusArtifacts(c) ==> HasStatusEvidence(raw.items, a)
  }

  function Fail(ok: bool, message: string): seq<string> {
    if ok then [] else [message]
  }

  /** The keys of the entries seen so far. */
  ghost function KeysOf(items: seq<Json>, name: string): set<Key> {
    set k | 0 <= k < |items| && HasKey(items[k], name) :: KeyOf(items[k], name)
  }

  lemma KeysStep(items: seq<Json>, name: string, n: nat)
    requires n < |items|
    ensures KeysOf(items[..n + 1], name) ==
      KeysOf(items[..n], name) + if HasKey(items[n], name) then {KeyOf(items[n], name)} else {}
    ensures DistinctKeys(items[..n + 1], name) <==>
      DistinctKeys(items[..n], name) && (HasKey(items[n], name) ==> KeyOf(items[n], name) !in KeysOf(items[..n], name))
  {
    var before, after := items[..n], items[..n + 1];
    assert forall k :: 0 <= k < n ==> before[k] == after[k] == items[k];
    assert after[n] == items[n];
    forall key | key in KeysOf(before, name) ensures key in KeysOf(after, name) {
      var k :| 0 <= k < n && HasKey(before[k], name) && KeyOf(before[k], name) == key;
      assert after[k] == before[k];
    }
    forall key | key in KeysOf(after, name) && key !in KeysOf(before, name)
      ensures HasKey(items[n], name) && key == KeyOf(items[n], name)
    {
      var k :| 0 <= k <= n && HasKey(after[k], name) && KeyOf(after[k], name) == key;
    }
  }

  method InputFailures(artifacts: Object, item: Json) returns (failures: seq<string>)
    ensures failures == [] <==> InputOk(artifacts, item)
  {
    if !item.Obj? {
      return ["expected object"];
    }
    failures := Fail(item.fields.Keys <= INPUT_FIELDS, "unsupported SUT input field");
    var artifact := Get(item.fields, "artifact");
    if !NonEmptyStr(artifact) {
      failures := failures + ["artifact: expected non-empty string"];
    } else {
      failures := failures + Fail(Get(artifacts, artifact.s).Str?, "artifact: missing string artifact path");
    }
    failures := failures + Fail(NonEmptyStr(Get(item.fields, "role")), "role: expected non-empty string");
    failures := failures + Fail(NonEmptyStr(Get(item.fields, "media_type")), "media_type: expected non-empty string");
  }

  predicate InputsOk(artifacts: Object, items: seq<Json>) {
    forall k :: 0 <= k < |items| ==> InputOk(artifacts, items[k])
  }

  method InputListFailures(artifacts: Object, items: seq<Json>) returns (failures: seq<string>, seen: map<Key, nat>)
    ensures failures == [] <==> InputsOk(artifacts, items) && DistinctKeys(items, "artifact")
    ensures seen.Keys == KeysOf(items, "artifact")
  {
    failures, seen := [], map[];
    for n := 0 to |items|
      invariant failures == [] <==> InputsOk(artifacts, items[..n]) && DistinctKeys(items[..n], "artifact")
      invariant seen.Keys == KeysOf(items[..n], "artifact")
    {
      KeysStep(items, "artifact", n);
      assert items[..n + 1] == items[..n] + [items[n]];
      var found := InputFailures(artifacts, items[n]);
      failures := failures + found;
      if HasKey(items[n], "artifact") {
        var key := KeyOf(items[n], "artifact");
        if key in seen {
          failures := failures + ["duplicate logical input"];
        } else {
          seen := seen[key := n];
        }
      }
    }
    assert items[..|items|] == items;
  }

  method StatusFailures(status: set<string>, seen: map<Key, nat>) returns (failures: seq<string>)
    ensures failures == [] <==> forall a :: a in status ==> (a, "status_evidence") in seen
  {
    failures := [];
    var left := status;
    while left != {}
      invariant left <= status
      invariant failures == [] <==> forall a :: a in status && a !in left ==> (a, "status_evidence") in seen
      decreases |left|
    {
      var a :| a in left;
      failures := failures + Fail((a, "status_evidence") in seen, "sut_inputs: status context check requires status_evidence");
      left := left - {a};
    }
  }

  /** `sut_input_contract_failures`. */
  method ContractFailures(c: Object) returns (failures: seq<string>)
    ensures failures == [] <==> ContractOk(c)
  {
    var status := StatusArtifacts(c);
    var artifacts := Get(c, "artifacts");
    if !artifacts.Obj? {
      return if "sut_inputs" in c || status != {} then ["sut_inputs: case artifacts must be an object"]
             else ["artifacts: expected object"];
    }
    if "sut_inputs" !in c {
      return Fail(status == {}, "sut_inputs: required for cases with status context checks");
    }
    var raw := c["sut_inputs"];
    if !raw.Arr? || raw.items == [] {
      return ["sut_inputs: expected non-empty array"];
    }
    var inputs, seen := InputListFailures(artifacts.fields, raw.items);
    var evidence := StatusFailures(status, seen);
    failures := inputs + evidence;
    assert forall a :: (a, "status_evidence") in KeysOf(raw.items, "artifact") <==> HasStatusEvidence(raw.items, a);
  }

  // ---------------------------------------------------------------- the submission

  /** One required input, with what the corpus expects of its reference. */
  datatype Requirement = Requirement(key: Key, uri: Json, mediaType: string, digest: Option<HexDigest>)

  /** The `input_artifacts` of `required_sut_artifacts`; `digestOf` is
      `case_artifact_sha256`, None for an unreadable artifact.  */
  function Requirements(artifacts: Object, items: seq<Json>, digestOf: string -> Option<HexDigest>): seq<Requirement> {
    if items == [] then []
    else
      (if HasKey(items[0], "artifact") && NonEmptyStr(Get(items[0].fields, "media_type")) then
         var key := KeyOf(items[0], "artifact");
         [Requirement(key, Get(artifacts, key.0), Get(items[0].fields, "media_type").s, digestOf(key.0))]
       else []) + Requirements(artifacts, items[1..], digestOf)
  }

  const REFERENCE_FIELDS := {"case_artifact", "role", "uri", "media_type", "digest"}
  const DIGEST_FIELDS := {"alg", "value"}

  predicate DigestOk(d: Json) {
    && d.Obj? && d.fields.Keys <= DIGEST_FIELDS
    && Get(d.fields, "alg") == Str("sha-256") && Get(d.fields, "value").Str? && IsSha256Hex(Get(d.fields, "value").s)
  }

  /** What `sut_input_artifact_failures` accepts. */
  predicate ReferenceOk(item: Json) {
    && item.Obj? && item.fields.Keys <= REFERENCE_FIELDS
    && NonEmptyStr(Get(item.fields, "uri")) && NonEmptyStr(Get(item.fields, "media_type"))
    && DigestOk(Get(item.fields, "digest")) && HasKey(item, "case_artifact")
  }

  method ReferenceFailures(item: Json) returns (failures: seq<string>)
    ensures failures == [] <==> ReferenceOk(item)
  {
    if !item.Obj? {
      return ["expected artifact reference object"];
    }
    failures := Fail(NonEmptyStr(Get(item.fields, "uri")), "uri: expected non-empty string");
    failures := failures + Fail(NonEmptyStr(Get(item.fields, "media_type")), "media_type: expected non-empty string");
    var digest := Get(item.fields, "digest");
    if !digest.Obj? {
      failures := failures + ["digest: expected digest object"];
    } else {
      failures := failures + Fail(Get(digest.fields, "alg") == Str("sha-256"), "digest.alg: expected sha-256");
      var value := Get(digest.fields, "value");
      failures := failures + Fail(value.Str? && IsSha256Hex(value.s), "digest.value: expected lowercase sha-256 hex digest");
      failures := failures + Fail(digest.fields.Keys <= DIGEST_FIELDS, "unsupported input digest field");
    }
    failures := failures + Fail(item.fields.Keys <= REFERENCE_FIELDS, "unsupported input artifact field");
    failures := failures + Fail(NonEmptyStr(Get(item.fields, "case_artifact")), "case_artifact: expected non-empty string");
    failures := failures + Fail(NonEmptyStr(Get(item.fields, "role")), "role: expected non-empty string");
  }

  /** A submitted reference agrees with a requirement. */
  predicate Matches(item: Json, r: Requirement) {
    && item.Obj?
    && (Get(item.fields, "digest").Obj? ==>
      r.digest.Some? && PyEq(Get(Get(item.fields, "digest").fields, "value"), Str(r.digest.value)))
    && PyEq(Get(item.fields, "uri"), r.uri) && PyEq(Get(item.fields, "media_type"), Str(r.mediaType))
  }

  method MatchFailures(item: Json, r: Requirement) returns (failures: seq<string>)
    requires item.Obj?
    ensures failures == [] <==> Matches(item, r)
  {
    failures := [];
    var digest := Get(item.fields, "digest");
    if digest.Obj? {
      if r.digest.None? {
        failures := ["digest.value: missing expected corpus digest"];
      } else {
        failures := Fail(PyEq(Get(digest.fields, "value"), Str(r.digest.value)), "digest.value: expected corpus digest");
      }
    }
    failures := failures + Fail(PyEq(Get(item.fields, "uri"), r.uri), "uri mismatch");
    failures := failures + Fail(PyEq(Get(item.fields, "media_type"), Str(r.mediaType)), "media_type mismatch");
  }

  predicate ReferencesOk(items: seq<Json>) {
    forall k :: 0 <= k < |items| ==> ReferenceOk(items[k])
  }

  /** `actual_by_key` maps every key to the entry that carries it. */
  ghost predicate ByKey(byKey: map<Key, Json>, items: seq<Json>) {
    && byKey.Keys == KeysOf(items, "case_artifact")
    && forall k :: 0 <= k < |items| && HasKey(items[k], "case_artifact") ==>
         byKey[KeyOf(items[k], "case_artifact")] == items[k]
  }

  lemma ByKeyStep(byKey: map<Key, Json>, items: seq<Json>, n: nat)
    requires n < |items| && ByKey(byKey, items[..n])
    ensures !HasKey(items[n], "case_artifact") ==> ByKey(byKey, items[..n + 1])
    ensures HasKey(items[n], "case_artifact") && KeyOf(items[n], "case_artifact") !in byKey ==>
      ByKey(byKey[KeyOf(items[n], "case_artifact") := items[n]], items[..n + 1])
  {
    KeysStep(items, "case_artifact", n);
    var before, after := items[..n], items[..n + 1];
    assert after == before + [items[n]];
    forall k | 0 <= k < n && HasKey(before[k], "case_artifact")
      ensures KeyOf(before[k], "case_artifact") in byKey && byKey[KeyOf(before[k], "case_artifact")] == before[k]
    {
      assert KeyOf(before[k], "case_artifact") in KeysOf(before, "case_artifact");
    }
  }

  /** The index `actual_by_key`, and the keys met twice. */
  method IndexInputs(items: seq<Json>) returns (failures: seq<string>, byKey: map<Key, Json>, duplicates: set<Key>)
    ensures failures == [] <==> DistinctKeys(items, "case_artifact")
    ensures failures == [] ==> duplicates == {} && ByKey(byKey, items)
    ensures forall key :: key in byKey ==> byKey[key].Obj?
  {
    failures, byKey, duplicates := [], map[], {};
    for n := 0 to |items|
      invariant failures == [] <==> DistinctKeys(items[..n], "case_artifact")
      invariant failures == [] ==> duplicates == {} && ByKey(byKey, items[..n])
      invariant byKey.Keys == KeysOf(items[..n], "case_artifact")
      invariant forall key :: key in byKey ==> byKey[key].Obj?
    {
      KeysStep(items, "case_artifact", n);
      if failures == [] { ByKeyStep(byKey, items, n); }
      if HasKey(items[n], "case_artifact") {
        var key := KeyOf(items[n], "case_artifact");
        if key in byKey {
          duplicates := duplicates + {key};
          failures := failures + ["duplicate logical input artifact key"];
        } else {
          byKey := byKey[key := items[n]];
        }
      }
    }
    assert items[..|items|] == items;
  }

  method ShapeFailures(items: seq<Json>) returns (failures: seq<string>)
    ensures failures == [] <==> ReferencesOk(items)
  {
    failures := [];
    for n := 0 to |items|
      invariant failures == [] <==> forall k :: 0 <= k < n ==> ReferenceOk(items[k])
    {
      var found := ReferenceFailures(items[n]);
      failures := failures + found;
    }
  }

  ghost predicate Satisfied(items: seq<Json>, r: Requirement) {
    exists k :: 0 <= k < |items| && HasKey(items[k], "case_artifact") && KeyOf(items[k], "case_artifact") == r.key
      && Matches(items[k], r)
  }

  function KeysRequired(required: seq<Requirement>): set<Key> {
    set k | 0 <= k < |required| :: required[k].key
  }

  /** What the checker accepts of the `input_artifacts` list. */
  ghost predicate InputsAccepted(items: seq<Json>, required: seq<Requirement>) {
    && ReferencesOk(items) && DistinctKeys(items, "case_artifact")
    && (forall k :: 0 <= k < |required| ==> Satisfied(items, required[k]))
    && KeysOf(items, "case_artifact") <= KeysRequired(required)
  }

  method RequiredInputs(items: seq<Json>, byKey: map<Key, Json>, duplicates: set<Key>, required: seq<Requirement>)
    returns (failures: seq<string>)
    requires forall key :: key in byKey ==> byKey[key].Obj?
    ensures duplicates == {} && ByKey(byKey, items) ==>
      (failures == [] <==> forall k :: 0 <= k < |required| ==> Satisfied(items, required[k]))
  {
    failures := [];
    ghost var known := duplicates == {} && ByKey(byKey, items);
    for n := 0 to |required|
      invariant known ==> (failures == [] <==> forall k :: 0 <= k < n ==> Satisfied(items, required[k]))
    {
      var r := required[n];
      if r.key in duplicates {
        continue;
      }
      if known { SatisfiedByKey(items, byKey, r); }
      if r.key !in byKey {
        failures := failures + ["missing case_artifact"];
        continue;
      }
      var found := MatchFailures(byKey[r.key], r);
      failures := failures + found;
    }
  }

  lemma SatisfiedByKey(items: seq<Json>, byKey: map<Key, Json>, r: Requirement)
    requires ByKey(byKey, items)
    ensures Satisfied(items, r) <==> r.key in byKey && Matches(byKey[r.key], r)
  {
    if r.key in byKey && Matches(byKey[r.key], r) {
      var k :| 0 <= k < |items| && HasKey(items[k], "case_artifact") && KeyOf(items[k], "case_artifact") == r.key;
      assert byKey[r.key] == items[k];
    }
  }

  /** `sut_result_artifact_failures` for a case that requires inputs. */
  method ResultArtifactFailures(result: Object, required: seq<Requirement>) returns (failures: seq<string>)
    requires required != []
    ensures failures == [] <==>
      var artifacts := Get(result, "artifacts");
      && artifacts.Obj? && artifacts.fields.Keys == {"input_artifacts"}
      && artifacts.fields["input_artifacts"].Arr? && artifacts.fields["input_artifacts"].items != []
      && InputsAccepted(artifacts.fields["input_artifacts"].items, required)
  {
    var artifacts := Get(result, "artifacts");
    if !artifacts.Obj? {
      return ["artifacts: expected object with required artifact references"];
    }
    failures := Fail(artifacts.fields.Keys <= {"input_artifacts"}, "not allowed when the case declares authoritative sut_inputs");
    var raw := Get(artifacts.fields, "input_artifacts");
    var items := [];
    if !raw.Arr? || raw.items == [] {
      failures := failures + ["artifacts.input_artifacts: required non-empty array for this case"];
    } else {
      items := ObjectsOf(raw.items);
      failures := failures + Fail(items == raw.items, "artifacts.input_artifacts: expected array of objects");
    }
    var shapes := ShapeFailures(items);
    var index, byKey, duplicates := IndexInputs(items);
    var matched := RequiredInputs(items, byKey, duplicates, required);
    var extra := Fail(byKey.Keys <= KeysRequired(required), "unexpected case_artifact");
    failures := failures + shapes + index + matched + extra;
    assert artifacts.fields.Keys <= {"input_artifacts"} && raw.Arr? ==> artifacts.fields.Keys == {"input_artifacts"};
    if raw.Arr? && ReferencesOk(raw.items) { AllObjects(raw.items); }
  }

  /** The entries of a list that are objects. */
  function ObjectsOf(items: seq<Json>): seq<Json> {
    if items == [] then [] else (if items[0].Obj? then [items[0]] else []) + ObjectsOf(items[1..])
  }

  lemma {:induction false} AllObjects(items: seq<Json>)
    requires ReferencesOk(items)
    ensures ObjectsOf(items) == items
  {
    if items != [] {
      assert ReferencesOk(items[1..]);
      AllObjects(items[1..]);
      assert items == [items[0]] + items[1..];
    }
  }

  // ---------------------------------------------------------------- exactly the permutations

  /** The reference a requirement asks for. */
  function ReferenceOf(r: Requirement): Json {
    Obj(map[
      "case_artifact" := Str(r.key.0), "role" := Str(r.key.1), "uri" := r.uri, "media_type" := Str(r.mediaType),
      "digest" := Obj(map["alg" := Str("sha-256"), "value" := DigestText(r.digest)])])
  }

  function DigestText(digest: Option<HexDigest>): Json {
    if digest.Some? then Str(digest.value) else Null
  }

  /** A requirement of a valid contract over readable artifacts at non-empty URIs. */
  predicate Complete(r: Requirement) {
    r.key.0 != "" && r.key.1 != "" && NonEmptyStr(r.uri) && r.mediaType != "" && r.digest.Some?
  }

  lemma ReferenceIsExact(item: Json, r: Requirement)
    requires Complete(r)
    ensures ReferenceOk(item) && KeyOf(item, "case_artifact") == r.key && Matches(item, r) <==> item == ReferenceOf(r)
  {
    var e := ReferenceOf(r);
    if ReferenceOk(item) && KeyOf(item, "case_artifact") == r.key && Matches(item, r) {
      assert item.fields.Keys == e.fields.Keys;
      var d := item.fields["digest"];
      assert d.fields.Keys == e.fields["digest"].fields.Keys;
      assert d.fields == e.fields["digest"].fields;
      assert item.fields == e.fields;
    }
  }

  predicate Distinct<T(==)>(s: seq<T>) {
    forall i, j :: 0 <= i < |s| && 0 <= j < |s| && s[i] == s[j] ==> i == j
  }

  lemma {:induction false} CountsOfDistinct<T>(s: seq<T>)
    ensures Distinct(s) <==> forall x :: multiset(s)[x] <= 1
  {
    if s != [] {
      var rest := s[1..];
      CountsOfDistinct(rest);
      assert s == [s[0]] + rest;
      DistinctStep(s);
      assert forall x :: multiset(s)[x] == multiset(rest)[x] + if x == s[0] then 1 else 0;
      assert s[0] in rest <==> multiset(rest)[s[0]] > 0;
    }
  }

  lemma DistinctStep<T>(s: seq<T>)
    requires s != []
    ensures Distinct(s) <==> Distinct(s[1..]) && s[0] !in s[1..]
  {
    var rest := s[1..];
    if Distinct(s) {
      forall i, j | 0 <= i < |rest| && 0 <= j < |rest| && rest[i] == rest[j] ensures i == j {
        assert s[i + 1] == s[j + 1];
      }
    } else {
      var i, j :| 0 <= i < |s| && 0 <= j < |s| && s[i] == s[j] && i != j;
      if i > 0 && j > 0 {
        assert rest[i - 1] == rest[j - 1];
      } else {
        assert rest[i + j - 1] == s[0];
      }
    }
  }

  lemma SameDistinctMembers<T>(s: seq<T>, t: seq<T>)
    requires Distinct(t)
    ensures multiset(s) == multiset(t) <==> Distinct(s) && forall x :: x in s <==> x in t
  {
    CountsOfDistinct(s);
    CountsOfDistinct(t);
    if multiset(s) == multiset(t) {
      forall x ensures x in s <==> x in t { assert x in multiset(s) <==> x in multiset(t); }
    }
    if Distinct(s) && forall x :: x in s <==> x in t {
      forall x ensures multiset(s)[x] == multiset(t)[x] {
        assert x in multiset(s) <==> x in s;
        assert x in multiset(t) <==> x in t;
      }
    }
  }

  /** Valid requirements over distinct keys. */
  predicate Wanted(required: seq<Requirement>) {
    && (forall k :: 0 <= k < |required| ==> Complete(required[k]))
    && forall i, j :: 0 <= i < |required| && 0 <= j < |required| && required[i].key == required[j].key ==> i == j
  }

  function References(required: seq<Requirement>): (r: seq<Json>)
    ensures |r| == |required| && forall k :: 0 <= k < |r| ==> r[k] == ReferenceOf(required[k])
  {
    seq(|required|, k requires 0 <= k < |required| => ReferenceOf(required[k]))
  }

  lemma ReferencesDistinct(required: seq<Requirement>)
    requires Wanted(required)
    ensures Distinct(References(required))
  {
    var refs := References(required);
    forall i, j | 0 <= i < |refs| && 0 <= j < |refs| && refs[i] == refs[j] ensures i == j {
      assert refs[i] == ReferenceOf(required[i]) && refs[j] == ReferenceOf(required[j]);
      assert refs[i].fields["case_artifact"] == refs[j].fields["case_artifact"];
      assert refs[i].fields["role"] == refs[j].fields["role"];
      assert required[i].key == required[j].key;
    }
  }

  lemma AcceptedItem(items: seq<Json>, required: seq<Requirement>, i: nat) returns (k: nat)
    requires Wanted(required) && InputsAccepted(items, required) && i < |items|
    ensures k < |required| && items[i] == ReferenceOf(required[k])
  {
    assert ReferenceOk(items[i]);
    assert KeyOf(items[i], "case_artifact") in KeysOf(items, "case_artifact");
    k :| 0 <= k < |required| && required[k].key == KeyOf(items[i], "case_artifact");
    assert Satisfied(items, required[k]);
    var j :| 0 <= j < |items| && HasKey(items[j], "case_artifact") && KeyOf(items[j], "case_artifact") == required[k].key
      && Matches(items[j], required[k]);
    assert SameKey(items[i], items[j], "case_artifact");
    ReferenceIsExact(items[i], required[k]);
  }

  lemma AcceptedIsPermutation(items: seq<Json>, required: seq<Requirement>)
    requires Wanted(required) && InputsAccepted(items, required)
    ensures multiset(items) == multiset(References(required))
  {
    var refs := References(required);
    ReferencesDistinct(required);
    forall i, j | 0 <= i < |items| && 0 <= j < |items| && items[i] == items[j] ensures i == j {
      assert ReferenceOk(items[i]);
      assert SameKey(items[i], items[j], "case_artifact");
    }
    forall x ensures x in items <==> x in refs {
      if x in items {
        var i :| 0 <= i < |items| && items[i] == x;
        var k := AcceptedItem(items, required, i);
        assert refs[k] == x;
      }
      if x in refs {
        var k :| 0 <= k < |refs| && refs[k] == x;
        assert Satisfied(items, required[k]);
        var j :| 0 <= j < |items| && HasKey(items[j], "case_artifact") && KeyOf(items[j], "case_artifact") == required[k].key
      && Matches(items[j], required[k]);
        assert ReferenceOk(items[j]);
        ReferenceIsExact(items[j], required[k]);
      }
    }
    SameDistinctMembers(items, refs);
  }

  lemma PermutationIsAccepted(items: seq<Json>, required: seq<Requirement>)
    requires Wanted(required) && multiset(items) == multiset(References(required))
    ensures InputsAccepted(items, required)
  {
    var refs := References(required);
    ReferencesDistinct(required);
    SameDistinctMembers(items, refs);
    forall i | 0 <= i < |items|
      ensures exists k :: 0 <= k < |required| && items[i] == ReferenceOf(required[k])
    {
      assert items[i] in refs;
      var k :| 0 <= k < |refs| && refs[k] == items[i];
    }
    forall k | 0 <= k < |required|
      ensures ReferenceOk(ReferenceOf(required[k])) && KeyOf(ReferenceOf(required[k]), "case_artifact") == required[k].key
      ensures Matches(ReferenceOf(required[k]), required[k])
    {
      ReferenceIsExact(ReferenceOf(required[k]), required[k]);
    }
    forall i, j | 0 <= i < |items| && 0 <= j < |items| && SameKey(items[i], items[j], "case_artifact") ensures i == j {
      var k :| 0 <= k < |required| && items[i] == ReferenceOf(required[k]);
      var l :| 0 <= l < |required| && items[j] == ReferenceOf(required[l]);
      assert required[k].key == required[l].key;
    }
    forall k | 0 <= k < |required| ensures Satisfied(items, required[k]) {
      assert refs[k] in items;
      var j :| 0 <= j < |items| && items[j] == refs[k];
    }
    forall key | key in KeysOf(items, "case_artifact") ensures key in KeysRequired(required) {
      var i :| 0 <= i < |items| && HasKey(items[i], "case_artifact") && KeyOf(items[i], "case_artifact") == key;
      var k :| 0 <= k < |required| && items[i] == ReferenceOf(required[k]);
    }
  }

  /** The accepted lists are exactly the permutations of the required references. */
  lemma AcceptedIffPermutation(items: seq<Json>, required: seq<Requirement>)
    requires Wanted(required)
    ensures InputsAccepted(items, required) <==> multiset(items) == multiset(References(required))
  {
    if InputsAccepted(items, required) { AcceptedIsPermutation(items, required); }
    if multiset(items) == multiset(References(required)) { PermutationIsAccepted(items, required); }
  }

  // ---------------------------------------------------------------- from contract to requirements

  /** Every declared artifact is readable and sits at a non-empty URI. */
  ghost predicate Readable(artifacts: Object, items: seq<Json>, digestOf: string -> Option<HexDigest>) {
    forall k :: 0 <= k < |items| && HasKey(items[k], "artifact") ==>
      digestOf(KeyOf(items[k], "artifact").0).Some? && NonEmptyStr(Get(artifacts, KeyOf(items[k], "artifact").0))
  }

  predicate DerivedFrom(r: Requirement, artifacts: Object, item: Json, digestOf: string -> Option<HexDigest>) {
    && HasKey(item, "artifact") && NonEmptyStr(Get(item.fields, "media_type"))
    && r == Requirement(KeyOf(item, "artifact"), Get(artifacts, KeyOf(item, "artifact").0),
              Get(item.fields, "media_type").s, digestOf(KeyOf(item, "artifact").0))
  }

  lemma {:induction false} RequirementOf(artifacts: Object, items: seq<Json>, digestOf: string -> Option<HexDigest>)
    requires InputsOk(artifacts, items)
    ensures |Requirements(artifacts, items, digestOf)| == |items|
    ensures forall k :: 0 <= k < |items| ==> DerivedFrom(Requirements(artifacts, items, digestOf)[k], artifacts, items[k], digestOf)
  {
    if items != [] {
      assert InputOk(artifacts, items[0]);
      forall k | 0 <= k < |items[1..]| ensures InputOk(artifacts, items[1..][k]) { assert InputOk(artifacts, items[k + 1]); }
      RequirementOf(artifacts, items[1..], digestOf);
    }
  }

  /** A valid contract over readable artifacts yields distinct, complete requirements. */
  lemma ContractIsWanted(c: Object, digestOf: string -> Option<HexDigest>)
    requires ContractOk(c) && "sut_inputs" in c
    requires Readable(Get(c, "artifacts").fields, c["sut_inputs"].items, digestOf)
    ensures var r := Requirements(Get(c, "artifacts").fields, c["sut_inputs"].items, digestOf); Wanted(r) && r != []
  {
    var artifacts, items := Get(c, "artifacts").fields, c["sut_inputs"].items;
    RequirementOf(artifacts, items, digestOf);
    var r := Requirements(artifacts, items, digestOf);
    forall i, j | 0 <= i < |r| && 0 <= j < |r| && r[i].key == r[j].key ensures i == j {
      assert SameKey(items[i], items[j], "artifact");
    }
    forall k | 0 <= k < |r| ensures Complete(r[k]) { assert InputOk(artifacts, items[k]); }
  }

  /** For a case with a valid contract over readable artifacts, a submission
      passes exactly when its only entry is a list of the required references
      in some order.  */
  method CheckSubmission(c: Object, digestOf: string -> Option<HexDigest>, result: Object) returns (failures: seq<string>)
    requires ContractOk(c) && "sut_inputs" in c
    requires Readable(Get(c, "artifacts").fields, c["sut_inputs"].items, digestOf)
    ensures (ContractIsWanted(c, digestOf);
      failures == [] <==>
        var artifacts := Get(result, "artifacts");
        && artifacts.Obj? && artifacts.fields.Keys == {"input_artifacts"} && artifacts.fields["input_artifacts"].Arr?
        && multiset(artifacts.fields["input_artifacts"].items)
           == multiset(References(Requirements(Get(c, "artifacts").fields, c["sut_inputs"].items, digestOf))))
  {
    var required := Requirements(Get(c, "artifacts").fields, c["sut_inputs"].items, digestOf);
    ContractIsWanted(c, digestOf);
    failures := ResultArtifactFailures(result, required);
    var artifacts := Get(result, "artifacts");
    if artifacts.Obj? && artifacts.fields.Keys == {"input_artifacts"} && artifacts.fields["input_artifacts"].Arr? {
      AcceptedIffPermutation(artifacts.fields["input_artifacts"].items, required);
      assert |multiset(References(required))| > 0;
    }
  }
}

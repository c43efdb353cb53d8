/** `corpus_pairing_failures`: the pairing relation between corpus cases. */
module Pairing {
  import opened Json

  const PAIRING_ROLES := {"positive", "negative"}

  const FORBIDDEN_STABLE_FIELDS := {
    "request_id", "transaction_id", "input_hash", "correlation.mcp_session_id",
    "correlation.mcp_request_id", "evidence_refs.uri", "evidence_refs.digest",
    "receipt_id", "proof.signature_ref"
  }

  const REQUIRED_FIELDS := ["pair_id", "role", "paired_case_id", "mutation_axis", "stable_fields", "mutated_fields"]

  const MATCHED_FIELDS := ["pair_id", "mutation_axis", "stable_fields", "mutated_fields"]

  function Id(c: Object): Json { Get(c, "case_id") }

  /** The pairing block of a case whose block is an object. */
  function Block(c: Object): Object {
    if Get(c, "pairing").Obj? then Get(c, "pairing").fields else map[]
  }

  predicate Paired(c: Object) { Get(c, "pairing") != Null }

  function PartnerId(c: Object): Json { Get(Block(c), "paired_case_id") }

  function StringSet(j: Json): set<string> {
    if j.Arr? then set k | 0 <= k < |j.items| && j.items[k].Str? :: j.items[k].s else {}
  }

  /** What `pairing_string_array_failures` accepts. */
  predicate DistinctStrings(j: Json) {
    NonEmptyStrings(j) && j.items != [] &&
    forall x, y :: 0 <= x < y < |j.items| ==> j.items[x] != j.items[y]
  }

  predicate TextShape(c: Object) {
    var b := Block(c);
    && NonEmptyStr(Get(b, "pair_id")) && NonEmptyStr(Get(b, "mutation_axis")) && NonEmptyStr(PartnerId(c))
    && StrIn(Get(b, "role"), PAIRING_ROLES) && Get(c, "category") == Get(b, "role")
  }

  predicate FieldShape(b: Object) {
    && DistinctStrings(Get(b, "stable_fields")) && DistinctStrings(Get(b, "mutated_fields"))
    && StringSet(Get(b, "stable_fields")) !! StringSet(Get(b, "mutated_fields"))
    && StringSet(Get(b, "stable_fields")) !! FORBIDDEN_STABLE_FIELDS
  }

  /** The checks made on one case on its own. */
  predicate WellShaped(c: Object) {
    Get(c, "pairing").Obj? && TextShape(c) && FieldShape(Block(c))
  }

  /** The checks made on a case against the case it names as its partner. */
  predicate Reciprocal(c: Object, d: Object) {
    && Id(d) != Id(c)
    && Get(d, "pairing").Obj?
    && PyEq(PartnerId(d), Id(c))
    && !(StrIn(Get(Block(d), "role"), PAIRING_ROLES) && Get(Block(d), "role") == Get(Block(c), "role"))
    && Agree(c, d, "pair_id") && Agree(c, d, "mutation_axis")
    && Agree(c, d, "stable_fields") && Agree(c, d, "mutated_fields")
  }

  predicate Agree(c: Object, d: Object, field: string) {
    PyEq(Get(Block(d), field), Get(Block(c), field))
  }

  /** Case ids are non-empty strings and no two cases share one. */
  ghost predicate DistinctIds(cs: seq<Object>) {
    && (forall i :: 0 <= i < |cs| ==> NonEmptyStr(Id(cs[i])))
    && forall i, j :: 0 <= i < |cs| && 0 <= j < |cs| && Id(cs[i]) == Id(cs[j]) ==> i == j
  }

  ghost predicate HasPartner(cs: seq<Object>, i: nat)
    requires i < |cs|
  {
    exists j :: 0 <= j < |cs| && Id(cs[j]) == PartnerId(cs[i]) && Reciprocal(cs[i], cs[j])
  }

  /** What the checker asks of the case at position i. */
  ghost predicate CaseMatched(cs: seq<Object>, i: nat)
    requires i < |cs|
  {
    Paired(cs[i]) ==> WellShaped(cs[i]) && HasPartner(cs, i)
  }

  ghost predicate Matched(cs: seq<Object>) {
    forall i :: 0 <= i < |cs| ==> CaseMatched(cs, i)
  }

  ghost predicate ExactClass(cs: seq<Object>, i: nat)
    requires i < |cs|
  {
    Paired(cs[i]) ==> PairClass(cs, i) == {i, PartnerIndex(cs, i)}
  }

  /** The paired cases that carry the pair_id of case i. */
  ghost function PairClass(cs: seq<Object>, i: nat): set<nat>
    requires i < |cs|
  {
    set j: nat | j < |cs| && Paired(cs[j]) && Get(Block(cs[j]), "pair_id") == Get(Block(cs[i]), "pair_id")
  }

  /** The declarative reading: pairing is a reciprocal relation whose pair_id
      classes are exactly a case and its partner.  */
  ghost predicate PairingSound(cs: seq<Object>) {
    && DistinctIds(cs)
    && Matched(cs)
    && forall i :: 0 <= i < |cs| ==> ExactClass(cs, i)
  }

  /** The position of the partner of case i. */
  ghost function PartnerIndex(cs: seq<Object>, i: nat): (j: nat)
    requires i < |cs|
  {
    if HasPartner(cs, i)
    then var j :| 0 <= j < |cs| && Id(cs[j]) == PartnerId(cs[i]) && Reciprocal(cs[i], cs[j]); j
    else i
  }

  // ---------------------------------------------------------------- the checker

  /** `byId` and `ids` list every case under its own id. */
  ghost predicate Indexed(cs: seq<Object>, byId: map<string, Object>, ids: seq<string>) {
    && DistinctIds(cs) && |ids| == |cs|
    && (forall i :: 0 <= i < |cs| ==> Id(cs[i]) == Str(ids[i]) && ids[i] in byId && byId[ids[i]] == cs[i])
    && (forall k :: k in byId ==> k in ids)
  }

  /** The cases kept in `cases_by_id`: the first one under each usable id. */
  method IndexCases(cs: seq<Object>) returns (failures: seq<string>, byId: map<string, Object>, ids: seq<string>)
    ensures failures == [] <==> DistinctIds(cs)
    ensures failures == [] ==> Indexed(cs, byId, ids)
    ensures forall k :: k in ids ==> k in byId
    ensures forall k :: k in byId ==> Id(byId[k]) == Str(k)
  {
    failures, byId, ids := [], map[], [];
    for n := 0 to |cs|
      invariant failures == [] <==> DistinctIds(cs[..n])
      invariant failures == [] ==> |ids| == n
      invariant failures == [] ==> forall i :: 0 <= i < n ==>
        Id(cs[i]) == Str(ids[i]) && ids[i] in byId && byId[ids[i]] == cs[i]
      invariant forall k :: k in byId ==> k in ids && Id(byId[k]) == Str(k)
      invariant forall i :: 0 <= i < |ids| ==> ids[i] in byId
      invariant forall k :: k in ids ==> exists i :: 0 <= i < n && Id(cs[i]) == Str(k)
    {
      assert cs[..n + 1] == cs[..n] + [cs[n]];
      var id := Id(cs[n]);
      if !NonEmptyStr(id) {
        failures := failures + ["missing string case_id"];
        assert !NonEmptyStr(Id(cs[..n + 1][n]));
      } else if id.s in byId {
        failures := failures + ["case_id " + id.s + ": duplicate case id"];
        var i :| 0 <= i < n && Id(cs[i]) == Str(id.s);
        assert Id(cs[..n + 1][i]) == Id(cs[..n + 1][n]);
      } else {
        if failures == [] {
          forall i | 0 <= i < n ensures Id(cs[i]) != Id(cs[n]) { assert ids[i] in byId; }
        }
        byId := byId[id.s := cs[n]];
        ids := ids + [id.s];
        if DistinctIds(cs[..n + 1]) {
          forall i | 0 <= i < n ensures NonEmptyStr(Id(cs[..n][i])) { assert cs[..n][i] == cs[..n + 1][i]; }
          forall i, j | 0 <= i < n && 0 <= j < n && Id(cs[..n][i]) == Id(cs[..n][j]) ensures i == j {
            assert cs[..n][i] == cs[..n + 1][i] && cs[..n][j] == cs[..n + 1][j];
          }
        }
      }
    }
    assert cs[..|cs|] == cs;
  }

  function Fail(ok: bool, message: string): seq<string> {
    if ok then [] else [message]
  }

  method StringArrayFailures(at: string, b: Object, field: string) returns (failures: seq<string>)
    ensures failures == [] <==> DistinctStrings(Get(b, field))
  {
    var value := Get(b, field);
    if !value.Arr? {
      return [at + field + ": expected non-empty string array"];
    }
    failures := Fail(value.items != [], at + field + ": expected at least one field");
    for n := 0 to |value.items|
      invariant failures == [] <==> value.items != [] && forall k :: 0 <= k < n ==> NonEmptyStr(value.items[k])
    {
      failures := failures + Fail(NonEmptyStr(value.items[n]), at + field + ": expected non-empty string");
    }
    var duplicated := exists x, y :: 0 <= x < y < |value.items| && value.items[x].Str? && value.items[x] == value.items[y];
    failures := failures + Fail(!duplicated, at + field + ": duplicate field names are not allowed");
  }

  method RequiredFailures(at: string, b: Object) returns (failures: seq<string>)
    ensures failures == [] <==> forall f :: f in REQUIRED_FIELDS ==> f in b
  {
    failures := [];
    for n := 0 to |REQUIRED_FIELDS|
      invariant failures == [] <==> forall k :: 0 <= k < n ==> REQUIRED_FIELDS[k] in b
    {
      failures := failures + Fail(REQUIRED_FIELDS[n] in b, at + "." + REQUIRED_FIELDS[n] + ": required");
    }
  }

  method TextFailures(at: string, c: Object) returns (failures: seq<string>)
    ensures failures == [] <==> TextShape(c)
  {
    var b := Block(c);
    failures := Fail(NonEmptyStr(Get(b, "pair_id")), at + ".pair_id: expected non-empty string");
    failures := failures + Fail(NonEmptyStr(Get(b, "role")), at + ".role: expected non-empty string");
    failures := failures + Fail(NonEmptyStr(PartnerId(c)), at + ".paired_case_id: expected non-empty string");
    failures := failures + Fail(NonEmptyStr(Get(b, "mutation_axis")), at + ".mutation_axis: expected non-empty string");
    var role, category := Get(b, "role"), Get(c, "category");
    failures := failures + Fail(!role.Str? || role.s in PAIRING_ROLES, at + ".role: expected one of the roles");
    if !StrIn(category, PAIRING_ROLES) {
      failures := failures + [at + ".category: expected positive or negative case category"];
    } else {
      failures := failures + Fail(!StrIn(role, PAIRING_ROLES) || role == category, at + ".role: expected the category");
    }
  }

  lemma NothingShared(a: set<string>, b: set<string>)
    ensures a * b == {} <==> a !! b
  {
    if a * b == {} {
      forall x | x in a ensures x !in b {
        assert x in b ==> x in a * b;
      }
    }
    if a !! b {
      forall x ensures x !in a * b {}
    }
  }

  method OverlapFailures(at: string, stable: set<string>, mutated: set<string>) returns (failures: seq<string>)
    ensures failures == [] <==> stable !! mutated && stable !! FORBIDDEN_STABLE_FIELDS
  {
    NothingShared(stable, mutated);
    NothingShared(stable, FORBIDDEN_STABLE_FIELDS);
    failures := Fail(stable * mutated == {}, at + ": stable_fields and mutated_fields overlap");
    failures := failures + Fail(stable * FORBIDDEN_STABLE_FIELDS == {}, at + ".stable_fields: fixture identity fields");
  }

  method FieldFailures(at: string, b: Object) returns (failures: seq<string>)
    ensures failures == [] <==> FieldShape(b)
  {
    var stable := StringArrayFailures(at, b, "stable_fields");
    var mutated := StringArrayFailures(at, b, "mutated_fields");
    failures := stable + mutated;
    var stableFields, mutatedFields := Get(b, "stable_fields"), Get(b, "mutated_fields");
    if stableFields.Arr? && mutatedFields.Arr? {
      var overlap := OverlapFailures(at, StringSet(stableFields), StringSet(mutatedFields));
      failures := failures + overlap;
    }
  }

  method ShapeFailures(at: string, c: Object) returns (failures: seq<string>)
    requires Paired(c)
    ensures failures == [] <==> WellShaped(c)
  {
    if !Get(c, "pairing").Obj? {
      return [at + ": expected object"];
    }
    var required := RequiredFailures(at, Block(c));
    var text := TextFailures(at, c);
    var fields := FieldFailures(at, Block(c));
    failures := required + text + fields;
  }

  method RoleFailures(at: string, role: Json, pairedRole: Json) returns (failures: seq<string>)
    ensures failures == [] <==> !(StrIn(pairedRole, PAIRING_ROLES) && pairedRole == role)
  {
    var sameRole := StrIn(role, PAIRING_ROLES) && StrIn(pairedRole, PAIRING_ROLES) && role == pairedRole;
    failures := Fail(!sameRole, at + ".role: paired case must use the opposite role");
  }

  method MatchedFailures(at: string, c: Object, d: Object) returns (failures: seq<string>)
    ensures failures == [] <==>
      (Agree(c, d, "pair_id") && Agree(c, d, "mutation_axis") && Agree(c, d, "stable_fields") && Agree(c, d, "mutated_fields"))
  {
    failures := [];
    for n := 0 to |MATCHED_FIELDS|
      invariant failures == [] <==> forall k :: 0 <= k < n ==> Agree(c, d, MATCHED_FIELDS[k])
    {
      var f := MATCHED_FIELDS[n];
      failures := failures + Fail(Agree(c, d, f), at + "." + f + ": does not match paired case");
    }
    assert MATCHED_FIELDS[0] == "pair_id" && MATCHED_FIELDS[1] == "mutation_axis";
    assert MATCHED_FIELDS[2] == "stable_fields" && MATCHED_FIELDS[3] == "mutated_fields";
  }

  /** The cross-reference checks of one case; `known` is `cases_by_id`. */
  method PartnerFailures(at: string, c: Object, known: map<string, Object>) returns (failures: seq<string>)
    requires Id(c).Str?
    requires forall k :: k in known ==> Id(known[k]) == Str(k)
    ensures Get(c, "pairing").Obj? && NonEmptyStr(PartnerId(c)) ==>
      (failures == [] <==> PartnerId(c).s in known && Reciprocal(c, known[PartnerId(c).s]))
  {
    var partner := PartnerId(c);
    if !Get(c, "pairing").Obj? || !NonEmptyStr(partner) {
      return [];
    }
    if partner == Id(c) {
      return [at + ".paired_case_id: must not point to itself"];
    }
    if partner.s !in known {
      return [at + ".paired_case_id: unknown case_id " + partner.s];
    }
    var d := known[partner.s];
    if !Get(d, "pairing").Obj? {
      return [at + ".paired_case_id: paired case has no pairing object"];
    }
    failures := Fail(PyEq(PartnerId(d), Id(c)), at + ": paired case does not point back");
    var sameRole := RoleFailures(at, Get(Block(c), "role"), Get(Block(d), "role"));
    failures := failures + sameRole;
    var unmatched := MatchedFailures(at, c, d);
    failures := failures + unmatched;
  }

  /** The ids in `pair_members` under one pair_id. */
  ghost function Members(cs: seq<Object>, pairId: string): set<string> {
    set i | 0 <= i < |cs| && Paired(cs[i]) && Get(Block(cs[i]), "pair_id") == Str(pairId) && Id(cs[i]).Str? :: Id(cs[i]).s
  }

  lemma PartnerFacts(cs: seq<Object>, i: nat)
    requires DistinctIds(cs) && i < |cs| && Paired(cs[i]) && CaseMatched(cs, i)
    ensures var j := PartnerIndex(cs, i);
      && j < |cs| && j != i && Id(cs[j]) == PartnerId(cs[i]) && Reciprocal(cs[i], cs[j])
      && Paired(cs[j]) && Get(Block(cs[j]), "pair_id") == Get(Block(cs[i]), "pair_id")
  {
    var j := PartnerIndex(cs, i);
    assert Agree(cs[i], cs[j], "pair_id");
  }

  /** Membership in a class and in its id set are the same thing. */
  lemma MemberIds(cs: seq<Object>, i: nat, pairId: string)
    requires DistinctIds(cs) && i < |cs| && Get(Block(cs[i]), "pair_id") == Str(pairId)
    ensures forall k :: k in PairClass(cs, i) ==> Id(cs[k]).Str? && Id(cs[k]).s in Members(cs, pairId)
    ensures forall s :: s in Members(cs, pairId) ==> exists k :: k in PairClass(cs, i) && Id(cs[k]) == Str(s)
  {
    forall s | s in Members(cs, pairId) ensures exists k :: k in PairClass(cs, i) && Id(cs[k]) == Str(s) {
      var k :| 0 <= k < |cs| && Paired(cs[k]) && Get(Block(cs[k]), "pair_id") == Str(pairId) && Id(cs[k]).Str? && Id(cs[k]).s == s;
      assert k in PairClass(cs, i);
    }
  }

  lemma SameCase(cs: seq<Object>, k: nat, i: nat)
    requires DistinctIds(cs) && k < |cs| && i < |cs| && Id(cs[k]) == Id(cs[i])
    ensures k == i
  {}

  lemma TwoElements<T>(m: set<T>, x: T, y: T)
    requires x in m && y in m && x != y
    ensures |m| == 2 <==> m == {x, y}
  {
    assert |m - {x, y}| == |m| - 2;
    if |m| == 2 { assert m - {x, y} == {}; }
  }

  /** An id set of two is a class of two: positions and ids correspond. */
  lemma ClassOfTwo(cs: seq<Object>, i: nat, j: nat, pairId: string)
    requires DistinctIds(cs) && i < |cs| && j < |cs| && i != j && Get(Block(cs[i]), "pair_id") == Str(pairId)
    requires {i, j} <= PairClass(cs, i)
    ensures |Members(cs, pairId)| == 2 <==> PairClass(cs, i) == {i, j}
  {
    MemberIds(cs, i, pairId);
    assert NonEmptyStr(Id(cs[i])) && NonEmptyStr(Id(cs[j]));
    if Id(cs[i]) == Id(cs[j]) { SameCase(cs, i, j); }
    var m, c := Members(cs, pairId), PairClass(cs, i);
    var x, y := Id(cs[i]).s, Id(cs[j]).s;
    TwoElements(m, x, y);
    if m == {x, y} {
      forall k | k in c ensures k in {i, j} {
        assert Id(cs[k]).s in m;
        if Id(cs[k]).s == x { SameCase(cs, k, i); } else { SameCase(cs, k, j); }
      }
    }
    if c == {i, j} {
      forall s | s in m ensures s in {x, y} {
        var k :| k in c && Id(cs[k]) == Str(s);
      }
    }
  }

  /** `len(members) != 2` is the right test for "exactly the two partners". */
  lemma MembersOfPair(cs: seq<Object>, i: nat)
    requires DistinctIds(cs) && i < |cs| && Paired(cs[i]) && CaseMatched(cs, i)
    ensures |Members(cs, Get(Block(cs[i]), "pair_id").s)| == 2 <==> ExactClass(cs, i)
  {
    PartnerFacts(cs, i);
    ClassOfTwo(cs, i, PartnerIndex(cs, i), Get(Block(cs[i]), "pair_id").s);
  }

  lemma MembersStep(cs: seq<Object>, n: nat, p: string)
    requires n < |cs|
    ensures Members(cs[..n + 1], p) == Members(cs[..n], p) +
      if Paired(cs[n]) && Get(Block(cs[n]), "pair_id") == Str(p) && Id(cs[n]).Str? then {Id(cs[n]).s} else {}
  {
    var before, after := cs[..n], cs[..n + 1];
    assert after == before + [cs[n]];
    forall s | s in Members(before, p) ensures s in Members(after, p) {
      var i :| 0 <= i < n && Paired(before[i]) && Get(Block(before[i]), "pair_id") == Str(p) && Id(before[i]) == Str(s);
      assert after[i] == before[i];
    }
    if Paired(cs[n]) && Get(Block(cs[n]), "pair_id") == Str(p) && Id(cs[n]).Str? {
      assert after[n] == cs[n];
    }
  }

  /** `pair_members` after the cases `cs`. */
  ghost predicate MembersKnown(members: map<string, set<string>>, cs: seq<Object>) {
    forall p :: if p in members then p != "" && members[p] == Members(cs, p) && members[p] != {}
                else p != "" ==> Members(cs, p) == {}
  }

  function AddMember(members: map<string, set<string>>, p: string, id: string): map<string, set<string>> {
    members[p := (if p in members then members[p] else {}) + {id}]
  }

  lemma MembersKnownStep(members: map<string, set<string>>, cs: seq<Object>, n: nat, id: string)
    requires n < |cs| && MembersKnown(members, cs[..n]) && Id(cs[n]) == Str(id)
    ensures var pairId := Get(Block(cs[n]), "pair_id");
      MembersKnown(if Paired(cs[n]) && NonEmptyStr(pairId) then AddMember(members, pairId.s, id) else members, cs[..n + 1])
  {
    var pairId := Get(Block(cs[n]), "pair_id");
    var after := if Paired(cs[n]) && NonEmptyStr(pairId) then AddMember(members, pairId.s, id) else members;
    forall p ensures if p in after then p != "" && after[p] == Members(cs[..n + 1], p) && after[p] != {}
                     else p != "" ==> Members(cs[..n + 1], p) == {} {
      MembersStep(cs, n, p);
    }
  }

  /** One step of the first pass: nothing is asked of an unpaired case. */
  method ShapeOf(id: string, c: Object) returns (failures: seq<string>, pairId: Option<string>)
    ensures failures == [] <==> (Paired(c) ==> WellShaped(c))
    ensures pairId == if Paired(c) && NonEmptyStr(Get(Block(c), "pair_id")) then Some(Get(Block(c), "pair_id").s) else None
  {
    failures, pairId := [], None;
    if Paired(c) {
      failures := ShapeFailures(id + ".pairing", c);
      if NonEmptyStr(Get(Block(c), "pair_id")) {
        pairId := Some(Get(Block(c), "pair_id").s);
      }
    }
  }

  /** First pass: each paired case on its own; `members` is `pair_members`. */
  method ShapePass(cs: seq<Object>, byId: map<string, Object>, ids: seq<string>)
    returns (failures: seq<string>, members: map<string, set<string>>)
    requires forall k :: k in ids ==> k in byId
    ensures Indexed(cs, byId, ids) ==>
      (failures == [] <==> forall i :: 0 <= i < |cs| && Paired(cs[i]) ==> WellShaped(cs[i]))
    ensures Indexed(cs, byId, ids) ==> MembersKnown(members, cs)
  {
    failures, members := [], map[];
    ghost var indexed := Indexed(cs, byId, ids);
    for n := 0 to |ids|
      invariant indexed ==> (failures == [] <==> forall i :: 0 <= i < n && Paired(cs[i]) ==> WellShaped(cs[i]))
      invariant indexed ==> MembersKnown(members, cs[..n])
    {
      var c := byId[ids[n]];
      if indexed {
        assert c == cs[n];
        MembersKnownStep(members, cs, n, ids[n]);
      }
      var shape, pairId := ShapeOf(ids[n], c);
      failures := failures + shape;
      if pairId.Some? {
        members := AddMember(members, pairId.value, ids[n]);
      }
    }
    assert cs[..|cs|] == cs;
  }

  lemma PartnerLookup(cs: seq<Object>, byId: map<string, Object>, ids: seq<string>, i: nat)
    requires Indexed(cs, byId, ids) && i < |cs| && PartnerId(cs[i]).Str?
    ensures HasPartner(cs, i) <==> PartnerId(cs[i]).s in byId && Reciprocal(cs[i], byId[PartnerId(cs[i]).s])
  {
    var p := PartnerId(cs[i]).s;
    if HasPartner(cs, i) {
      var j :| 0 <= j < |cs| && Id(cs[j]) == PartnerId(cs[i]) && Reciprocal(cs[i], cs[j]);
      assert ids[j] == p;
    }
    if p in byId && Reciprocal(cs[i], byId[p]) {
      var j :| 0 <= j < |ids| && ids[j] == p;
      assert Id(cs[j]) == PartnerId(cs[i]) && Reciprocal(cs[i], cs[j]);
    }
  }

  ghost predicate AllShaped(cs: seq<Object>) {
    forall i :: 0 <= i < |cs| && Paired(cs[i]) ==> WellShaped(cs[i])
  }

  lemma PartnerStep(cs: seq<Object>, byId: map<string, Object>, ids: seq<string>, n: nat)
    requires Indexed(cs, byId, ids) && AllShaped(cs) && n < |cs|
    ensures ids[n] in byId && byId[ids[n]] == cs[n]
    ensures !Paired(cs[n]) ==> CaseMatched(cs, n)
    ensures Paired(cs[n]) ==> WellShaped(cs[n])
    ensures Paired(cs[n]) ==>
      (CaseMatched(cs, n) <==> PartnerId(cs[n]).s in byId && Reciprocal(cs[n], byId[PartnerId(cs[n]).s]))
  {
    if Paired(cs[n]) {
      assert WellShaped(cs[n]);
      PartnerLookup(cs, byId, ids, n);
    }
  }

  /** One step of the second pass: nothing is asked of an unpaired case. */
  method PartnerOf(id: string, c: Object, known: map<string, Object>) returns (failures: seq<string>)
    requires Id(c).Str?
    requires forall k :: k in known ==> Id(known[k]) == Str(k)
    ensures !Paired(c) ==> failures == []
    ensures Paired(c) && WellShaped(c) ==>
      (failures == [] <==> PartnerId(c).s in known && Reciprocal(c, known[PartnerId(c).s]))
  {
    failures := [];
    if Paired(c) {
      failures := PartnerFailures(id + ".pairing", c, known);
    }
  }

  /** Second pass: each paired case against the case it names. */
  method PartnerPass(cs: seq<Object>, byId: map<string, Object>, ids: seq<string>) returns (failures: seq<string>)
    requires forall k :: k in ids ==> k in byId
    requires forall k :: k in byId ==> Id(byId[k]) == Str(k)
    ensures Indexed(cs, byId, ids) && AllShaped(cs) ==> (failures == [] <==> Matched(cs))
  {
    failures := [];
    ghost var shaped := Indexed(cs, byId, ids) && AllShaped(cs);
    for n := 0 to |ids|
      invariant shaped ==> (failures == [] <==> forall i :: 0 <= i < n ==> CaseMatched(cs, i))
    {
      var partner := PartnerOf(ids[n], byId[ids[n]], byId);
      failures := failures + partner;
      if shaped { PartnerStep(cs, byId, ids, n); }
    }
  }

  /** Last pass: every pair_id must have exactly two members. */
  method ClassPass(members: map<string, set<string>>) returns (failures: seq<string>)
    ensures failures == [] <==> forall p :: p in members ==> |members[p]| == 2
  {
    failures := [];
    var left := members.Keys;
    while left != {}
      invariant left <= members.Keys
      invariant failures == [] <==> forall p :: p in members && p !in left ==> |members[p]| == 2
      decreases |left|
    {
      var p :| p in left;
      failures := failures + Fail(|members[p]| == 2, "pairing " + p + ": expected exactly 2 cases");
      left := left - {p};
    }
  }

  lemma ClassesExact(cs: seq<Object>, members: map<string, set<string>>)
    requires DistinctIds(cs) && Matched(cs) && MembersKnown(members, cs)
    ensures (forall p :: p in members ==> |members[p]| == 2) <==> forall i :: 0 <= i < |cs| ==> ExactClass(cs, i)
  {
    forall i | 0 <= i < |cs| && Paired(cs[i])
      ensures Get(Block(cs[i]), "pair_id").Str? && Get(Block(cs[i]), "pair_id").s in members
      ensures |members[Get(Block(cs[i]), "pair_id").s]| == 2 <==> ExactClass(cs, i)
    {
      assert CaseMatched(cs, i);
      var p := Get(Block(cs[i]), "pair_id").s;
      assert NonEmptyStr(Id(cs[i]));
      assert Id(cs[i]).s in Members(cs, p);
      MembersOfPair(cs, i);
    }
    if forall i :: 0 <= i < |cs| ==> ExactClass(cs, i) {
      forall p | p in members ensures |members[p]| == 2 {
        var s :| s in members[p];
        var i :| 0 <= i < |cs| && Paired(cs[i]) && Get(Block(cs[i]), "pair_id") == Str(p) && Id(cs[i]).Str? && Id(cs[i]).s == s;
        assert ExactClass(cs, i);
      }
    }
    if forall p :: p in members ==> |members[p]| == 2 {
      forall i | 0 <= i < |cs| ensures ExactClass(cs, i) {
        if Paired(cs[i]) { assert Get(Block(cs[i]), "pair_id").s in members; }
      }
    }
  }

  /** The checker accepts exactly the sound pairings. */
  method CorpusPairingFailures(loadFailures: seq<string>, cs: seq<Object>) returns (failures: seq<string>)
    ensures failures == [] <==> loadFailures == [] && PairingSound(cs)
  {
    var indexFailures, byId, ids := IndexCases(cs);
    var shapeFailures, members := ShapePass(cs, byId, ids);
    var partnerFailures := PartnerPass(cs, byId, ids);
    var classFailures := ClassPass(members);
    failures := loadFailures + indexFailures + shapeFailures + partnerFailures + classFailures;
    if Matched(cs) {
      forall i | 0 <= i < |cs| && Paired(cs[i]) ensures WellShaped(cs[i]) { assert CaseMatched(cs, i); }
    }
    if DistinctIds(cs) && Matched(cs) && Indexed(cs, byId, ids) { ClassesExact(cs, members); }
  }

  // ---------------------------------------------------------------- what a sound pairing means

  /** Pairing is an involution without fixed points, and partners carry
      opposite roles and the same axis and field lists.  */
  lemma PairingIsInvolution(cs: seq<Object>, i: nat)
    requires PairingSound(cs) && i < |cs| && Paired(cs[i])
    ensures var j := PartnerIndex(cs, i);
      && j < |cs| && j != i && Paired(cs[j]) && PartnerIndex(cs, j) == i
      && Id(cs[j]) == PartnerId(cs[i]) && Id(cs[i]) == PartnerId(cs[j])
      && {Get(Block(cs[i]), "role"), Get(Block(cs[j]), "role")} == {Str("positive"), Str("negative")}
      && Get(cs[i], "category") == Get(Block(cs[i]), "role")
      && Agree(cs[i], cs[j], "mutation_axis") && Agree(cs[i], cs[j], "stable_fields") && Agree(cs[i], cs[j], "mutated_fields")
  {
    assert CaseMatched(cs, i);
    PartnerFacts(cs, i);
    var j := PartnerIndex(cs, i);
    assert CaseMatched(cs, j);
    PartnerFacts(cs, j);
    SameCase(cs, PartnerIndex(cs, j), i);
  }

  ghost function WithRole(cs: seq<Object>, role: string): set<nat> {
    set i: nat | i < |cs| && Paired(cs[i]) && Get(Block(cs[i]), "role") == Str(role)
  }

  lemma ImageSize<T, U>(s: set<T>, t: set<U>, f: map<T, U>)
    requires f.Keys == s
    requires forall x :: x in s ==> f[x] in t
    requires forall x, y :: x in s && y in s && f[x] == f[y] ==> x == y
    ensures |s| <= |t|
  {
    if s != {} {
      var x :| x in s;
      ImageSize(s - {x}, t - {f[x]}, f - {x});
    }
  }

  lemma RoleEmbeds(cs: seq<Object>, role: string, other: string)
    requires PairingSound(cs) && {role, other} == PAIRING_ROLES && role != other
    ensures |WithRole(cs, role)| <= |WithRole(cs, other)|
  {
    var f := map i | i in WithRole(cs, role) :: PartnerIndex(cs, i);
    forall i | i in WithRole(cs, role) ensures f[i] in WithRole(cs, other) && PartnerIndex(cs, f[i]) == i {
      PairingIsInvolution(cs, i);
    }
    ImageSize(WithRole(cs, role), WithRole(cs, other), f);
  }

  /** Positive and negative paired cases are equal in number. */
  lemma RolesBalance(cs: seq<Object>)
    requires PairingSound(cs)
    ensures |WithRole(cs, "positive")| == |WithRole(cs, "negative")|
  {
    RoleEmbeds(cs, "positive", "negative");
    RoleEmbeds(cs, "negative", "positive");
  }
}

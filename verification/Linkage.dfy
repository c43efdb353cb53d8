/** `post_execution_linkage_failures`: the aggregate link check, against the
    predicates the scripts code separately.  */
module Linkage {
  import opened Json
  import opened Oracles
  import opened SideEffects
  import Decimals

  /** `admitted_effective_request_hash`. */
  function EffectiveHash(admission: Object): Json {
    var attenuation, request := Get(admission, "attenuation"), Get(admission, "request");
    if Decision(admission) == "attenuate" then
      if attenuation.Obj? then Get(attenuation.fields, "effective_request_hash") else Null
    else if request.Obj? then Get(request.fields, "input_hash") else Null
  }

  /** `admission_executable_for_post_execution`. */
  predicate Executable(admission: Object) {
    if Decision(admission) !in {"allow", "attenuate"} then false
    else if Decision(admission) != "attenuate" then true
    else
      var attenuation := Get(admission, "attenuation");
      attenuation.Obj? && Get(attenuation.fields, "require_new_permit") != Bool(true)
  }

  datatype Relations = Relations(receiptIdMatch: bool, decisionMatch: bool, digestMatch: bool)

  /** `admission_link_relation_state`. */
  function LinkRelations(env: Env, admission: Object, post: Object): Relations {
    var link := Get(post, "admission");
    if !link.Obj? then Relations(false, false, false)
    else Relations(
      PyEq(Get(link.fields, "receipt_id"), Get(admission, "receipt_id")),
      PyEq(Get(link.fields, "decision"), Str(Decision(admission))),
      PyEq(Get(link.fields, "digest"), DigestDescriptor(env, Obj(admission))))
  }

  /** `admission_time_window_valid`, with its message. */
  function TimeWindow(env: Env, admission: Object, post: Object): (bool, Option<string>) {
    var execution := GetOr(post, "execution", Obj(map[]));
    if !execution.Obj? then (false, Some("execution block missing"))
    else
      var started, finished := TimeOf(env, Get(execution.fields, "started_at")), TimeOf(env, Get(execution.fields, "finished_at"));
      var issued, expires := TimeOf(env, Get(admission, "issued_at")), TimeOf(env, Get(admission, "expires_at"));
      if issued.None? || expires.None? then (false, Some("admission timestamps must be valid"))
      else if started.None? || finished.None? then (false, Some("execution timestamps must be valid"))
      else if finished.value < started.value then (false, Some("execution finished before it started"))
      else if started.value < issued.value then (false, Some("execution started before admission was issued"))
      else if started.value > expires.value then (false, Some("execution started after admission expiry"))
      else if finished.value > expires.value then (false, Some("execution finished after admission expiry"))
      else (true, None)
  }

  function Block(post: Object, name: string): Json {
    GetOr(post, name, Obj(map[]))
  }

  function SubField(o: Object, name: string, field: string): Json {
    if Get(o, name).Obj? then Get(Get(o, name).fields, field) else Null
  }

  /** The execution block names the admitted transaction, runtime and request. */
  predicate SameSubject(admission: Object, execution: Object) {
    && PyEq(Get(execution, "transaction_id"), SubField(admission, "request", "transaction_id"))
    && PyEq(Get(execution, "runtime"), SubField(admission, "subject", "runtime"))
    && IsProfileHash(EffectiveHash(admission))
    && IsProfileHash(Get(execution, "effective_request_hash"))
    && PyEq(Get(execution, "effective_request_hash"), EffectiveHash(admission))
  }

  /** A linked pair: both blocks are objects and every separately coded
      predicate holds.  */
  predicate Linked(env: Env, admission: Object, post: Object) {
    && Block(post, "admission").Obj? && Block(post, "execution").Obj?
    && Executable(admission)
    && LinkRelations(env, admission, post) == Relations(true, true, true)
    && SameSubject(admission, Block(post, "execution").fields)
    && TimeWindow(env, admission, post).0
    && Clean(env, admission, post)
  }

  function Fail(ok: bool, message: string): seq<string> {
    if ok then [] else [message]
  }

  method DecisionFailures(admission: Object) returns (failures: seq<string>)
    ensures failures == [] <==> Executable(admission)
  {
    var decision := Decision(admission);
    failures := Fail(decision != "deny", "post-execution receipt must not link to a denied admission");
    failures := failures + Fail(decision in {"allow", "attenuate"}, "admission decision must be allow or attenuate");
    var attenuation := Get(admission, "attenuation");
    if decision == "attenuate" && (!attenuation.Obj? || Get(attenuation.fields, "require_new_permit") == Bool(true)) {
      failures := failures + ["post-execution receipt must not link to an admission requiring a new permit"];
    }
  }

  method TimeFailures(env: Env, admission: Object, post: Object) returns (failures: seq<string>)
    requires Block(post, "execution").Obj?
    ensures failures == [] <==> TimeWindow(env, admission, post).0
  {
    var execution := Block(post, "execution").fields;
    var started, finished := TimeOf(env, Get(execution, "started_at")), TimeOf(env, Get(execution, "finished_at"));
    var issued, expires := TimeOf(env, Get(admission, "issued_at")), TimeOf(env, Get(admission, "expires_at"));
    failures := Fail(issued.Some? && expires.Some?, "admission timestamps must be valid");
    if started.None? || finished.None? {
      failures := failures + ["execution timestamps must be valid"];
    } else {
      failures := failures + Fail(started.value <= finished.value, "execution finished before it started");
      if issued.Some? {
        failures := failures + Fail(issued.value <= started.value, "execution started before admission was issued");
      }
      if expires.Some? {
        failures := failures + Fail(started.value <= expires.value, "execution started after admission expiry");
        failures := failures + Fail(finished.value <= expires.value, "execution finished after admission expiry");
      }
    }
  }

  method RelationFailures(env: Env, admission: Object, post: Object) returns (failures: seq<string>)
    requires Block(post, "admission").Obj?
    ensures failures == [] <==> LinkRelations(env, admission, post) == Relations(true, true, true)
  {
    var link := Block(post, "admission").fields;
    failures := Fail(PyEq(Get(link, "receipt_id"), Get(admission, "receipt_id")), "admission receipt_id mismatch");
    failures := failures + Fail(PyEq(Get(link, "decision"), Str(Decision(admission))), "admission decision mismatch");
    var digest := Obj(map["alg" := Str("sha-256"), "value" := Str(env.sha256(Obj(admission)))]);
    failures := failures + Fail(PyEq(Get(link, "digest"), digest), "admission digest mismatch");
  }

  /** The aggregate check accepts exactly the linked pairs. */
  method LinkageFailures(env: Env, admission: Option<Object>, post: Option<Object>) returns (failures: seq<string>)
    ensures failures == [] <==> admission.Some? && post.Some? && Linked(env, admission.value, post.value)
  {
    if admission.None? || post.None? {
      return ["admission or post-execution artifact missing"];
    }
    var a, p := admission.value, post.value;
    if !Block(p, "admission").Obj? || !Block(p, "execution").Obj? {
      return ["post-execution admission or execution block missing"];
    }
    var execution := Block(p, "execution").fields;
    failures := DecisionFailures(a);
    var relation := RelationFailures(env, a, p);
    failures := failures + relation;
    failures := failures + Fail(PyEq(Get(execution, "transaction_id"), SubField(a, "request", "transaction_id")), "transaction_id mismatch");
    failures := failures + Fail(PyEq(Get(execution, "runtime"), SubField(a, "subject", "runtime")), "runtime mismatch");
    var expected, actual := EffectiveHash(a), Get(execution, "effective_request_hash");
    failures := failures + Fail(IsProfileHash(expected) && IsProfileHash(actual) && PyEq(actual, expected), "effective_request_hash mismatch");
    var times := TimeFailures(env, a, p);
    var effects := SideEffectFailures(env, a, p);
    failures := failures + times + effects;
  }

  /** A linked execution ran inside the admission's own interval, under an
      admission that allowed it, for exactly the request it admitted.  */
  lemma LinkedExecutionInsideAdmission(env: Env, admission: Object, post: Object)
    requires Linked(env, admission, post)
    ensures var execution := Block(post, "execution").fields;
      var started, finished := TimeOf(env, Get(execution, "started_at")), TimeOf(env, Get(execution, "finished_at"));
      var issued, expires := TimeOf(env, Get(admission, "issued_at")), TimeOf(env, Get(admission, "expires_at"));
      && started.Some? && finished.Some? && issued.Some? && expires.Some?
      && issued.value <= started.value <= finished.value <= expires.value
    ensures Decision(admission) in {"allow", "attenuate"}
    ensures "admission" in post && "execution" in post
    ensures Get(Block(post, "execution").fields, "effective_request_hash") == EffectiveHash(admission)
  {}

  /** The reported side effects; none when the receipt has no such array. */
  function Effects(post: Object): seq<Json> {
    var r := Get(post, "result");
    if r.Obj? && GetOr(r.fields, "side_effects", Arr([])).Arr?
    then GetOr(r.fields, "side_effects", Arr([])).items else []
  }

  /** Under a maximum of at most 28 digits a linked execution spent no more
      than it, whatever it reports.  */
  lemma LinkedExecutionWithinMaximum(env: Env, admission: Object, post: Object, e: int)
    requires Linked(env, admission, post) && AdmittedBoundary(env, admission).Some?
    requires var b := AdmittedBoundary(env, admission).value;
      e <= 0 && e <= b.limit.exp && InUnit(Amounts(env, b, Effects(post)), e) && Decimals.Scaled(b.limit, e) < Decimals.LIMIT
    ensures var b := AdmittedBoundary(env, admission).value;
      AllValid(env, b, Effects(post)) && Total(Amounts(env, b, Effects(post)), e) <= Decimals.Scaled(b.limit, e)
  {
    AcceptsIffWithinLimit(env, AdmittedBoundary(env, admission).value, Effects(post), e);
  }
}

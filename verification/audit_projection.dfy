/** The projection of audit details: tool-call records, actions with field rules, and the flat schema. */
module AuditProjection {
  import opened Wrappers
  import opened Json
  import opened ToolCall
  import opened Projection
  import opened ProjectionTheorems

  datatype FieldRule = FieldRule(owner: Owner, node: Node, disclose: bool)

  type Rules = map<string, FieldRule>

  /** The registry of per-action rules, the schema for every other action, and the serialized length. */
  datatype AuditPolicy = AuditPolicy(registry: map<string, Rules>, flat: Node, dumped: Json -> nat)

  /** No rule is written for the withheld flag itself. */
  ghost predicate FlagIsReserved(policy: AuditPolicy) {
    forall action :: action in policy.registry ==> WITHHELD !in policy.registry[action]
  }

  const TOOL_CALL := "tool_call"

  predicate Disclosed(rules: Rules, k: string) {
    k in rules && rules[k].disclose
  }

  function ProjectByRules(detail: map<string, Json>, rules: Rules): map<string, Json> {
    var kept := map k | k in detail && Disclosed(rules, k) :: Project(rules[k].node, detail[k], map[]);
    Flagged(kept, exists k :: k in detail && !Disclosed(rules, k))
  }

  /** `project_audit_detail_final`, which is also the at-rest projection. */
  function ProjectDetail(policy: AuditPolicy, action: string, detail: Json): Json {
    if !detail.Obj? then detail
    else if action == TOOL_CALL then Obj(SafeToolCall(detail.fields, None, policy.dumped))
    else if action in policy.registry then Obj(ProjectByRules(detail.fields, policy.registry[action]))
    else Project(policy.flat, detail, map[])
  }

  /** Projecting the detail raises: a tool call on its way cannot be read. */
  predicate DetailRaises(policy: AuditPolicy, action: string, detail: map<string, Json>) {
    if action == TOOL_CALL then Malformed(detail)
    else if action in policy.registry then
      exists k :: k in detail && Disclosed(policy.registry[action], k) &&
        Raises(policy.registry[action][k].node, detail[k])
    else Raises(policy.flat, Obj(detail))
  }

  /** What a detail keeps under the rules of its action: exactly the fields with a rule that discloses them, each as the
      projection under its rule; and the flag says exactly whether there was another. */
  lemma RulesKeepExactly(detail: map<string, Json>, rules: Rules)
    requires "_withheld_keys" !in rules
    ensures var out := ProjectByRules(detail, rules);
      && (forall k :: k != "_withheld_keys" ==> (k in out <==> k in detail && k in rules && rules[k].disclose))
      && (forall k :: k in out && k != "_withheld_keys" ==> out[k] == Project(rules[k].node, detail[k], map[]))
      && ("_withheld_keys" in out <==> exists k :: k in detail && !(k in rules && rules[k].disclose))
      && ("_withheld_keys" in out ==> out["_withheld_keys"] == Bool(true))
  {
  }

  /** Which projection a detail gets: a tool call its record, an action with rules theirs, any other the flat schema. */
  lemma DetailDispatch(policy: AuditPolicy, action: string, detail: map<string, Json>)
    ensures ProjectDetail(policy, action, Obj(detail)) ==
      if action == "tool_call" then Obj(SafeToolCall(detail, None, policy.dumped))
      else if action in policy.registry then Obj(ProjectByRules(detail, policy.registry[action]))
      else Project(policy.flat, Obj(detail), map[])
  {
  }

  /** The details a grant-less reader may see, per dispatch branch. */
  predicate SafeDetail(policy: AuditPolicy, action: string, detail: Json) {
    if !detail.Obj? then true
    else if action == TOOL_CALL then SafeCall(detail.fields, None)
    else if action in policy.registry then
      var rules := policy.registry[action];
      forall k :: k in detail.fields ==>
        if k == WITHHELD then detail.fields[k] == Bool(true)
        else Disclosed(rules, k) && Safe(rules[k].node, detail.fields[k], map[])
    else Safe(policy.flat, detail, map[])
  }

  predicate DetailFits(policy: AuditPolicy, action: string, detail: Json) {
    if !detail.Obj? then true
    else if action == TOOL_CALL then CallFits(detail.fields, policy.dumped)
    else if action in policy.registry then
      var rules := policy.registry[action];
      forall k :: k in detail.fields && Disclosed(rules, k) ==> Fits(rules[k].node, detail.fields[k])
    else Fits(policy.flat, detail)
  }

  /** A detail of the safe language never makes the projection raise. */
  lemma SafeDetailNeverRaises(policy: AuditPolicy, action: string, detail: map<string, Json>)
    requires FlagIsReserved(policy) && SafeDetail(policy, action, Obj(detail))
    ensures !DetailRaises(policy, action, detail)
  {
    if action == TOOL_CALL {
      SafeKeysAreProjected(detail);
    } else if action in policy.registry {
      var rules := policy.registry[action];
      forall k | k in detail && Disclosed(rules, k) ensures !Raises(rules[k].node, detail[k]) {
        assert k != WITHHELD;
        SafeNeverRaises(rules[k].node, detail[k], map[]);
      }
    } else {
      SafeNeverRaises(policy.flat, Obj(detail), map[]);
    }
  }

  lemma RulesLandIffFit(detail: map<string, Json>, rules: Rules)
    requires WITHHELD !in rules
    ensures var out := ProjectByRules(detail, rules);
      (forall k :: k in out ==> if k == WITHHELD then out[k] == Bool(true)
                                else Disclosed(rules, k) && Safe(rules[k].node, out[k], map[]))
      <==> (forall k :: k in detail && Disclosed(rules, k) ==> Fits(rules[k].node, detail[k]))
  {
    var out := ProjectByRules(detail, rules);
    forall k | k in detail && Disclosed(rules, k)
      ensures k in out && k != WITHHELD && (Safe(rules[k].node, out[k], map[]) <==> Fits(rules[k].node, detail[k]))
    {
      LandsIffFits(rules[k].node, detail[k], map[]);
    }
  }

  lemma RulesFixedIffSafe(detail: map<string, Json>, rules: Rules)
    requires WITHHELD !in rules
    ensures ProjectByRules(detail, rules) == detail <==>
      forall k :: k in detail ==> if k == WITHHELD then detail[k] == Bool(true)
                                  else Disclosed(rules, k) && Safe(rules[k].node, detail[k], map[])
  {
    var out := ProjectByRules(detail, rules);
    forall k | k in detail && Disclosed(rules, k)
      ensures k in out && (out[k] == detail[k] <==> Safe(rules[k].node, detail[k], map[]))
    {
      FixedIffSafe(rules[k].node, detail[k], map[]);
    }
    if forall k :: k in detail ==> if k == WITHHELD then detail[k] == Bool(true)
                                   else Disclosed(rules, k) && Safe(rules[k].node, detail[k], map[])
    {
      assert out.Keys == detail.Keys;
    }
  }

  /** On all three branches the projected detail is in the safe language exactly when its tool-call
      contents are in bounds. */
  lemma DetailLandsIffFits(policy: AuditPolicy, action: string, detail: Json)
    requires FlagIsReserved(policy)
    ensures SafeDetail(policy, action, ProjectDetail(policy, action, detail)) <==> DetailFits(policy, action, detail)
  {
    if detail.Obj? {
      if action == TOOL_CALL {
        CallLandsIffFits(detail.fields, None, policy.dumped);
      } else if action in policy.registry {
        RulesLandIffFit(detail.fields, policy.registry[action]);
      } else {
        LandsIffFits(policy.flat, detail, map[]);
      }
    }
  }

  /** On all three branches a detail is left as it is exactly when it is in the safe language. */
  lemma DetailFixedIffSafe(policy: AuditPolicy, action: string, detail: Json)
    requires FlagIsReserved(policy)
    ensures ProjectDetail(policy, action, detail) == detail <==> SafeDetail(policy, action, detail)
  {
    if detail.Obj? {
      if action == TOOL_CALL {
        CallFixedIffSafe(detail.fields, None, policy.dumped);
      } else if action in policy.registry {
        RulesFixedIffSafe(detail.fields, policy.registry[action]);
      } else {
        FixedIffSafe(policy.flat, detail, map[]);
      }
    }
  }

  lemma DetailIdempotentIffFits(policy: AuditPolicy, action: string, detail: Json)
    requires FlagIsReserved(policy)
    ensures var once := ProjectDetail(policy, action, detail);
      ProjectDetail(policy, action, once) == once <==> DetailFits(policy, action, detail)
  {
    DetailLandsIffFits(policy, action, detail);
    DetailFixedIffSafe(policy, action, ProjectDetail(policy, action, detail));
  }

  predicate DetailLosesNullCount(policy: AuditPolicy, action: string, detail: Json) {
    if !detail.Obj? || action == TOOL_CALL then false
    else if action in policy.registry then
      var rules := policy.registry[action];
      exists k :: k in detail.fields && Disclosed(rules, k) && LosesNullCount(rules[k].node, detail.fields[k], map[])
    else LosesNullCount(policy.flat, detail, map[])
  }

  /** An audit detail, too, loses nothing in silence but a null legacy count. */
  lemma MarkerFreeDetailIsUnchanged(policy: AuditPolicy, action: string, detail: Json)
    requires FlagIsReserved(policy)
    requires detail.Obj? && !HasMarker(ProjectDetail(policy, action, detail))
    ensures ProjectDetail(policy, action, detail) == detail <==> !DetailLosesNullCount(policy, action, detail)
  {
    if action == TOOL_CALL {
      RenderReads(CallOf(detail.fields, None, policy.dumped));
      assert false;
    } else if action in policy.registry {
      MarkerFreeByRules(detail.fields, policy.registry[action]);
    } else {
      MarkerFreeIsUnchanged(policy.flat, detail, map[]);
    }
  }

  lemma MarkerFreeByRules(detail: map<string, Json>, rules: Rules)
    requires WITHHELD !in rules
    requires !HasMarker(Obj(ProjectByRules(detail, rules)))
    ensures ProjectByRules(detail, rules) == detail <==>
      forall k :: k in detail && Disclosed(rules, k) ==> !LosesNullCount(rules[k].node, detail[k], map[])
  {
    var out := ProjectByRules(detail, rules);
    assert !WithheldMarker(out);
    assert WITHHELD !in out;
    forall k | k in detail
      ensures k in out && Disclosed(rules, k)
      ensures out[k] == detail[k] <==> !LosesNullCount(rules[k].node, detail[k], map[])
    {
      assert !HasMarker(out[k]);
      MarkerFreeIsUnchanged(rules[k].node, detail[k], map[]);
    }
    assert out.Keys == detail.Keys;
  }

  lemma EmptyDetail(policy: AuditPolicy, action: string)
    requires policy.flat.Container?
    ensures ProjectDetail(policy, action, Obj(map[])).Obj?
    ensures ProjectDetail(policy, action, Obj(map[])) == Obj(map[]) <==> action != TOOL_CALL
  {
    hide CallOf, Render, Project;
    if action == TOOL_CALL {
      NamelessCallHasName(policy.dumped);
    } else if action in policy.registry {
      assert ProjectByRules(map[], policy.registry[action]) == map[];
    } else {
      EmptyContainer(policy.flat);
    }
  }

  lemma NamelessCallHasName(dumped: Json -> nat)
    ensures SafeToolCall(map[], None, dumped) != map[]
  {
    hide CallOf;
    RenderReads(CallOf(map[], None, dumped));
  }

  lemma EmptyContainer(node: Node)
    requires node.Container?
    ensures Project(node, Obj(map[]), map[]) == Obj(map[])
  {
    var out := Project(node, Obj(map[]), map[]).fields;
    assert out == map[];
  }
}

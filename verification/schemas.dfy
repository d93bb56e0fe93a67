/** Asset schemas of trace_projection.py that other results speak about: step outputs, the snapshots
    that nest them, run contexts and step rows. */
module Schemas {
  import opened Json
  import opened Validators
  import opened Projection
  import opened ProjectionTheorems
  import opened Detectors

  const NEVER: int -> bool := _ => false

  const TOKEN: Node := Leaf(v => ShortToken(v), NEVER)
  const ID: Node := Leaf(v => OpaqueId(v), NEVER)
  const COUNT: Node := Leaf(v => Count(v), NEVER)
  const AMOUNT: Node := Leaf(v => Amount(v), n => FloatOverflows(n))
  const SCORE: Node := Leaf(v => Score(v), NEVER)
  const BOOL: Node := Leaf(v => Boolean(v), NEVER)
  const MARKER: Node := Leaf(v => GeneratedMarker(v), NEVER)
  const TIMESTAMP: Node := Leaf(v => Timestamp(v), NEVER)

  function Fields(names: set<string>, node: Node): map<string, Node> {
    map k | k in names :: node
  }

  function Owned(names: set<string>, owner: Owner): map<string, Owner> {
    map k | k in names :: owner
  }

  function Plain(children: map<string, Node>): Node {
    Container(children, Undeclared, false, map[], false)
  }

  const USAGE: Node := Plain(Fields(
    {"input_tokens", "output_tokens", "total_tokens", "cache_read_input_tokens", "cache_write_input_tokens",
     "iterations", "tool_calls"}, COUNT))

  const SCORE_NAMES: set<string> := {"faithfulness_score", "category_score", "relevance_score"}

  const TOKEN_FIELDS: set<string> := {"model", "stop_reason", "memory_hash", "recall_hash"}
  const COUNT_FIELDS: set<string> := {"iterations", "num_steps", "concern_count"}
  const BOOL_FIELDS: set<string> := {"parse_ok", "memory_written", "needs_tests"}

  const MEASURE_FIELDS: map<string, Node> :=
    Fields({"cost_usd"}, AMOUNT) + Fields(COUNT_FIELDS, COUNT) + Fields(BOOL_FIELDS, BOOL) + Fields(SCORE_NAMES, SCORE)

  function StepOutputChildren(dumped: Json -> nat): map<string, Node> {
    Fields(TOKEN_FIELDS, TOKEN)
    + Fields({"usage"}, USAGE)
    + MEASURE_FIELDS
    + Fields({"tool_calls"}, ToolCalls(dumped))
    + Fields({"_redacted"}, MARKER)
  }

  const STEP_OUTPUT_OWNERS: map<string, Owner> :=
    Owned(TOKEN_FIELDS + {"usage", "cost_usd", "iterations", "num_steps", "memory_written", "tool_calls"}, Engine)
    + Owned({"_redacted"}, ProjectionOwned)
    + Owned(SCORE_NAMES + {"parse_ok", "concern_count", "needs_tests"}, Business)

  function StepOutput(dumped: Json -> nat): Node {
    Container(StepOutputChildren(dumped), Undeclared, false, STEP_OUTPUT_OWNERS, true)
  }

  function StepsSnapshot(dumped: Json -> nat): Node {
    Container(map[], StepOutput(dumped), true, map[], false)
  }

  /** A row of `step_executions`, whose `error` position holds a marker and nothing else. */
  function StepRow(dumped: Json -> nat): Node {
    Plain(RowFields(dumped) + Fields({"error", "_redacted"}, MARKER))
  }

  function RowFields(dumped: Json -> nat): map<string, Node> {
    Fields({"id", "instance_id", "step_id"}, ID)
    + Fields({"attempt"}, COUNT)
    + Fields({"state"}, TOKEN)
    + Fields({"started_at", "completed_at"}, TIMESTAMP)
    + Fields({"output"}, StepOutput(dumped))
  }

  /** Capability strings from the definition: bounded and without white space. */
  predicate ConfigText(v: Json) {
    v.Str? && 1 <= |v.s| <= 200 && forall i :: 0 <= i < |v.s| ==> !White(v.s[i])
  }

  const CONFIG: Node := Leaf(v => ConfigText(v), NEVER)
  const POLICY_LISTS: set<string> := {"tools", "file_read", "file_write", "allowed_hosts"}
  const CAPABILITY_FIELDS: map<string, Node> :=
    Fields({"name"}, TOKEN) + Fields(POLICY_LISTS, Listing(CONFIG)) + Fields({"max_tokens_per_call"}, COUNT)
  const CAPABILITIES: Node := Plain(Fields({"layers"}, Listing(Plain(CAPABILITY_FIELDS))))

  const RUN_FIELDS: map<string, Node> :=
    Fields({"instance_id", "workflow_id", "org_id"}, ID)
    + Fields({"total_tokens"}, COUNT)
    + Fields({"total_cost_usd"}, AMOUNT)
    + Fields({"dry_run"}, BOOL)
    + Fields({"_redacted"}, MARKER)

  function Context(dumped: Json -> nat): Node {
    Plain(ContextFields(dumped) + Fields({"capabilities"}, CAPABILITIES))
  }

  function ContextFields(dumped: Json -> nat): map<string, Node> {
    RUN_FIELDS + Fields({"trigger"}, TriggerPayload) + Fields({"steps"}, StepsSnapshot(dumped))
  }

  lemma TokensAreUnmarked()
    ensures Agreeable(TOKEN)
  {
    forall v | ShortToken(v) ensures HasMarker(v) == OutputProjected(v) {
      TokenIsNoMarker(v.s);
      assert REDACTED_PREFIX[0] == '[';
    }
  }

  ghost predicate AgreeableFields(m: map<string, Node>) {
    forall k :: k in m && k != "_redacted" ==> Agreeable(m[k])
  }

  lemma FieldsAgree(names: set<string>, node: Node)
    requires Agreeable(node) || names == {"_redacted"}
    ensures AgreeableFields(Fields(names, node))
  {
  }

  lemma LeavesAgree()
    ensures Agreeable(COUNT) && Agreeable(AMOUNT) && Agreeable(SCORE) && Agreeable(BOOL)
  {
  }

  lemma UsageAgrees()
    ensures Agreeable(USAGE)
  {
    LeavesAgree();
  }

  lemma MeasuresAgree()
    ensures AgreeableFields(MEASURE_FIELDS)
  {
    LeavesAgree();
    FieldsAgree({"cost_usd"}, AMOUNT);
    FieldsAgree(COUNT_FIELDS, COUNT);
    FieldsAgree(BOOL_FIELDS, BOOL);
    FieldsAgree(SCORE_NAMES, SCORE);
  }

  lemma StepOutputFieldsAgree(dumped: Json -> nat)
    ensures AgreeableFields(StepOutputChildren(dumped))
  {
    TokensAreUnmarked();
    UsageAgrees();
    MeasuresAgree();
    FieldsAgree(TOKEN_FIELDS, TOKEN);
    FieldsAgree({"usage"}, USAGE);
    FieldsAgree({"tool_calls"}, ToolCalls(dumped));
    FieldsAgree({"_redacted"}, MARKER);
  }

  lemma StepOutputsAgree(dumped: Json -> nat)
    ensures Agreeable(StepOutput(dumped)) && Agreeable(StepsSnapshot(dumped))
  {
    StepOutputFieldsAgree(dumped);
  }

  /** On every projected step output, and on every snapshot of them, the completeness detector and the
      rehydrator's detector give the same answer. */
  lemma DetectorsAgreeOnStepOutputs(dumped: Json -> nat, v: Json, vocab: Vocabulary)
    requires TokenVocabulary(vocab)
    ensures forall node | node == StepOutput(dumped) || node == StepsSnapshot(dumped) ::
      HasMarker(Project(node, v, vocab)) == OutputProjected(Project(node, v, vocab))
  {
    StepOutputsAgree(dumped);
    DetectorsAgree(StepOutput(dumped), v, vocab);
    DetectorsAgree(StepsSnapshot(dumped), v, vocab);
  }

  /** They disagree wherever a schema has a marker position of another name: the trigger marker is legal
      there, and only one detector recognises it. */
  lemma DetectorsDisagreeOnMarkerFields(node: Node, k: string)
    requires node.Container? && k in node.children && node.children[k] == MARKER && !node.WithholdsChild(k)
    requires k != WITHHELD && k != WITHHELD_LEGACY && k != "_redacted"
    ensures var out := Project(node, Obj(map[k := Str(REDACTED_TRIGGER)]), map[]);
      HasMarker(out) && !OutputProjected(out)
  {
    var fields := map[k := Str(REDACTED_TRIGGER)];
    FieldsOf(node, fields, map[]);
    var out := Project(node, Obj(fields), map[]).fields;
    assert ProjectEntry(node, k, fields[k], map[]) == Emit(Str(REDACTED_TRIGGER));
    assert out.Keys == {k} && out[k] == Str(REDACTED_TRIGGER);
    assert REDACTED_TRIGGER[0] == 'r' && REDACTED_PREFIX[0] == '[';
  }

  lemma IdsAreUnmarked()
    ensures Agreeable(ID) && Agreeable(TIMESTAMP)
  {
    forall v | OpaqueId(v) ensures HasMarker(v) == OutputProjected(v) {
      IdIsNoMarker(v.s);
      assert REDACTED_PREFIX[0] == '[';
    }
    forall v | Timestamp(v) ensures HasMarker(v) == OutputProjected(v) {
      assert Body(v.s)[0] == v.s[0] && Digit(v.s[0]);
      assert REDACTED_PREFIX[0] == '[' && REDACTED_TRIGGER[0] == 'r' && REDACTED_TOOL[0] == 'r';
    }
  }

  lemma RowFieldsAgree(dumped: Json -> nat)
    ensures AgreeableFields(RowFields(dumped))
  {
    hide StepOutput, Agreeable;
    IdsAreUnmarked();
    TokensAreUnmarked();
    LeavesAgree();
    StepOutputsAgree(dumped);
    FieldsAgree({"id", "instance_id", "step_id"}, ID);
    FieldsAgree({"attempt"}, COUNT);
    FieldsAgree({"state"}, TOKEN);
    FieldsAgree({"started_at", "completed_at"}, TIMESTAMP);
    FieldsAgree({"output"}, StepOutput(dumped));
  }

  lemma StepRowAgreesBut(dumped: Json -> nat)
    ensures StepRow(dumped).Container? && AgreeableBut(StepRow(dumped), "error")
    ensures SlotOf(StepRow(dumped), "error", map[]) == At(MARKER)
  {
    hide RowFields;
    RowFieldsAgree(dumped);
    assert "error"[0] == 'e' && WITHHELD[0] == '_' && WITHHELD_LEGACY[0] == '_';
  }

  lemma MarkersDetected(v: Json)
    ensures var out := Project(MARKER, v, map[]);
      && (OutputProjected(out) ==> HasMarker(out))
      && (HasMarker(out) && !OutputProjected(out) <==> v == Str(REDACTED_TRIGGER) || v == Str(REDACTED_TOOL))
  {
    assert REDACTED_PREFIX[0] == '[' && REDACTED_TRIGGER[0] == 'r' && REDACTED_TOOL[0] == 'r' &&
      REDACTED_FIELD[0] == '[';
  }

  lemma RowIsAnObject(dumped: Json -> nat, row: map<string, Json>)
    ensures StepRow(dumped).Container? && Project(StepRow(dumped), Obj(row), map[]).Obj?
  {
    hide StepOutput;
    FieldsOf(StepRow(dumped), row, map[]);
  }

  /** On a projected step row the detectors differ exactly when its error column holds the trigger marker or the
      tool marker and no other column is detected. */
  lemma DetectorsDifferOnStepRowsIff(dumped: Json -> nat, row: map<string, Json>)
    ensures var out := Project(StepRow(dumped), Obj(row), map[]).fields;
      HasMarker(Obj(out)) != OutputProjected(Obj(out)) <==>
        && "error" in row && (row["error"] == Str(REDACTED_TRIGGER) || row["error"] == Str(REDACTED_TOOL))
        && !OutputProjected(Obj(out - {"error"}))
  {
    hide StepRow, HasMarker, OutputProjected, Project, AgreeableBut, MARKER;
    RowIsAnObject(dumped, row);
    var node := StepRow(dumped);
    StepRowAgreesBut(dumped);
    FieldsOf(node, row, map[]);
    if "error" in row {
      MarkersDetected(row["error"]);
      assert ProjectEntry(node, "error", row["error"], map[]) == Emit(Project(MARKER, row["error"], map[]));
    }
    assert "error"[0] == 'e' && WITHHELD[0] == '_' && WITHHELD_LEGACY[0] == '_';
    DetectorsDifferOnlyAt(node, row, map[], "error");
  }

  lemma CapabilitiesArePrefixed()
    ensures Prefixed(CAPABILITIES)
  {
    ConfigIsNoMarker();
    PrefixedLeaves();
    assert Prefixed(Listing(CONFIG));
    forall k | k in CAPABILITY_FIELDS ensures Prefixed(CAPABILITY_FIELDS[k]) {
    }
    assert Prefixed(Plain(CAPABILITY_FIELDS));
    assert Prefixed(Listing(Plain(CAPABILITY_FIELDS)));
  }

  /** Capability strings hold no white space, and every generated marker does. */
  lemma ConfigIsNoMarker()
    ensures forall v :: CONFIG.Accepts(v) ==> !HasMarker(v)
  {
    forall v | CONFIG.Accepts(v) ensures !HasMarker(v) {
      assert White(REDACTED_FIELD[9]) && White(REDACTED_TRIGGER[3]) && White(REDACTED_TOOL[3]);
    }
  }

  lemma PrefixedLeaves()
    ensures Prefixed(TOKEN) && Prefixed(COUNT)
  {
    TokensAreUnmarked();
    LeavesAgree();
  }

  lemma RunFieldsAgree()
    ensures AgreeableFields(RUN_FIELDS)
  {
    IdsAreUnmarked();
    LeavesAgree();
    FieldsAgree({"instance_id", "workflow_id", "org_id"}, ID);
    FieldsAgree({"total_tokens"}, COUNT);
    FieldsAgree({"total_cost_usd"}, AMOUNT);
    FieldsAgree({"dry_run"}, BOOL);
    FieldsAgree({"_redacted"}, MARKER);
  }

  lemma ContextFieldsAgree(dumped: Json -> nat)
    ensures AgreeableFields(ContextFields(dumped))
  {
    hide RUN_FIELDS, StepsSnapshot, Agreeable;
    RunFieldsAgree();
    StepOutputsAgree(dumped);
    TriggersAgree();
    FieldsAgree({"trigger"}, TriggerPayload);
    FieldsAgree({"steps"}, StepsSnapshot(dumped));
  }

  lemma TriggersAgree()
    ensures Agreeable(TriggerPayload)
  {
  }

  lemma ContextAgreesBut(dumped: Json -> nat)
    ensures Context(dumped).Container? && AgreeableBut(Context(dumped), "capabilities")
    ensures SlotOf(Context(dumped), "capabilities", map[]) == At(CAPABILITIES)
  {
    hide ContextFields, CAPABILITIES;
    ContextFieldsAgree(dumped);
    assert "capabilities"[0] == 'c' && WITHHELD[0] == '_' && WITHHELD_LEGACY[0] == '_';
  }

  /** On a projected run context the detectors differ exactly when it holds no marker and some string of its
      capabilities starts like one: the rehydrator then takes the record for projected. */
  lemma DetectorsDifferOnContextsIff(dumped: Json -> nat, context: map<string, Json>)
    ensures var out := Project(Context(dumped), Obj(context), map[]).fields;
      HasMarker(Obj(out)) != OutputProjected(Obj(out)) <==>
        !HasMarker(Obj(out)) && "capabilities" in out && Holds(out["capabilities"], FORGED)
  {
    hide Context, HasMarker, OutputProjected, Project, AgreeableBut, CAPABILITIES, Holds;
    var node := Context(dumped);
    ContextAgreesBut(dumped);
    FieldsOf(node, context, map[]);
    var out := Project(node, Obj(context), map[]).fields;
    var k := "capabilities";
    assert k[0] == 'c' && "_redacted"[0] == '_' && WITHHELD[0] == '_' && WITHHELD_LEGACY[0] == '_';
    DetectedThrough(out, k);
    RestAgrees(node, context, map[], k);
    if k in out {
      CapabilitiesArePrefixed();
      assert ProjectEntry(node, k, context[k], map[]) == Emit(Project(CAPABILITIES, context[k], map[]));
      MarkersAreProjected(CAPABILITIES, context[k]);
      DetectorsDifferIff(out[k]);
    }
  }

  /** There are such contexts. */
  lemma ForgedCapabilityIsAccepted()
    ensures CONFIG.Accepts(Str(REDACTED_PREFIX + "x")) && Forged(REDACTED_PREFIX + "x")
  {
    var s := REDACTED_PREFIX + "x";
    assert s[9] == 'x' && REDACTED_FIELD[9] == ' ' && REDACTED_TRIGGER[0] == 'r' && REDACTED_TOOL[0] == 'r';
  }

  /** The error column of a step row is such a position. */
  lemma StepRowErrorIsAMarkerField(dumped: Json -> nat)
    ensures "error" in StepRow(dumped).children && StepRow(dumped).children["error"] == MARKER
    ensures !StepRow(dumped).WithholdsChild("error")
  {
  }

  /** The projector is not total on amounts either: a step output whose cost is an integer raises exactly when
      that integer does not fit a float, as `FLOAT_LIMIT` does not. */
  lemma CostRaisesIffTooLarge(dumped: Json -> nat, n: int)
    ensures Raises(StepOutput(dumped), Obj(map["cost_usd" := Int(n)])) <==> FloatOverflows(n)
    ensures FloatOverflows(FLOAT_LIMIT)
  {
    hide FloatOverflows, StepOutput, SlotOf, Raises;
    CostIsAnAmount(dumped);
    OneEntryRaises(StepOutput(dumped), "cost_usd", Int(n));
    AmountRaises(n);
  }

  lemma AmountRaises(n: int)
    ensures Raises(AMOUNT, Int(n)) <==> FloatOverflows(n)
    ensures FloatOverflows(FLOAT_LIMIT)
  {
  }

  lemma OneEntryRaises(node: Node, k: string, v: Json)
    requires node.Container? && SlotOf(node, k, map[]).At?
    ensures Raises(node, Obj(map[k := v])) <==> Raises(SlotOf(node, k, map[]).node, v)
  {
    hide SlotOf;
    assert Obj(map[k := v]).fields[k] == v;
  }

  lemma CostIsAnAmount(dumped: Json -> nat)
    ensures StepOutput(dumped).Container? && SlotOf(StepOutput(dumped), "cost_usd", map[]) == At(AMOUNT)
  {
    var cost := "cost_usd";
    assert cost[0] == 'c' && cost[3] == 't' && WITHHELD[0] == '_' && WITHHELD_LEGACY[0] == '_';
    assert "usage"[0] == 'u' && "tool_calls"[0] == 't' && "_redacted"[0] == '_';
    assert cost !in TOKEN_FIELDS && cost !in COUNT_FIELDS && cost !in BOOL_FIELDS && cost !in SCORE_NAMES by {
      assert |"concern_count"| != |cost|;
    }
    assert MEASURE_FIELDS[cost] == AMOUNT;
    assert "cost_usd" in STEP_OUTPUT_OWNERS ==> STEP_OUTPUT_OWNERS["cost_usd"] == Engine by {
      assert "parse_ok"[0] == 'p' && "needs_tests"[0] == 'n';
    }
  }

  /** A withheld child is gone from every projection of its container, whatever the input. */
  lemma WithheldChildNeverSurvives(node: Node, v: map<string, Json>, vocab: Vocabulary, k: string)
    requires node.Container? && k in node.children && node.WithholdsChild(k) && k != WITHHELD
    ensures k !in Project(node, Obj(v), vocab).fields
  {
    FieldsOf(node, v, vocab);
  }

  lemma ScoresAreWithheldChildren(dumped: Json -> nat, name: string)
    requires name in SCORE_NAMES
    ensures name in StepOutputChildren(dumped) && StepOutput(dumped).WithholdsChild(name) && name != WITHHELD
  {
    assert "parse_ok" !in SCORE_NAMES;
    assert name in Fields(SCORE_NAMES, SCORE);
  }

  /** The fields of a step output a reader without a grant sees: these twelve names and no other. */
  lemma StepOutputShows(dumped: Json -> nat, k: string)
    ensures StepOutput(dumped).Container? && StepOutput(dumped).wildcard.Undeclared?
    ensures k in StepOutput(dumped).children && !StepOutput(dumped).WithholdsChild(k) <==>
      || k in {"model", "stop_reason", "memory_hash", "recall_hash", "usage", "cost_usd"}
      || k in {"iterations", "num_steps", "memory_written", "tool_calls", "_redacted", "parse_ok"}
  {
    hide StepOutputChildren, STEP_OUTPUT_OWNERS;
    BusinessFields(k);
    ChildNames(dumped, k);
  }

  /** And as what each field is read, shown or not. */
  lemma StepOutputKinds(dumped: Json -> nat, k: string)
    requires k in StepOutput(dumped).children
    ensures StepOutput(dumped).children[k] ==
      if k in {"model", "stop_reason", "memory_hash", "recall_hash"} then TOKEN
      else if k in {"iterations", "num_steps", "concern_count"} then COUNT
      else if k in {"memory_written", "parse_ok", "needs_tests"} then BOOL
      else if k == "cost_usd" then AMOUNT
      else if k == "usage" then USAGE
      else if k == "tool_calls" then ToolCalls(dumped)
      else if k == "_redacted" then MARKER
      else SCORE
  {
    hide TOKEN, COUNT, BOOL, AMOUNT, USAGE, MARKER, SCORE, MEASURE_FIELDS, StepOutputChildren, STEP_OUTPUT_OWNERS;
    MeasureKinds(k);
    OuterKinds(dumped, k);
  }

  lemma OuterKinds(dumped: Json -> nat, k: string)
    requires k in StepOutputChildren(dumped)
    ensures StepOutputChildren(dumped)[k] ==
      if k == "_redacted" then MARKER
      else if k == "tool_calls" then ToolCalls(dumped)
      else if k in MEASURE_FIELDS then MEASURE_FIELDS[k]
      else if k == "usage" then USAGE
      else TOKEN
    ensures k in MEASURE_FIELDS || k in TOKEN_FIELDS || k in {"usage", "tool_calls", "_redacted"}
  {
    hide TOKEN, USAGE, MARKER, MEASURE_FIELDS, TOKEN_FIELDS;
  }

  lemma MeasureKinds(k: string)
    ensures k in MEASURE_FIELDS <==> k in COUNT_FIELDS + BOOL_FIELDS + SCORE_NAMES || k == "cost_usd"
    ensures k in MEASURE_FIELDS ==>
      MEASURE_FIELDS[k] == if k in {"iterations", "num_steps", "concern_count"} then COUNT
                           else if k in {"memory_written", "parse_ok", "needs_tests"} then BOOL
                           else if k == "cost_usd" then AMOUNT
                           else SCORE
  {
    hide COUNT, BOOL, AMOUNT, SCORE;
  }

  lemma ChildNames(dumped: Json -> nat, k: string)
    ensures k in StepOutputChildren(dumped) <==>
      k in TOKEN_FIELDS + COUNT_FIELDS + BOOL_FIELDS + SCORE_NAMES + {"usage", "cost_usd", "tool_calls", "_redacted"}
  {
  }

  lemma BusinessFields(k: string)
    ensures k in STEP_OUTPUT_OWNERS && STEP_OUTPUT_OWNERS[k] == Business <==>
      k in SCORE_NAMES || k in {"parse_ok", "concern_count", "needs_tests"}
  {
  }

  /** The parts of a run context, and as what each is shown: identifiers, a count, an amount, a flag, a marker, the
      trigger, the snapshot of the steps and the capabilities. */
  lemma ContextShows(dumped: Json -> nat, k: string)
    ensures Context(dumped).Container? && Context(dumped).wildcard.Undeclared?
    ensures var children := Context(dumped).children;
      && (k in children <==>
            || k in {"instance_id", "workflow_id", "org_id", "total_tokens", "total_cost_usd", "dry_run", "_redacted"}
            || k in {"trigger", "steps", "capabilities"})
      && (k in children ==>
            children[k] == if k == "capabilities" then CAPABILITIES
                           else if k == "steps" then StepsSnapshot(dumped)
                           else if k == "trigger" then TriggerPayload
                           else if k == "_redacted" then MARKER
                           else if k == "dry_run" then BOOL
                           else if k == "total_cost_usd" then AMOUNT
                           else if k == "total_tokens" then COUNT
                           else ID)
  {
    hide StepsSnapshot, CAPABILITIES, ID, COUNT, AMOUNT, BOOL, MARKER, RUN_FIELDS;
    RunFieldShows(k);
  }

  lemma RunFieldShows(k: string)
    ensures k in RUN_FIELDS <==>
      k in {"instance_id", "workflow_id", "org_id", "total_tokens", "total_cost_usd", "dry_run", "_redacted"}
    ensures k in RUN_FIELDS ==>
      RUN_FIELDS[k] == if k == "_redacted" then MARKER
                       else if k == "dry_run" then BOOL
                       else if k == "total_cost_usd" then AMOUNT
                       else if k == "total_tokens" then COUNT
                       else ID
  {
    hide ID, COUNT, AMOUNT, BOOL, MARKER;
  }

  /** A snapshot shows each step's output as the projection of that output, or not at all. */
  lemma SnapshotShowsProjections(inner: Node, steps: map<string, Json>, vocab: Vocabulary, step: string)
    requires step != WITHHELD
    ensures var snapshot := Container(map[], inner, true, map[], false);
      var out := Project(snapshot, Obj(steps), vocab).fields;
      step in out ==> step in steps && out[step] == Project(inner, steps[step], vocab)
  {
    FieldsOf(Container(map[], inner, true, map[], false), steps, vocab);
  }

  /** Nor does a withheld child survive in a snapshot of such objects. */
  lemma WithheldChildNeverSurvivesNested(
    inner: Node, steps: map<string, Json>, vocab: Vocabulary, step: string, k: string)
    requires inner.Container? && k in inner.children && inner.WithholdsChild(k) && k != WITHHELD && step != WITHHELD
    ensures var out := Project(Container(map[], inner, true, map[], false), Obj(steps), vocab).fields;
      step in out && out[step].Obj? ==> k !in out[step].fields
  {
    SnapshotShowsProjections(inner, steps, vocab, step);
    if step in steps && steps[step].Obj? {
      WithheldChildNeverSurvives(inner, steps[step].fields, vocab, k);
    }
  }
}

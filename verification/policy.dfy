/** The projections the vault protocol relies on, as one value. */
module Policy {
  import opened Json
  import opened Validators
  import opened ToolCall
  import opened Projection
  import opened ProjectionTheorems
  import opened AuditProjection
  import opened Schemas
  import opened Vault
  import opened Store

  /** The projector in force, the version it stamps, and the records on which it raises instead. */
  datatype Projector = Projector(
    version: string,
    trigger: Record -> Record,
    context: Record -> Record,
    output: Record -> Record,
    detail: (string, Record) -> Record,
    contextRaises: Record -> bool,
    outputRaises: Record -> bool,
    detailRaises: (string, Record) -> bool)

  predicate FixedInstance(p: Projector, row: Instance) {
    && p.trigger(p.trigger(row.trigger)) == p.trigger(row.trigger)
    && p.context(p.context(row.context)) == p.context(row.context)
  }

  predicate FixedStep(p: Projector, row: Step) {
    row.output.Some? ==> p.output(p.output(row.output.value)) == p.output(row.output.value)
  }

  predicate FixedDetail(p: Projector, action: string, detail: Record) {
    p.detail(action, p.detail(action, detail)) == p.detail(action, detail)
  }

  /** On every record of the store that a run projects, projecting twice is projecting once. */
  ghost predicate FixedOn(p: Projector, db: Database) {
    && (forall i :: i in db.instances ==> FixedInstance(p, db.instances[i]))
    && (forall s :: s in db.steps ==> FixedStep(p, db.steps[s]))
    && (forall n :: 0 <= n < |db.audit| && db.audit[n].instance.Some? ==>
          FixedDetail(p, db.audit[n].action, db.audit[n].detail))
  }

  /** The projector raises on nothing it would leave alone. */
  ghost predicate NeverRaisesOnFixed(p: Projector) {
    && (forall r :: p.context(r) == r ==> !p.contextRaises(r))
    && (forall r :: p.output(r) == r ==> !p.outputRaises(r))
    && (forall action, r :: p.detail(action, r) == r ==> !p.detailRaises(action, r))
  }

  const PROJECTOR_VERSION := "23"

  /** The projector of trace_projection.py, for any audit policy with an object schema. */
  function TraceProjector(policy: AuditPolicy): Projector
    requires policy.flat.Container?
  {
    Projector(
      PROJECTOR_VERSION,
      (r: Record) => SafeTriggerPayload(r),
      (r: Record) => Project(Context(policy.dumped), Obj(r), map[]).fields,
      (r: Record) => Project(StepOutput(policy.dumped), Obj(r), map[]).fields,
      (action: string, r: Record) => ProjectDetail(policy, action, Obj(r)).fields,
      (r: Record) => Raises(Context(policy.dumped), Obj(r)),
      (r: Record) => Raises(StepOutput(policy.dumped), Obj(r)),
      (action: string, r: Record) => DetailRaises(policy, action, r))
  }

  /** Every tool call that projecting the records of the store visits has a content below the size limit. */
  ghost predicate RecordsFit(policy: AuditPolicy, db: Database) {
    && (forall i :: i in db.instances ==> Fits(Context(policy.dumped), Obj(db.instances[i].context)))
    && (forall s :: s in db.steps && db.steps[s].output.Some? ==>
          Fits(StepOutput(policy.dumped), Obj(db.steps[s].output.value)))
    && (forall n :: 0 <= n < |db.audit| && db.audit[n].instance.Some? ==>
          DetailFits(policy, db.audit[n].action, Obj(db.audit[n].detail)))
  }

  lemma TriggerTwice(r: Record)
    ensures SafeTriggerPayload(SafeTriggerPayload(r)) == SafeTriggerPayload(r)
  {
    TriggerFixedIffSafe(SafeTriggerPayload(r));
  }

  lemma ContainerTwiceIffFits(node: Node, r: Record)
    requires node.Container?
    ensures var once := Project(node, Obj(r), map[]).fields;
      Project(node, Obj(once), map[]).fields == once <==> Fits(node, Obj(r))
  {
    hide Fits;
    FieldsOf(node, r, map[]);
    FieldsOf(node, Project(node, Obj(r), map[]).fields, map[]);
    IdempotentIffFits(node, Obj(r), map[]);
  }

  lemma DetailTwiceIffFits(policy: AuditPolicy, action: string, r: Record)
    requires FlagIsReserved(policy) && policy.flat.Container?
    ensures var once := ProjectDetail(policy, action, Obj(r)).fields;
      ProjectDetail(policy, action, Obj(once)).fields == once <==> DetailFits(policy, action, Obj(r))
  {
    hide DetailFits;
    DetailIdempotentIffFits(policy, action, Obj(r));
  }

  lemma FixedNeverRaises(node: Node, r: Record)
    requires node.Container? && Project(node, Obj(r), map[]).fields == r
    ensures !Raises(node, Obj(r))
  {
    hide Raises, Safe;
    FixedIffSafe(node, Obj(r), map[]);
    SafeNeverRaises(node, Obj(r), map[]);
  }

  lemma FixedDetailNeverRaises(policy: AuditPolicy, action: string, r: Record)
    requires FlagIsReserved(policy) && policy.flat.Container? && ProjectDetail(policy, action, Obj(r)).fields == r
    ensures !DetailRaises(policy, action, r)
  {
    DetailFixedIffSafe(policy, action, Obj(r));
    SafeDetailNeverRaises(policy, action, r);
  }

  /** The projector in force is a fixed point on a store exactly while the contents it visits there stay below the
      size limit: what the backfill, the migration and the vaulting predicate rely on. */
  lemma TraceProjectorFixedIffFits(policy: AuditPolicy, db: Database)
    requires FlagIsReserved(policy) && policy.flat.Container?
    ensures FixedOn(TraceProjector(policy), db) <==> RecordsFit(policy, db)
  {
    hide Project, ProjectDetail, SafeTriggerPayload, Fits, DetailFits, Context, StepOutput;
    var p := TraceProjector(policy);
    NodesAreContainers(policy.dumped);
    forall row: Instance
      ensures FixedInstance(p, row) <==> Fits(Context(policy.dumped), Obj(row.context))
    {
      TriggerTwice(row.trigger);
      ContainerTwiceIffFits(Context(policy.dumped), row.context);
    }
    forall row: Step | row.output.Some?
      ensures FixedStep(p, row) <==> Fits(StepOutput(policy.dumped), Obj(row.output.value))
    {
      ContainerTwiceIffFits(StepOutput(policy.dumped), row.output.value);
    }
    forall action, r ensures FixedDetail(p, action, r) <==> DetailFits(policy, action, Obj(r)) {
      DetailTwiceIffFits(policy, action, r);
    }
  }

  lemma NodesAreContainers(dumped: Json -> nat)
    ensures Context(dumped).Container? && StepOutput(dumped).Container?
  {
  }

  /** Nor does it ever raise on a record it would leave alone, whatever its size. */
  lemma TraceProjectorNeverRaisesOnFixed(policy: AuditPolicy)
    requires FlagIsReserved(policy) && policy.flat.Container?
    ensures NeverRaisesOnFixed(TraceProjector(policy))
  {
    hide Project, ProjectDetail, Raises, DetailRaises, SafeTriggerPayload;
    var p := TraceProjector(policy);
    forall r | p.context(r) == r ensures !p.contextRaises(r) {
      FixedNeverRaises(Context(policy.dumped), r);
    }
    forall r | p.output(r) == r ensures !p.outputRaises(r) {
      FixedNeverRaises(StepOutput(policy.dumped), r);
    }
    forall action, r | p.detail(action, r) == r ensures !p.detailRaises(action, r) {
      FixedDetailNeverRaises(policy, action, r);
    }
  }

  /** All three projections raise on the same unreadable call, a result that is a text: in a step output, in the
      snapshot of it a run context holds, and as the detail of a tool call. */
  lemma TextResultsRaise(policy: AuditPolicy, step: string)
    requires policy.flat.Container? && TokenText(step) && step != WITHHELD && step != WITHHELD_LEGACY
    ensures var p := TraceProjector(policy);
      var call := map["result" := Str("x")]; var output := map["tool_calls" := Arr([Obj(call)])];
      && p.outputRaises(output) && p.contextRaises(map["steps" := Obj(map[step := Obj(output)])])
      && p.detailRaises("tool_call", call)
  {
    hide StepOutput, StepsSnapshot, Context, Raises, SlotOf, Malformed;
    var call := map["result" := Str("x")];
    var output := map["tool_calls" := Arr([Obj(call)])];
    TextResultIsMalformed();
    ToolCallsSlot(policy.dumped);
    StepSlots(policy.dumped, step);
    CallsRaise(policy.dumped, call);
    OneEntryRaises(StepOutput(policy.dumped), "tool_calls", Arr([Obj(call)]));
    OneEntryRaises(StepsSnapshot(policy.dumped), step, Obj(output));
    OneEntryRaises(Context(policy.dumped), "steps", Obj(map[step := Obj(output)]));
  }

  lemma TextResultIsMalformed()
    ensures Malformed(map["result" := Str("x")])
  {
  }

  lemma CallsRaise(dumped: Json -> nat, call: Record)
    requires Malformed(call)
    ensures Raises(ToolCalls(dumped), Arr([Obj(call)]))
  {
    assert Arr([Obj(call)]).items[0] == Obj(call);
  }

  lemma ToolCallsSlot(dumped: Json -> nat)
    ensures StepOutput(dumped).Container? && SlotOf(StepOutput(dumped), "tool_calls", map[]) == At(ToolCalls(dumped))
  {
    var k := "tool_calls";
    assert k[0] == 't' && k[1] == 'o' && WITHHELD[0] == '_' && WITHHELD_LEGACY[0] == '_';
    StepOutputShows(dumped, k);
    assert StepOutputChildren(dumped)[k] == ToolCalls(dumped);
  }

  lemma StepSlots(dumped: Json -> nat, step: string)
    requires TokenText(step) && step != WITHHELD && step != WITHHELD_LEGACY
    ensures Context(dumped).Container? && StepsSnapshot(dumped).Container?
    ensures SlotOf(StepsSnapshot(dumped), step, map[]) == At(StepOutput(dumped))
    ensures SlotOf(Context(dumped), "steps", map[]) == At(StepsSnapshot(dumped))
  {
    ToolCallsSlot(dumped);
    hide StepOutput;
    assert "steps"[0] == 's' && "steps"[2] == 'e' && WITHHELD[0] == '_' && WITHHELD_LEGACY[0] == '_';
    assert "steps" in ContextFields(dumped) && ContextFields(dumped)["steps"] == StepsSnapshot(dumped);
    assert "steps" != "capabilities";
  }

  /** The only action whose empty detail is not its own projection is a tool call: its record has fixed fields. */
  lemma EmptyDetailsStayEmpty(policy: AuditPolicy, action: string)
    requires policy.flat.Container?
    ensures TraceProjector(policy).detail(action, map[]) == map[] <==> action != TOOL_CALL
  {
    hide Context, StepOutput, Project, SafeTriggerPayload, ProjectDetail;
    EmptyDetail(policy, action);
  }
}

/** What raw means for the projector in force: a column is raw exactly when it is outside its safe language. */
module RawColumns {
  import opened Wrappers
  import opened Json
  import opened Validators
  import opened Projection
  import opened ProjectionTheorems
  import opened Schemas
  import opened AuditProjection
  import opened Vault
  import Store
  import opened Policy
  import opened BackfillSpec
  import AuditMigrationSpec
  import opened ZeroRaw

  /** An error is raw exactly when the error position of a step row would not keep it: when it is not empty and none
      of the generated markers, however it looks. */
  lemma ErrorIsRawIff(e: string)
    ensures ErrorHasRaw(Some(e)) <==> e != "" && Project(MARKER, Str(e), map[]) != Str(e)
    ensures ErrorHasRaw(Some(e)) <==>
      e != "" && e != REDACTED_FIELD && e != REDACTED_TRIGGER && e != REDACTED_TOOL
    ensures !ErrorHasRaw(None)
  {
  }

  /** What replaces it is the projection of that position. */
  lemma SafeErrorIsProjected(e: string)
    ensures SafeError(Some(e)) == Some(if e == "" then "" else Project(MARKER, Str(e), map[]).s)
    ensures SafeError(None) == None
  {
  }

  /** What a reader without a grant may see in an error column: nothing, or a marker of the projector. */
  predicate SafeErrorColumn(error: Option<string>) {
    error.Some? ==> error.value == "" || Safe(MARKER, Str(error.value), map[])
  }

  /** Every record of the store, column by column, is empty or in the safe language of its schema. */
  ghost predicate InSafeLanguage(policy: AuditPolicy, db: Store.Database) {
    && (forall i :: i in db.instances ==>
          var row := db.instances[i];
          && (row.trigger == map[] || SafeTrigger(row.trigger))
          && (row.context == map[] || Safe(Context(policy.dumped), Obj(row.context), map[]))
          && SafeErrorColumn(row.error))
    && (forall s :: s in db.steps ==>
          var row := db.steps[s];
          && (row.output == None || row.output == Some(map[])
              || Safe(StepOutput(policy.dumped), Obj(row.output.value), map[]))
          && SafeErrorColumn(row.error))
    && (forall n :: 0 <= n < |db.audit| ==>
          db.audit[n].detail == map[] || SafeDetail(policy, db.audit[n].action, Obj(db.audit[n].detail)))
  }

  lemma RecordIsRawIff(node: Node, r: Record)
    requires node.Container?
    ensures Project(node, Obj(r), map[]).fields != r <==> !Safe(node, Obj(r), map[])
  {
    hide Safe, Project;
    FieldsOf(node, r, map[]);
    FixedIffSafe(node, Obj(r), map[]);
  }

  lemma DetailIsRawIff(policy: AuditPolicy, action: string, r: Record)
    requires FlagIsReserved(policy) && policy.flat.Container?
    ensures ProjectDetail(policy, action, Obj(r)).fields != r <==> !SafeDetail(policy, action, Obj(r))
  {
    hide SafeDetail;
    DetailFixedIffSafe(policy, action, Obj(r));
  }

  /** A store is clean exactly when it holds nothing a reader without a grant may not see. */
  lemma CleanIffSafe(cfg: Config, policy: AuditPolicy, db: Store.Database)
    requires FlagIsReserved(policy) && policy.flat.Container? && cfg.p == TraceProjector(policy)
    ensures Clean(cfg, db) <==> InSafeLanguage(policy, db)
  {
    hide Project, ProjectDetail, SafeTriggerPayload, Safe, SafeDetail, SafeTrigger, SafeErrorColumn, ErrorHasRaw;
    hide Context, StepOutput;
    NodesAreContainers(policy.dumped);
    forall row: Store.Instance
      ensures TriggerOwed(cfg, row) <==> !(row.trigger == map[] || SafeTrigger(row.trigger))
      ensures row.context != map[] && cfg.p.context(row.context) != row.context <==>
        !(row.context == map[] || Safe(Context(policy.dumped), Obj(row.context), map[]))
    {
      TriggerFixedIffSafe(row.trigger);
      RecordIsRawIff(Context(policy.dumped), row.context);
    }
    forall row: Store.Step
      ensures OutputOwed(cfg, row) <==>
        !(row.output == None || row.output == Some(map[])
          || Safe(StepOutput(policy.dumped), Obj(row.output.value), map[]))
    {
      if row.output.Some? {
        RecordIsRawIff(StepOutput(policy.dumped), row.output.value);
      }
    }
    forall e: Store.Entry
      ensures AuditMigrationSpec.DetailHasRaw(cfg, e) <==>
        !(e.detail == map[] || SafeDetail(policy, e.action, Obj(e.detail)))
    {
      DetailIsRawIff(policy, e.action, e.detail);
    }
    forall error: Option<string> ensures ErrorHasRaw(error) <==> !SafeErrorColumn(error) {
      ErrorColumnIff(error);
    }
    ColumnByColumn(cfg, policy, db);
  }

  lemma ErrorColumnIff(error: Option<string>)
    ensures ErrorHasRaw(error) <==> !SafeErrorColumn(error)
  {
  }

  /** No column holds raw, spelled out table by table. */
  lemma ColumnByColumn(cfg: Config, policy: AuditPolicy, db: Store.Database)
    ensures Clean(cfg, db) <==>
      && (forall i :: i in db.instances ==>
            var row := db.instances[i];
            && !TriggerOwed(cfg, row) && !(row.context != map[] && cfg.p.context(row.context) != row.context)
            && !ErrorHasRaw(row.error))
      && (forall s :: s in db.steps ==> !OutputOwed(cfg, db.steps[s]) && !ErrorHasRaw(db.steps[s].error))
      && (forall n :: 0 <= n < |db.audit| ==> !AuditMigrationSpec.DetailHasRaw(cfg, db.audit[n]))
  {
    hide TriggerOwed, OutputOwed, ErrorHasRaw, AuditMigrationSpec.DetailHasRaw;
    if Clean(cfg, db) {
      forall i | i in db.instances
        ensures var row := db.instances[i];
          && !TriggerOwed(cfg, row) && !(row.context != map[] && cfg.p.context(row.context) != row.context)
          && !ErrorHasRaw(row.error)
      {
        assert !HoldsRaw(cfg, db, TriggerColumn(i)) && !HoldsRaw(cfg, db, ContextColumn(i));
        assert !HoldsRaw(cfg, db, InstanceErrorColumn(i));
      }
      forall s | s in db.steps ensures !OutputOwed(cfg, db.steps[s]) && !ErrorHasRaw(db.steps[s].error) {
        assert !HoldsRaw(cfg, db, OutputColumn(s)) && !HoldsRaw(cfg, db, StepErrorColumn(s));
      }
      forall n | 0 <= n < |db.audit| ensures !AuditMigrationSpec.DetailHasRaw(cfg, db.audit[n]) {
        assert !HoldsRaw(cfg, db, DetailColumn(n));
      }
    } else {
      var f :| HoldsRaw(cfg, db, f);
      match f
      case TriggerColumn(i) => assert TriggerOwed(cfg, db.instances[i]);
      case ContextColumn(i) => assert cfg.p.context(db.instances[i].context) != db.instances[i].context;
      case InstanceErrorColumn(i) => assert ErrorHasRaw(db.instances[i].error);
      case OutputColumn(s) => assert OutputOwed(cfg, db.steps[s]);
      case StepErrorColumn(s) => assert ErrorHasRaw(db.steps[s].error);
      case DetailColumn(n) => assert AuditMigrationSpec.DetailHasRaw(cfg, db.audit[n]);
    }
  }
}

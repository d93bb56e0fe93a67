/** `verify_zero_raw` of trace_migration.py, and what backfill and migration together achieve. */
module ZeroRaw {
  import opened Wrappers
  import opened Json
  import opened Vault
  import opened Store
  import opened Policy
  import opened BackfillSpec
  import opened AuditMigrationSpec
  import opened Backfill
  import opened Rehydration

  /** A raw column, by table and row; audit entries by their place in the log. */
  datatype Finding =
    | TriggerColumn(instance: string)
    | ContextColumn(instance: string)
    | InstanceErrorColumn(instance: string)
    | OutputColumn(step: string)
    | StepErrorColumn(step: string)
    | DetailColumn(n: nat)

  /** Projecting the column would change it. */
  ghost predicate HoldsRaw(cfg: Config, db: Database, f: Finding) {
    match f
    case TriggerColumn(i) => i in db.instances && TriggerOwed(cfg, db.instances[i])
    case ContextColumn(i) =>
      i in db.instances && db.instances[i].context != map[] &&
        cfg.p.context(db.instances[i].context) != db.instances[i].context
    case InstanceErrorColumn(i) => i in db.instances && ErrorHasRaw(db.instances[i].error)
    case OutputColumn(s) => s in db.steps && OutputOwed(cfg, db.steps[s])
    case StepErrorColumn(s) => s in db.steps && ErrorHasRaw(db.steps[s].error)
    case DetailColumn(n) => n < |db.audit| && DetailHasRaw(cfg, db.audit[n])
  }

  /** The instance whose scan reaches the column. */
  ghost predicate BelongsTo(db: Database, f: Finding, i: string) {
    match f
    case TriggerColumn(j) => j == i
    case ContextColumn(j) => j == i
    case InstanceErrorColumn(j) => j == i
    case OutputColumn(s) => s in db.steps && db.steps[s].instance == i
    case StepErrorColumn(s) => s in db.steps && db.steps[s].instance == i
    case DetailColumn(n) => n < |db.audit| && db.audit[n].instance == Some(i)
  }

  /** No column holds raw. */
  ghost predicate Clean(cfg: Config, db: Database) {
    forall f :: !HoldsRaw(cfg, db, f)
  }

  /** No column the scan can reach holds raw: it starts from the instances. */
  ghost predicate CleanWhereScanned(cfg: Config, db: Database) {
    forall f, i :: i in db.instances && BelongsTo(db, f, i) ==> !HoldsRaw(cfg, db, f)
  }

  predicate WithoutInstance(db: Database, e: Entry) {
    e.instance.None? || e.instance.value !in db.instances
  }

  /** No audit entry without an existing instance, and no step of a missing instance, holds raw. */
  ghost predicate CleanOutOfReach(cfg: Config, db: Database) {
    && (forall n :: 0 <= n < |db.audit| && WithoutInstance(db, db.audit[n]) ==> !DetailHasRaw(cfg, db.audit[n]))
    && (forall s :: s in db.steps && db.steps[s].instance !in db.instances ==>
          !OutputOwed(cfg, db.steps[s]) && !ErrorHasRaw(db.steps[s].error))
  }

  /** What the scan finds clean is clean exactly when nothing out of its reach holds raw. */
  lemma ScannedIsCleanIff(cfg: Config, db: Database)
    ensures Clean(cfg, db) <==> CleanWhereScanned(cfg, db) && CleanOutOfReach(cfg, db)
  {
    if CleanWhereScanned(cfg, db) && CleanOutOfReach(cfg, db) {
      forall f ensures !HoldsRaw(cfg, db, f) {
        match f
        case TriggerColumn(i) => assert BelongsTo(db, f, i);
        case ContextColumn(i) => assert BelongsTo(db, f, i);
        case InstanceErrorColumn(i) => assert BelongsTo(db, f, i);
        case OutputColumn(s) => assert s in db.steps ==> BelongsTo(db, f, db.steps[s].instance);
        case StepErrorColumn(s) => assert s in db.steps ==> BelongsTo(db, f, db.steps[s].instance);
        case DetailColumn(n) =>
          assert n < |db.audit| && db.audit[n].instance.Some? ==> BelongsTo(db, f, db.audit[n].instance.value);
      }
    }
    if Clean(cfg, db) {
      forall n | 0 <= n < |db.audit| ensures !DetailHasRaw(cfg, db.audit[n]) {
        assert !HoldsRaw(cfg, db, DetailColumn(n));
      }
      forall s | s in db.steps ensures !OutputOwed(cfg, db.steps[s]) && !ErrorHasRaw(db.steps[s].error) {
        assert !HoldsRaw(cfg, db, OutputColumn(s)) && !HoldsRaw(cfg, db, StepErrorColumn(s));
      }
    }
  }

  /** A store whose one audit entry belongs to no instance. */
  function UnseenStore(action: string, detail: Record): Database {
    Database([], map[], [], map[], [Entry("e", "system", "engine", action, None, None, detail, None)], map[])
  }

  /** Raw out of reach: both migrations are done with such a store, the scan finds it clean, and it holds raw. */
  lemma UnseenRawIsCertified(cfg: Config, action: string, detail: Record)
    requires detail != map[] && cfg.p.detail(action, detail) != detail
    ensures var a := UnseenStore(action, detail);
      && Valid(a) && Complete(cfg, a, a) && AuditComplete(cfg, a, a)
      && CleanWhereScanned(cfg, a) && HoldsRaw(cfg, a, DetailColumn(0)) && !Clean(cfg, a)
  {
    assert HoldsRaw(cfg, UnseenStore(action, detail), DetailColumn(0));
  }

  datatype Report = Report(findings: seq<Finding>, scanned: nat, capped: bool)
  {
    predicate Certifies() {
      findings == [] && !capped
    }
  }

  /** Projecting the column raises. */
  ghost predicate ColumnRaises(cfg: Config, db: Database, f: Finding) {
    match f
    case ContextColumn(i) => i in db.instances && InstanceRaises(cfg, db.instances[i])
    case OutputColumn(s) => s in db.steps && OutputRaises(cfg, db.steps[s])
    case DetailColumn(n) => n < |db.audit| && EntryRaises(cfg, db.audit[n])
    case _ => false
  }

  /** The scan of the listed instances meets a column whose projection raises. */
  ghost predicate ScanRaises(cfg: Config, db: Database, ids: seq<string>) {
    exists f, m :: 0 <= m < |ids| && BelongsTo(db, f, ids[m]) && ColumnRaises(cfg, db, f)
  }

  method ScanInstanceRow(cfg: Config, db: Database, i: string) returns (raised: bool, findings: seq<Finding>)
    requires i in db.instances
    ensures raised <==> InstanceRaises(cfg, db.instances[i])
    ensures !raised ==> forall f :: f in findings <==>
      (f.TriggerColumn? || f.ContextColumn? || f.InstanceErrorColumn?) && BelongsTo(db, f, i) && HoldsRaw(cfg, db, f)
  {
    var row := db.instances[i];
    raised, findings := false, [];
    if row.trigger != map[] && cfg.p.trigger(row.trigger) != row.trigger {
      findings := findings + [TriggerColumn(i)];
    }
    if row.context != map[] {
      if cfg.p.contextRaises(row.context) {
        raised := true;
        return;
      }
      if cfg.p.context(row.context) != row.context {
        findings := findings + [ContextColumn(i)];
      }
    }
    if ErrorHasRaw(row.error) {
      findings := findings + [InstanceErrorColumn(i)];
    }
  }

  method ScanSteps(cfg: Config, db: Database, i: string) returns (raised: bool, findings: seq<Finding>)
    requires Valid(db)
    ensures raised <==> exists s :: s in db.steps && db.steps[s].instance == i && OutputRaises(cfg, db.steps[s])
    ensures !raised ==> forall f :: f in findings <==>
      (f.OutputColumn? || f.StepErrorColumn?) && BelongsTo(db, f, i) && HoldsRaw(cfg, db, f)
  {
    raised, findings := false, [];
    var ids := StepsOf(db, db.stepOrder, i);
    for n := 0 to |ids|
      invariant forall m :: 0 <= m < n ==> !OutputRaises(cfg, db.steps[ids[m]])
      invariant forall f :: f in findings <==>
        (f.OutputColumn? || f.StepErrorColumn?) && HoldsRaw(cfg, db, f) && f.step in ids[..n]
    {
      var step := db.steps[ids[n]];
      assert ids[..n + 1] == ids[..n] + [ids[n]];
      if OutputRaises(cfg, step) {
        raised := true;
        return;
      }
      if step.output.Some? && step.output.value != map[] && cfg.p.output(step.output.value) != step.output.value {
        findings := findings + [OutputColumn(ids[n])];
      }
      if ErrorHasRaw(step.error) {
        findings := findings + [StepErrorColumn(ids[n])];
      }
    }
    assert ids[..|ids|] == ids;
  }

  method ScanEntries(cfg: Config, db: Database, i: string) returns (raised: bool, findings: seq<Finding>)
    ensures raised <==>
      exists n :: 0 <= n < |db.audit| && db.audit[n].instance == Some(i) && EntryRaises(cfg, db.audit[n])
    ensures !raised ==> forall f :: f in findings <==> f.DetailColumn? && BelongsTo(db, f, i) && HoldsRaw(cfg, db, f)
  {
    raised, findings := false, [];
    for n := 0 to |db.audit|
      invariant forall m :: 0 <= m < n && db.audit[m].instance == Some(i) ==> !EntryRaises(cfg, db.audit[m])
      invariant forall f :: f in findings <==> f.DetailColumn? && f.n < n && BelongsTo(db, f, i) && HoldsRaw(cfg, db, f)
    {
      if db.audit[n].instance == Some(i) && EntryRaises(cfg, db.audit[n]) {
        raised := true;
        return;
      }
      if db.audit[n].instance == Some(i) && DetailHasRaw(cfg, db.audit[n]) {
        findings := findings + [DetailColumn(n)];
      }
    }
  }

  /** One instance: raising, or finding exactly its raw columns. */
  method ScanInstance(cfg: Config, db: Database, i: string) returns (raised: bool, findings: seq<Finding>)
    requires Valid(db) && i in db.instances
    ensures raised <==> exists f :: BelongsTo(db, f, i) && ColumnRaises(cfg, db, f)
    ensures !raised ==> forall f :: f in findings <==> BelongsTo(db, f, i) && HoldsRaw(cfg, db, f)
  {
    findings := [];
    var row;
    raised, row := ScanInstanceRow(cfg, db, i);
    if raised {
      assert BelongsTo(db, ContextColumn(i), i) && ColumnRaises(cfg, db, ContextColumn(i));
      return;
    }
    var steps;
    raised, steps := ScanSteps(cfg, db, i);
    if raised {
      ghost var s :| s in db.steps && db.steps[s].instance == i && OutputRaises(cfg, db.steps[s]);
      assert BelongsTo(db, OutputColumn(s), i) && ColumnRaises(cfg, db, OutputColumn(s));
      return;
    }
    var entries;
    raised, entries := ScanEntries(cfg, db, i);
    if raised {
      ghost var n: nat :| n < |db.audit| && db.audit[n].instance == Some(i) && EntryRaises(cfg, db.audit[n]);
      assert BelongsTo(db, DetailColumn(n), i) && ColumnRaises(cfg, db, DetailColumn(n));
      return;
    }
    findings := row + steps + entries;
  }

  /** `verify_zero_raw`: it raises exactly when the scan meets a column whose projection raises; otherwise it
      reports the raw columns and certifies exactly the stores below its limit that are clean where it can see. Such
      a store is clean exactly when no entry without an instance and no step of a missing one holds raw. */
  method VerifyZeroRaw(cfg: Config, db: Database, limit: nat) returns (r: Result<Report, RunError>)
    requires Valid(db)
    ensures r.Failure? <==> ScanRaises(cfg, db, Listing(db, limit))
    ensures r.Failure? ==> r.error == Unprojectable
    ensures r.Success? ==>
      && r.value.scanned == |Listing(db, limit)|
      && (forall f :: f in r.value.findings ==> HoldsRaw(cfg, db, f))
      && (|db.order| <= limit ==>
            forall f, i :: i in db.instances && BelongsTo(db, f, i) && HoldsRaw(cfg, db, f) ==> f in r.value.findings)
      && (r.value.Certifies() <==> |db.order| < limit && CleanWhereScanned(cfg, db))
      && (r.value.Certifies() ==> (Clean(cfg, db) <==> CleanOutOfReach(cfg, db)))
  {
    hide HoldsRaw, BelongsTo, ColumnRaises, Clean, CleanOutOfReach;
    ScannedIsCleanIff(cfg, db);
    var ids := Listing(db, limit);
    var findings: seq<Finding> := [];
    for n := 0 to |ids|
      invariant forall f, m :: 0 <= m < n && BelongsTo(db, f, ids[m]) ==> !ColumnRaises(cfg, db, f)
      invariant forall f :: f in findings ==> HoldsRaw(cfg, db, f) && exists m :: 0 <= m < n && BelongsTo(db, f, ids[m])
      invariant forall f, m :: 0 <= m < n && BelongsTo(db, f, ids[m]) && HoldsRaw(cfg, db, f) ==> f in findings
    {
      var raised, found := ScanInstance(cfg, db, ids[n]);
      if raised {
        return Failure(Unprojectable);
      }
      findings := findings + found;
    }
    var report := Report(findings, |ids|, |ids| >= limit);
    if findings == [] {
      assert forall f, m :: 0 <= m < |ids| && BelongsTo(db, f, ids[m]) ==> !HoldsRaw(cfg, db, f);
    } else {
      assert findings[0] in findings;
    }
    return Success(report);
  }

  /** A column whose projection raises is raw, so a clean store is never one the verifier fails on. */
  lemma CleanNeverRaises(cfg: Config, db: Database, limit: nat)
    requires NeverRaisesOnFixed(cfg.p) && Valid(db) && CleanWhereScanned(cfg, db)
    ensures !ScanRaises(cfg, db, Listing(db, limit))
  {
    forall f, m | 0 <= m < |Listing(db, limit)| && BelongsTo(db, f, Listing(db, limit)[m])
      ensures !ColumnRaises(cfg, db, f)
    {
      assert Listing(db, limit)[m] in db.instances;
      RaisingIsRaw(cfg, db, f);
    }
  }

  lemma RaisingIsRaw(cfg: Config, db: Database, f: Finding)
    requires NeverRaisesOnFixed(cfg.p)
    ensures ColumnRaises(cfg, db, f) ==> HoldsRaw(cfg, db, f)
  {
  }

  /** Columns the backfill and the migration leave alone although they hold raw: of steps already stamped or of a
      missing instance, and of audit entries without an instance or whose instance names no organisation. */
  ghost predicate LeftAlone(cfg: Config, a: Database, f: Finding) {
    && HoldsRaw(cfg, a, f)
    && match f
       case OutputColumn(s) => a.steps[s].version.Some? || a.steps[s].instance !in a.instances
       case StepErrorColumn(s) => a.steps[s].version.Some? || a.steps[s].instance !in a.instances
       case DetailColumn(n) =>
         WithoutInstance(a, a.audit[n]) || a.instances[a.audit[n].instance.value].org == ""
       case _ => false
  }

  /** The entries the migration itself appended. */
  predicate Appended(a: Database, f: Finding) {
    f.DetailColumn? && f.n >= |a.audit|
  }

  /** One column, before and after: it is clean afterwards unless it was left alone. */
  lemma ColumnAfter(cfg: Config, a: Database, b: Database, c: Database, f: Finding)
    requires FixedOn(cfg.p, a) && Complete(cfg, a, b) && AuditComplete(cfg, b, c) && !Appended(a, f)
    ensures HoldsRaw(cfg, c, f) <==> LeftAlone(cfg, a, f)
  {
    hide Complete, AuditComplete, FixedOn;
    SameRowsExist(cfg, a, b, c);
    match f
    case TriggerColumn(i) => if i in a.instances { InstanceAfter(cfg, a, b, c, i); }
    case ContextColumn(i) => if i in a.instances { InstanceAfter(cfg, a, b, c, i); }
    case InstanceErrorColumn(i) => if i in a.instances { InstanceAfter(cfg, a, b, c, i); }
    case OutputColumn(s) => if s in a.steps { StepAfter(cfg, a, b, c, s); }
    case StepErrorColumn(s) => if s in a.steps { StepAfter(cfg, a, b, c, s); }
    case DetailColumn(n) => DetailAfter(cfg, a, b, c, n);
  }

  lemma SameRowsExist(cfg: Config, a: Database, b: Database, c: Database)
    requires Complete(cfg, a, b) && AuditComplete(cfg, b, c)
    ensures c.instances.Keys == a.instances.Keys && c.steps.Keys == a.steps.Keys && |a.audit| <= |c.audit|
  {
  }

  lemma InstanceAfter(cfg: Config, a: Database, b: Database, c: Database, i: string)
    requires FixedOn(cfg.p, a) && Complete(cfg, a, b) && AuditComplete(cfg, b, c) && i in a.instances
    ensures i in c.instances && c.instances[i] == FinalInstance(cfg, a.instances[i])
    ensures var f := c.instances[i];
      !TriggerOwed(cfg, f) && !ErrorHasRaw(f.error) && (f.context == map[] || cfg.p.context(f.context) == f.context)
  {
    hide StepDone, InstanceRowsVaulted;
    assert FixedInstance(cfg.p, a.instances[i]);
    FinalInstanceOwesNothing(cfg, a.instances[i]);
  }

  lemma StepAfter(cfg: Config, a: Database, b: Database, c: Database, s: string)
    requires FixedOn(cfg.p, a) && Complete(cfg, a, b) && AuditComplete(cfg, b, c) && s in a.steps
    ensures s in c.steps
    ensures var kept := a.steps[s].version.Some? || a.steps[s].instance !in a.instances;
      && (OutputOwed(cfg, c.steps[s]) <==> kept && OutputOwed(cfg, a.steps[s]))
      && (ErrorHasRaw(c.steps[s].error) <==> kept && ErrorHasRaw(a.steps[s].error))
      && (kept ==> c.steps[s] == a.steps[s])
  {
    hide InstanceDone, StepRowsVaulted;
    assert FixedStep(cfg.p, a.steps[s]);
    FinalStepOwesNothing(cfg, a, s);
  }

  lemma DetailAfter(cfg: Config, a: Database, b: Database, c: Database, n: nat)
    requires FixedOn(cfg.p, a) && Complete(cfg, a, b) && AuditComplete(cfg, b, c) && n < |a.audit|
    ensures n < |c.audit|
    ensures var e := a.audit[n]; var kept := WithoutInstance(a, e) || a.instances[e.instance.value].org == "";
      (DetailHasRaw(cfg, c.audit[n]) <==> kept && DetailHasRaw(cfg, e)) && (kept ==> c.audit[n] == e)
  {
    hide StepDone, InstanceDone, DetailSettled;
    var e := a.audit[n];
    assert b.audit == a.audit && b.instances.Keys == a.instances.Keys;
    if e.instance.Some? && e.instance.value in a.instances {
      PartialKeepsOrgs(cfg, a, b, e.instance.value);
      assert FixedDetail(cfg.p, e.action, e.detail);
    }
    assert c.audit[n] == e || EntryMigrated(cfg, b, c, n);
  }

  /** After a finished backfill and a finished audit migration the store is clean exactly when every row they leave
      alone was already safe, and so is what the migration appended. */
  lemma CleanIffNothingLeftAlone(cfg: Config, a: Database, b: Database, c: Database)
    requires FixedOn(cfg.p, a) && Complete(cfg, a, b) && AuditComplete(cfg, b, c)
    ensures Clean(cfg, c) <==>
      && (forall f :: !LeftAlone(cfg, a, f))
      && forall n :: |a.audit| <= n < |c.audit| ==> !DetailHasRaw(cfg, c.audit[n])
  {
    hide Complete, AuditComplete, FixedOn, LeftAlone;
    forall f | !Appended(a, f) ensures HoldsRaw(cfg, c, f) <==> LeftAlone(cfg, a, f) {
      ColumnAfter(cfg, a, b, c, f);
    }
    forall f | LeftAlone(cfg, a, f) ensures !Appended(a, f) {
      LeftAloneIsOld(cfg, a, f);
    }
    forall n | |a.audit| <= n < |c.audit| ensures HoldsRaw(cfg, c, DetailColumn(n)) <==> DetailHasRaw(cfg, c.audit[n]) {
    }
  }

  lemma LeftAloneIsOld(cfg: Config, a: Database, f: Finding)
    requires LeftAlone(cfg, a, f)
    ensures !Appended(a, f)
  {
  }

  /** After both, verifying raises on a column exactly when it raised before and was left alone. */
  lemma RaisesAfterwardsIffLeftAlone(cfg: Config, a: Database, b: Database, c: Database, f: Finding)
    requires NeverRaisesOnFixed(cfg.p) && FixedOn(cfg.p, a)
    requires Complete(cfg, a, b) && AuditComplete(cfg, b, c) && !Appended(a, f)
    ensures ColumnRaises(cfg, c, f) <==> LeftAlone(cfg, a, f) && ColumnRaises(cfg, a, f)
  {
    hide Complete, AuditComplete, FixedOn, NeverRaisesOnFixed;
    ColumnAfter(cfg, a, b, c, f);
    RaisingIsRaw(cfg, c, f);
    match f
    case OutputColumn(s) => if s in a.steps { StepAfter(cfg, a, b, c, s); }
    case DetailColumn(n) => DetailAfter(cfg, a, b, c, n);
    case _ =>
  }

  /** Every step output the backfill vaulted reads back as exactly its original value, and agrees with the
      stored projection, so its rehydration succeeds. */
  lemma BackfilledOutputReadsBack(cfg: Config, a: Database, b: Database, s: string)
    requires Valid(a) && Complete(cfg, a, b)
    requires s in a.steps && a.steps[s].instance in a.instances && a.steps[s].version.None?
    requires OutputOwed(cfg, a.steps[s])
    requires Readable(cfg.cipher, Obj(a.steps[s].output.value))
    requires !Vaulted(a, s, Output) && !cfg.p.outputRaises(a.steps[s].output.value)
    ensures var i := a.steps[s].instance; var id := StepIdentity(a.instances[i].org, i, s, Output);
      var raw := Obj(a.steps[s].output.value);
      && b.steps[s].output.Some? && b.steps[s].version == Some(cfg.p.version)
      && id.Address() in b.vault
      && ReadingOf(cfg, Success(Some(b.vault[id.Address()])), id) == Raw(b.vault[id.Address()], raw)
      && Agreement(cfg, StepOutputAsset, raw, b.steps[s].output.value, b.steps[s].version) == Agrees
  {
    StepOwes(cfg, a, s);
    var i := a.steps[s].instance;
    var id := StepIdentity(a.instances[i].org, i, s, Output);
    assert StepDone(cfg, a, b, s);
    assert Owed(cfg, a, id.Address()) == Some(b.vault[id.Address()]);
    RecordedReadsBack(cfg.cipher, cfg.p.version, id, Obj(a.steps[s].output.value));
  }

  /** Every trigger the backfill vaulted reads back as its original value. Its rehydration agrees exactly when the row
      was stamped on the way, for its context, or before; a trigger of an instance without either is projected
      and left without a stamp. */
  lemma BackfilledTriggerAgreesIffStamped(cfg: Config, a: Database, b: Database, i: string)
    requires Complete(cfg, a, b) && WellRecorded(cfg, a.vault)
    requires i in a.instances && TriggerOwed(cfg, a.instances[i])
    requires Readable(cfg.cipher, Obj(a.instances[i].trigger))
    ensures var row := a.instances[i]; var id := InstanceIdentity(row.org, i, Trigger); var raw := Obj(row.trigger);
      && id.Address() in b.vault
      && ReadingOf(cfg, Success(Some(b.vault[id.Address()])), id) == Raw(b.vault[id.Address()], raw)
      && Agreement(cfg, TriggerAsset, raw, b.instances[i].trigger, b.instances[i].version) ==
           if row.context != map[] || row.version == Some(cfg.p.version) then Agrees else Unsupported
  {
    hide StepDone, WellRecorded, Owed;
    var row := a.instances[i];
    var id := InstanceIdentity(row.org, i, Trigger);
    InstanceOwes(cfg, a, i);
    assert InstanceDone(cfg, a, b, i);
    OwedRowOpens(cfg, a, b, id, Obj(row.trigger));
  }

  /** A row whose output was vaulted before, but never stamped, is repaired: its vaulted raw reads back, and its
      rehydration succeeds exactly when that raw and what was inline have one projection. */
  lemma RepairedOutputAgreesIffSameProjection(cfg: Config, a: Database, b: Database, s: string, raw: Record)
    requires Complete(cfg, a, b)
    requires s in a.steps && a.steps[s].instance in a.instances && a.steps[s].version.None?
    requires a.steps[s].output.Some? && a.steps[s].output.value != map[] && Vaulted(a, s, Output)
    requires var id := StepIdentity(a.instances[a.steps[s].instance].org, a.steps[s].instance, s, Output);
      Opens(cfg, a, id, Obj(raw))
    requires !cfg.p.outputRaises(raw)
    ensures var id := StepIdentity(a.instances[a.steps[s].instance].org, a.steps[s].instance, s, Output);
      && b.steps[s].output.Some? && id.Address() in b.vault
      && ReadingOf(cfg, Success(Some(b.vault[id.Address()])), id) == Raw(b.vault[id.Address()], Obj(raw))
      && (Agreement(cfg, StepOutputAsset, Obj(raw), b.steps[s].output.value, b.steps[s].version) == Agrees <==>
            cfg.p.output(raw) == cfg.p.output(a.steps[s].output.value))
  {
    hide Owed, StepRowsVaulted, PayloadOf;
    var id := StepIdentity(a.instances[a.steps[s].instance].org, a.steps[s].instance, s, Output);
    assert StepDone(cfg, a, b, s);
  }

  /** Every migrated audit detail reads back as exactly its original value, and agrees with what is stored. */
  lemma MigratedDetailReadsBack(cfg: Config, b: Database, c: Database, n: nat)
    requires Valid(b) && AuditComplete(cfg, b, c) && n < |b.audit| && EntryOwed(cfg, b, b.audit[n])
    requires WellRecorded(cfg, b.vault)
    requires Readable(cfg.cipher, Obj(b.audit[n].detail)) && !cfg.p.detailRaises(b.audit[n].action, b.audit[n].detail)
    ensures var e := b.audit[n]; var id := OwnIdentity(b, e); var key := id.Address();
      && key in c.vault && Some(c.vault[key].version) == c.audit[n].version == Some(cfg.p.version)
      && ReadingOf(cfg, Success(Some(c.vault[key])), id) == Raw(c.vault[key], Obj(e.detail))
      && Agreement(cfg, DetailAsset(e.action), Obj(e.detail), c.audit[n].detail, c.audit[n].version) == Agrees
  {
    var e := b.audit[n];
    var id := OwnIdentity(b, e);
    assert EntryMigrated(cfg, b, c, n);
    RowIsRecorded(cfg, b, c, id.Address());
    SameWriteReadsBack(cfg.cipher, c.vault[id.Address()], cfg.p.version, id, Obj(e.detail));
  }
}

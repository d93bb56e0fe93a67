/** What the backfill of trace_migration.py owes an operational store, and what a run that may stop
    between any two writes still keeps. */
module BackfillSpec {
  import opened Wrappers
  import opened Json
  import opened Validators
  import opened Vault
  import opened Store
  import opened Policy

  datatype Config = Config(p: Projector, cipher: Option<nat>)

  /** `_error_has_raw` */
  predicate ErrorHasRaw(error: Option<string>) {
    error.Some? && error.value != "" && error.value !in GENERATED_MARKERS
  }

  predicate TriggerOwed(cfg: Config, row: Instance) {
    row.trigger != map[] && cfg.p.trigger(row.trigger) != row.trigger
  }

  predicate OutputOwed(cfg: Config, row: Step) {
    row.output.Some? && row.output.value != map[] && cfg.p.output(row.output.value) != row.output.value
  }

  /** How a run ends early: a write of the store failed, a record could not be projected, or the vault holds other
      content under the key of raw that is still inline. */
  datatype RunError = WriteFailed | Unprojectable | Conflicting

  function ErrorOf(error: StoreError): RunError {
    if error == VaultConflict then Conflicting else WriteFailed
  }

  /** The backfill projects the context of the instance, and that raises. */
  predicate InstanceRaises(cfg: Config, row: Instance) {
    row.context != map[] && cfg.p.contextRaises(row.context)
  }

  predicate OutputRaises(cfg: Config, row: Step) {
    row.output.Some? && row.output.value != map[] && cfg.p.outputRaises(row.output.value)
  }

  /** The backfill projects the output of the step, and that raises. */
  predicate StepRaises(cfg: Config, row: Step) {
    row.version.None? && OutputRaises(cfg, row)
  }

  ghost predicate StepsRaise(cfg: Config, db: Database, i: string) {
    exists s :: s in db.steps && db.steps[s].instance == i && StepRaises(cfg, db.steps[s])
  }

  /** Some row of the instance makes the backfill raise. */
  ghost predicate RowRaises(cfg: Config, db: Database, i: string) {
    && i in db.instances
    && (InstanceRaises(cfg, db.instances[i]) || StepsRaise(cfg, db, i))
  }

  /** Some row of the listed instances does. */
  ghost predicate SomeRaises(cfg: Config, db: Database, ids: seq<string>) {
    exists i :: i in ids && RowRaises(cfg, db, i)
  }

  function InstanceIdentity(org: string, instance: string, kind: Kind): Identity {
    Identity(org, instance, None, kind, RAW_SCHEMA, None)
  }

  function StepIdentity(org: string, instance: string, step: string, kind: Kind): Identity {
    Identity(org, instance, Some(step), kind, RAW_SCHEMA, None)
  }

  function SafeError(error: Option<string>): Option<string> {
    if ErrorHasRaw(error) then Some(REDACTED_FIELD) else error
  }

  function FinalInstance(cfg: Config, row: Instance): Instance {
    Instance(
      row.org,
      if TriggerOwed(cfg, row) then cfg.p.trigger(row.trigger) else row.trigger,
      if row.context != map[] then cfg.p.context(row.context) else row.context,
      SafeError(row.error),
      if row.context != map[] then Some(cfg.p.version) else row.version)
  }

  predicate Vaulted(db: Database, step: string, kind: Kind)
    requires step in db.steps
  {
    var i := db.steps[step].instance;
    i in db.instances && StepIdentity(db.instances[i].org, i, step, kind).Address() in db.vault
  }

  /** A stamped row is left alone; any other row loses its raw output and error. */
  function FinalStep(cfg: Config, db: Database, step: string): Step
    requires step in db.steps
  {
    var row := db.steps[step];
    if row.version.Some? then row
    else if row.output.Some? && row.output.value != map[] && (Vaulted(db, step, Output) || OutputOwed(cfg, row)) then
      Step(row.instance, Some(cfg.p.output(row.output.value)), SafeError(row.error), Some(cfg.p.version))
    else Step(row.instance, row.output, SafeError(row.error), row.version)
  }

  /** The vault row the backfill of `db` has to put under a key. */
  function Owed(cfg: Config, db: Database, key: Key): Option<Row> {
    if !key.AttemptKey? || key.instance !in db.instances || db.instances[key.instance].org != key.org then None
    else if key.anchor == INSTANCE_ANCHOR then
      var row := db.instances[key.instance];
      var id := InstanceIdentity(key.org, key.instance, key.kind);
      if key.kind == Trigger && TriggerOwed(cfg, row) then Some(RowOf(cfg.cipher, cfg.p.version, id, Obj(row.trigger)))
      else if key.kind == Error && ErrorHasRaw(row.error) then
        Some(RowOf(cfg.cipher, cfg.p.version, id, Str(row.error.value)))
      else None
    else if key.anchor in db.steps && db.steps[key.anchor].instance == key.instance
      && db.steps[key.anchor].version.None? then
      var row := db.steps[key.anchor];
      var id := StepIdentity(key.org, key.instance, key.anchor, key.kind);
      if key.kind == Output && OutputOwed(cfg, row) then
        Some(RowOf(cfg.cipher, cfg.p.version, id, Obj(row.output.value)))
      else if key.kind == Error && ErrorHasRaw(row.error) then
        Some(RowOf(cfg.cipher, cfg.p.version, id, Str(row.error.value)))
      else None
    else None
  }

  /** The vault holds, under the key of a trigger or error that is still inline, a row the put of that raw is not the
      same write as. Outputs that are vaulted are not put again. */
  predicate Conflicts(cfg: Config, db: Database, key: Key) {
    && key in db.vault && Owed(cfg, db, key).Some? && key.kind != Output
    && !SameWrite(db.vault[key], Owed(cfg, db, key).value)
  }

  /** Some raw of the instance, or of its steps, is in conflict with the vault. */
  ghost predicate RowConflicts(cfg: Config, db: Database, i: string) {
    exists key: Key :: key.AttemptKey? && key.instance == i && Conflicts(cfg, db, key)
  }

  ghost predicate SomeConflicts(cfg: Config, db: Database, ids: seq<string>) {
    exists i :: i in ids && RowConflicts(cfg, db, i)
  }

  /** No vaulted trigger or error is in conflict with the raw still inline. */
  ghost predicate Consistent(cfg: Config, db: Database) {
    forall key :: !Conflicts(cfg, db, key)
  }

  /** The row `a` owes under the key is in the vault of `b`. */
  ghost predicate Settled(cfg: Config, a: Database, b: Database, key: Key) {
    && key in b.vault
    && (Owed(cfg, a, key).Some? && key.AttemptKey? && key.kind != Output ==>
          SameWrite(b.vault[key], Owed(cfg, a, key).value))
  }

  ghost predicate InstanceRowsVaulted(cfg: Config, a: Database, b: Database, i: string) {
    forall key :: Owed(cfg, a, key).Some? && key.instance == i && key.anchor == INSTANCE_ANCHOR ==>
      Settled(cfg, a, b, key)
  }

  ghost predicate StepRowsVaulted(cfg: Config, a: Database, b: Database, step: string) {
    forall key :: Owed(cfg, a, key).Some? && key.anchor == step ==> Settled(cfg, a, b, key)
  }

  ghost predicate InstanceDone(cfg: Config, a: Database, b: Database, i: string)
    requires i in a.instances && i in b.instances
  {
    b.instances[i] == FinalInstance(cfg, a.instances[i]) && InstanceRowsVaulted(cfg, a, b, i)
  }

  ghost predicate StepDone(cfg: Config, a: Database, b: Database, step: string)
    requires step in a.steps && step in b.steps
  {
    b.steps[step] == FinalStep(cfg, a, step) && StepRowsVaulted(cfg, a, b, step)
  }

  /** `b` is `a` after any part of a backfill: every row is untouched, or final with its raw vaulted
      first; the vault kept all it had and gained only rows that were owed. */
  ghost predicate Partial(cfg: Config, a: Database, b: Database) {
    && b.order == a.order && b.stepOrder == a.stepOrder && b.audit == a.audit
    && b.instances.Keys == a.instances.Keys && b.steps.Keys == a.steps.Keys
    && (forall i :: i in a.instances ==> b.instances[i] == a.instances[i] || InstanceDone(cfg, a, b, i))
    && (forall s :: s in a.steps ==>
          b.steps[s] == a.steps[s] || (a.steps[s].instance in a.instances && StepDone(cfg, a, b, s)))
    && (forall key :: key in a.vault ==> key in b.vault && b.vault[key] == a.vault[key])
    && (forall key :: key in b.vault ==> key in a.vault || Owed(cfg, a, key) == Some(b.vault[key]))
  }

  /** Every instance, and every step of an instance, is final. */
  ghost predicate Complete(cfg: Config, a: Database, b: Database) {
    && Partial(cfg, a, b)
    && (forall i :: i in a.instances ==> InstanceDone(cfg, a, b, i))
    && (forall s :: s in a.steps && a.steps[s].instance in a.instances ==> StepDone(cfg, a, b, s))
  }

  lemma FinalInstanceOwesNothing(cfg: Config, row: Instance)
    requires FixedInstance(cfg.p, row)
    ensures var f := FinalInstance(cfg, row);
      && FinalInstance(cfg, f) == f && !TriggerOwed(cfg, f) && !ErrorHasRaw(f.error)
      && f.org == row.org
  {
  }

  lemma FinalStepOwesNothing(cfg: Config, db: Database, step: string)
    requires step in db.steps && FixedStep(cfg.p, db.steps[step])
    ensures var f := FinalStep(cfg, db, step);
      && f.instance == db.steps[step].instance
      && (f.version.None? ==> !OutputOwed(cfg, f) && !ErrorHasRaw(f.error))
  {
  }

  /** What is still owed later was owed before, with the same row; what is no longer owed is vaulted. */
  lemma OwedShrinks(cfg: Config, a: Database, b: Database, key: Key)
    requires FixedOn(cfg.p, a) && Partial(cfg, a, b)
    ensures Owed(cfg, b, key).Some? ==> Owed(cfg, b, key) == Owed(cfg, a, key)
    ensures Owed(cfg, a, key).Some? && Owed(cfg, b, key).None? ==> Settled(cfg, a, b, key)
  {
    if key.AttemptKey? && key.instance in a.instances {
      FinalInstanceOwesNothing(cfg, a.instances[key.instance]);
      if key.anchor != INSTANCE_ANCHOR && key.anchor in a.steps {
        FinalStepOwesNothing(cfg, a, key.anchor);
      }
    }
  }

  /** A run neither makes a conflict nor resolves one. */
  lemma ConflictsPersist(cfg: Config, a: Database, b: Database, key: Key)
    requires FixedOn(cfg.p, a) && Partial(cfg, a, b)
    ensures Conflicts(cfg, b, key) <==> Conflicts(cfg, a, key)
  {
    hide FixedOn, FixedInstance, FixedStep;
    OwedShrinks(cfg, a, b, key);
  }

  /** So an interrupted run leaves the store fit to run again exactly when it was. */
  lemma PartialStaysConsistent(cfg: Config, a: Database, b: Database)
    requires FixedOn(cfg.p, a) && Partial(cfg, a, b)
    ensures Consistent(cfg, b) <==> Consistent(cfg, a)
  {
    forall key ensures Conflicts(cfg, b, key) <==> Conflicts(cfg, a, key) {
      ConflictsPersist(cfg, a, b, key);
    }
  }

  /** What was projected once is a fixed point again, so an interrupted run leaves the projector fixed as well. */
  lemma PartialStaysFixed(cfg: Config, a: Database, b: Database)
    requires FixedOn(cfg.p, a) && Partial(cfg, a, b)
    ensures FixedOn(cfg.p, b)
  {
    forall i | i in b.instances ensures FixedInstance(cfg.p, b.instances[i]) {
      assert b.instances[i] == a.instances[i] || b.instances[i] == FinalInstance(cfg, a.instances[i]);
      assert FixedInstance(cfg.p, a.instances[i]);
    }
    forall s | s in b.steps ensures FixedStep(cfg.p, b.steps[s]) {
      assert b.steps[s] == a.steps[s] || b.steps[s] == FinalStep(cfg, a, s);
      assert FixedStep(cfg.p, a.steps[s]);
    }
  }

  /** A trigger or error in conflict keeps its row as it is in every run, however often it is run. */
  lemma ConflictStopsEveryRun(cfg: Config, a: Database, b: Database, key: Key)
    requires Partial(cfg, a, b) && Conflicts(cfg, a, key)
    ensures !Complete(cfg, a, b)
    ensures key.anchor == INSTANCE_ANCHOR ==> b.instances[key.instance] == a.instances[key.instance]
    ensures key.anchor != INSTANCE_ANCHOR ==> b.steps[key.anchor] == a.steps[key.anchor]
  {
    if key.anchor == INSTANCE_ANCHOR {
      assert !InstanceDone(cfg, a, b, key.instance);
    } else {
      assert !StepDone(cfg, a, b, key.anchor);
    }
  }

  /** A row from before there were commitments conflicts with whatever is still inline under its key. */
  lemma LegacyRowsConflict(cfg: Config, db: Database, key: Key)
    requires key in db.vault && db.vault[key].commitment.None?
    ensures Conflicts(cfg, db, key) <==> Owed(cfg, db, key).Some? && key.kind != Output
  {
    hide FixedOn;
    assert Owed(cfg, db, key).Some? ==> Owed(cfg, db, key).value.commitment.Some?;
  }

  /** A store with one raw trigger, dual-written to the vault before rows carried commitments. */
  function LegacyStore(cfg: Config, raw: Record): Database {
    var id := InstanceIdentity("o", "i", Trigger);
    Database(["i"], map["i" := Instance("o", raw, map[], None, None)], [], map[], [],
             map[id.Address() := RowOf(None, cfg.p.version, id, Obj(raw)).(commitment := None)])
  }

  lemma LegacyStoreConflicts(cfg: Config, raw: Record)
    requires cfg.cipher.None? && raw != map[] && cfg.p.trigger(raw) != raw && Readable(None, Obj(raw))
    ensures var a := LegacyStore(cfg, raw); var id := InstanceIdentity("o", "i", Trigger);
      && Valid(a) && WellRecorded(cfg, a.vault) && Opens(cfg, a, id, Obj(raw)) && Conflicts(cfg, a, id.Address())
      && forall key :: Owed(cfg, a, key).Some? ==> key == id.Address()
  {
    var a, id := LegacyStore(cfg, raw), InstanceIdentity("o", "i", Trigger);
    LegacyRowIsNeverTheSameWrite(cfg.cipher, a.vault[id.Address()], cfg.p.version, id, Obj(raw));
  }

  /** That row holds the very trigger that is inline, and opens to it, and still no backfill ever finishes: every run
      leaves the store as it was. */
  lemma LegacyTriggerStopsEveryRun(cfg: Config, raw: Record, b: Database)
    requires cfg.cipher.None? && raw != map[] && cfg.p.trigger(raw) != raw && Readable(None, Obj(raw))
    requires Partial(cfg, LegacyStore(cfg, raw), b)
    ensures var a := LegacyStore(cfg, raw); var id := InstanceIdentity("o", "i", Trigger);
      && Valid(a) && WellRecorded(cfg, a.vault) && Opens(cfg, a, id, Obj(raw))
      && Conflicts(cfg, a, id.Address()) && b == a && !Complete(cfg, a, b)
  {
    hide SameWrite, Conflicts, WellRecorded, Opens, Valid, InstanceDone, StepDone, Owed, Readable, Complete;
    var a, id := LegacyStore(cfg, raw), InstanceIdentity("o", "i", Trigger);
    LegacyStoreConflicts(cfg, raw);
    ConflictStopsEveryRun(cfg, a, b, id.Address());
    assert b.instances == a.instances && b.steps == a.steps;
    assert b.vault == a.vault;
  }

  lemma PartialKeepsOrgs(cfg: Config, a: Database, b: Database, i: string)
    requires Partial(cfg, a, b) && i in a.instances
    ensures b.instances[i].org == a.instances[i].org
  {
  }

  /** A step not yet final will end the same way from the interrupted store as from the original. */
  lemma FinalStepAgrees(cfg: Config, a: Database, b: Database, step: string)
    requires FixedOn(cfg.p, a) && Partial(cfg, a, b) && step in a.steps
    ensures b.steps[step] == a.steps[step] ==> FinalStep(cfg, b, step) == FinalStep(cfg, a, step)
    ensures b.steps[step] == FinalStep(cfg, a, step) && b.steps[step] != a.steps[step] ==>
      FinalStep(cfg, b, step) == b.steps[step]
  {
    var i := a.steps[step].instance;
    if i in a.instances {
      PartialKeepsOrgs(cfg, a, b, i);
      NewOutputsWereOwed(cfg, a, b, step);
    }
    hide Owed, Partial, StepDone, InstanceDone, FixedInstance;
    assert FixedStep(cfg.p, a.steps[step]);
  }

  lemma NewOutputsWereOwed(cfg: Config, a: Database, b: Database, step: string)
    requires Partial(cfg, a, b) && step in a.steps && a.steps[step].instance in a.instances
    ensures step in b.steps && (b.steps[step].instance == a.steps[step].instance)
    ensures Vaulted(a, step, Output) ==> Vaulted(b, step, Output)
    ensures Vaulted(b, step, Output) && !Vaulted(a, step, Output) && a.steps[step].version.None? ==>
      OutputOwed(cfg, a.steps[step])
  {
    hide InstanceRowsVaulted, StepRowsVaulted, RowOf, FixedOn;
    var i := a.steps[step].instance;
    PartialKeepsOrgs(cfg, a, b, i);
    var key := StepIdentity(a.instances[i].org, i, step, Output).Address();
    if key in b.vault && key !in a.vault {
      assert Owed(cfg, a, key).Some?;
    }
  }

  lemma NothingDone(cfg: Config, a: Database)
    ensures Partial(cfg, a, a)
  {
  }

  /** What either part of a run settled is settled by the whole. */
  lemma SettledLater(cfg: Config, a: Database, b: Database, c: Database, key: Key)
    requires FixedOn(cfg.p, a) && Partial(cfg, a, b) && Partial(cfg, b, c) && Owed(cfg, a, key).Some?
    requires Settled(cfg, a, b, key) || (Owed(cfg, b, key).Some? ==> Settled(cfg, b, c, key))
    ensures Settled(cfg, a, c, key)
  {
    hide Owed, FixedOn;
    OwedShrinks(cfg, a, b, key);
  }

  lemma InstanceDoneLater(cfg: Config, a: Database, b: Database, c: Database, i: string)
    requires FixedOn(cfg.p, a) && Partial(cfg, a, b) && Partial(cfg, b, c) && i in a.instances
    ensures InstanceDone(cfg, a, b, i) || InstanceDone(cfg, b, c, i) ==> InstanceDone(cfg, a, c, i)
  {
    InstanceEndsAlike(cfg, a, b, c, i);
    hide Partial, Owed, Settled, FixedOn, FinalInstance;
    if InstanceDone(cfg, a, b, i) || InstanceDone(cfg, b, c, i) {
      forall key | Owed(cfg, a, key).Some? && key.instance == i && key.anchor == INSTANCE_ANCHOR
        ensures Settled(cfg, a, c, key)
      {
        SettledLater(cfg, a, b, c, key);
      }
    }
  }

  lemma InstanceEndsAlike(cfg: Config, a: Database, b: Database, c: Database, i: string)
    requires FixedOn(cfg.p, a) && Partial(cfg, a, b) && Partial(cfg, b, c) && i in a.instances
    ensures i in b.instances && i in c.instances
    ensures InstanceDone(cfg, a, b, i) || InstanceDone(cfg, b, c, i) ==>
      c.instances[i] == FinalInstance(cfg, a.instances[i])
  {
    hide Owed, Settled, InstanceRowsVaulted, StepDone;
    FinalInstanceOwesNothing(cfg, a.instances[i]);
  }

  lemma StepDoneLater(cfg: Config, a: Database, b: Database, c: Database, s: string)
    requires FixedOn(cfg.p, a) && Partial(cfg, a, b) && Partial(cfg, b, c) && s in a.steps
    ensures StepDone(cfg, a, b, s) || StepDone(cfg, b, c, s) ==> StepDone(cfg, a, c, s)
  {
    StepEndsAlike(cfg, a, b, c, s);
    hide Partial, Owed, Settled, FixedOn, FinalStep;
    if StepDone(cfg, a, b, s) || StepDone(cfg, b, c, s) {
      forall key | Owed(cfg, a, key).Some? && key.anchor == s ensures Settled(cfg, a, c, key) {
        SettledLater(cfg, a, b, c, key);
      }
    }
  }

  lemma StepEndsAlike(cfg: Config, a: Database, b: Database, c: Database, s: string)
    requires FixedOn(cfg.p, a) && Partial(cfg, a, b) && Partial(cfg, b, c) && s in a.steps
    ensures s in b.steps && s in c.steps
    ensures StepDone(cfg, a, b, s) || StepDone(cfg, b, c, s) ==> c.steps[s] == FinalStep(cfg, a, s)
  {
    hide Owed, Settled, StepRowsVaulted, InstanceDone, FinalStep;
    FinalStepAgrees(cfg, a, b, s);
  }

  /** Runs compose: a run interrupted anywhere and taken up again is a run. */
  lemma PartialTransitive(cfg: Config, a: Database, b: Database, c: Database)
    requires FixedOn(cfg.p, a) && Partial(cfg, a, b) && Partial(cfg, b, c)
    ensures Partial(cfg, a, c)
  {
    forall i | i in a.instances ensures c.instances[i] == a.instances[i] || InstanceDone(cfg, a, c, i) {
      InstanceDoneLater(cfg, a, b, c, i);
    }
    forall s | s in a.steps
      ensures c.steps[s] == a.steps[s] || (a.steps[s].instance in a.instances && StepDone(cfg, a, c, s))
    {
      StepDoneLater(cfg, a, b, c, s);
    }
    forall key | key in c.vault ensures key in a.vault || Owed(cfg, a, key) == Some(c.vault[key]) {
      if key !in b.vault {
        OwedShrinks(cfg, a, b, key);
      }
    }
  }

  /** However often the backfill was interrupted, the run that finishes reaches the state an
      uninterrupted run reaches. */
  lemma ResumedRunCompletes(cfg: Config, a: Database, b: Database, c: Database)
    requires FixedOn(cfg.p, a) && Partial(cfg, a, b) && Complete(cfg, b, c)
    ensures Complete(cfg, a, c)
  {
    PartialTransitive(cfg, a, b, c);
    forall i | i in a.instances ensures InstanceDone(cfg, a, c, i) {
      InstanceDoneLater(cfg, a, b, c, i);
    }
    forall s | s in a.steps && a.steps[s].instance in a.instances ensures StepDone(cfg, a, c, s) {
      StepDoneLater(cfg, a, b, c, s);
    }
  }

  /** Any number of interrupted runs, then one that finishes: the state is the one an uninterrupted run of
      the original store reaches, and every store on the way is that of a partial run of it. */
  lemma {:induction false} InterruptionsDoNotMatter(cfg: Config, runs: seq<Database>, n: nat)
    requires n < |runs| && FixedOn(cfg.p, runs[0])
    requires forall i :: 0 < i < |runs| ==> Partial(cfg, runs[i - 1], runs[i])
    ensures Partial(cfg, runs[0], runs[n])
    ensures n > 0 && Complete(cfg, runs[n - 1], runs[n]) ==>
      forall d :: Complete(cfg, runs[0], d) <==> d == runs[n]
  {
    if n == 0 {
      NothingDone(cfg, runs[0]);
    } else {
      InterruptionsDoNotMatter(cfg, runs, n - 1);
      PartialTransitive(cfg, runs[0], runs[n - 1], runs[n]);
      if Complete(cfg, runs[n - 1], runs[n]) {
        ResumedRunCompletes(cfg, runs[0], runs[n - 1], runs[n]);
        forall d | Complete(cfg, runs[0], d) ensures d == runs[n] {
          CompleteIsUnique(cfg, runs[0], d, runs[n]);
        }
      }
    }
  }

  /** The finished state is determined by the original one: rows and vault alike. */
  lemma CompleteIsUnique(cfg: Config, a: Database, c: Database, d: Database)
    requires Complete(cfg, a, c) && Complete(cfg, a, d)
    ensures c == d
  {
    assert c.instances == d.instances;
    assert c.steps == d.steps;
    VaultsAgree(cfg, a, c, d);
    VaultsAgree(cfg, a, d, c);
    assert c.vault == d.vault;
  }

  lemma VaultsAgree(cfg: Config, a: Database, c: Database, d: Database)
    requires Complete(cfg, a, c) && Complete(cfg, a, d)
    ensures forall key :: key in c.vault ==> key in d.vault && c.vault[key] == d.vault[key]
  {
    forall key | key in c.vault ensures key in d.vault && c.vault[key] == d.vault[key] {
      if key !in a.vault {
        assert Owed(cfg, a, key) == Some(c.vault[key]);
        assert key.instance in a.instances;
        if key.anchor != INSTANCE_ANCHOR {
          assert StepRowsVaulted(cfg, a, d, key.anchor);
        } else {
          assert InstanceRowsVaulted(cfg, a, d, key.instance);
        }
      }
    }
  }

  /** A finished store owes nothing more, and finishing it again changes nothing. */
  lemma CompleteOwesNothing(cfg: Config, a: Database, c: Database)
    requires FixedOn(cfg.p, a) && Complete(cfg, a, c)
    ensures forall key :: Owed(cfg, c, key).None?
    ensures forall d :: Complete(cfg, c, d) ==> d == c
  {
    forall key ensures Owed(cfg, c, key).None? {
      if key.AttemptKey? && key.instance in a.instances {
        FinalInstanceOwesNothing(cfg, a.instances[key.instance]);
        if key.anchor in a.steps {
          FinalStepOwesNothing(cfg, a, key.anchor);
        }
      }
    }
    forall i | i in c.instances ensures FinalInstance(cfg, c.instances[i]) == c.instances[i] {
      FinalInstanceOwesNothing(cfg, a.instances[i]);
    }
    forall s | s in c.steps && c.steps[s].instance in c.instances ensures FinalStep(cfg, c, s) == c.steps[s] {
      FinalStepAgrees(cfg, a, c, s);
    }
    forall d | Complete(cfg, c, d) ensures d == c {
      FinishedStaysPut(cfg, c, d);
    }
  }

  lemma FinishedStaysPut(cfg: Config, c: Database, d: Database)
    requires forall key :: Owed(cfg, c, key).None?
    requires forall i :: i in c.instances ==> FinalInstance(cfg, c.instances[i]) == c.instances[i]
    requires forall s :: s in c.steps && c.steps[s].instance in c.instances ==> FinalStep(cfg, c, s) == c.steps[s]
    requires Complete(cfg, c, d)
    ensures d == c
  {
    assert d.instances == c.instances;
    assert d.steps == c.steps;
    assert d.vault.Keys == c.vault.Keys;
    assert d.vault == c.vault;
  }

  /** Every vault row is as `_record` wrote it. */
  ghost predicate WellRecorded(cfg: Config, vault: map<Key, Row>) {
    forall key :: key in vault ==> AsRecorded(cfg.cipher, vault[key])
  }

  /** A grant holder who asks for the record gets the payload. */
  predicate Opens(cfg: Config, db: Database, id: Identity, payload: Json) {
    id.Address() in db.vault && PayloadOf(cfg.cipher, db.vault[id.Address()], id) == Success(payload)
  }

  /** Raw that was inline still is, or its own vault row opens to it; a plaintext vault gives back everything but
      what looks like an envelope. */
  ghost predicate Reachable(cfg: Config, db: Database, inline: bool, id: Identity, payload: Json) {
    inline || (Opens(cfg, db, id, payload) <==> Readable(cfg.cipher, payload))
  }

  lemma PartialStaysWellRecorded(cfg: Config, a: Database, b: Database)
    requires WellRecorded(cfg, a.vault) && Partial(cfg, a, b)
    ensures WellRecorded(cfg, b.vault)
  {
  }

  /** An owed row, once vaulted, opens to the raw it was owed for. */
  lemma OwedRowOpens(cfg: Config, a: Database, b: Database, id: Identity, payload: Json)
    requires WellRecorded(cfg, a.vault) && Partial(cfg, a, b)
    requires id.schema == RAW_SCHEMA && id.Address().AttemptKey? && id.kind == id.Address().kind
    requires Settled(cfg, a, b, id.Address())
    requires Owed(cfg, a, id.Address()) == Some(RowOf(cfg.cipher, cfg.p.version, id, payload))
    requires id.kind == Output ==> id.Address() !in a.vault
    ensures Opens(cfg, b, id, payload) <==> Readable(cfg.cipher, payload)
  {
    PartialStaysWellRecorded(cfg, a, b);
    SameWriteReadsBack(cfg.cipher, b.vault[id.Address()], cfg.p.version, id, payload);
  }

  /** No trigger and no error is lost, wherever a run stops: it is still inline, or its own vault row opens to it. */
  lemma NoRawIsLost(cfg: Config, a: Database, b: Database)
    requires Valid(a) && WellRecorded(cfg, a.vault) && Partial(cfg, a, b)
    ensures forall i :: i in a.instances ==> TriggerReachable(cfg, a, b, i) && InstanceErrorReachable(cfg, a, b, i)
    ensures forall s :: s in a.steps && a.steps[s].instance in a.instances ==> StepErrorReachable(cfg, a, b, s)
  {
    forall i | i in a.instances ensures TriggerReachable(cfg, a, b, i) && InstanceErrorReachable(cfg, a, b, i) {
      NoInstanceRawIsLost(cfg, a, b, i);
    }
    forall s | s in a.steps && a.steps[s].instance in a.instances ensures StepErrorReachable(cfg, a, b, s) {
      NoStepErrorIsLost(cfg, a, b, s);
    }
  }

  ghost predicate TriggerReachable(cfg: Config, a: Database, b: Database, i: string)
    requires i in a.instances
  {
    i in b.instances &&
    var raw := a.instances[i].trigger;
    Reachable(cfg, b, b.instances[i].trigger == raw, InstanceIdentity(a.instances[i].org, i, Trigger), Obj(raw))
  }

  ghost predicate InstanceErrorReachable(cfg: Config, a: Database, b: Database, i: string)
    requires i in a.instances
  {
    i in b.instances && (a.instances[i].error.Some? ==>
      var raw := a.instances[i].error.value;
      Reachable(cfg, b, b.instances[i].error == Some(raw), InstanceIdentity(a.instances[i].org, i, Error), Str(raw)))
  }

  ghost predicate StepErrorReachable(cfg: Config, a: Database, b: Database, s: string)
    requires s in a.steps && a.steps[s].instance in a.instances
  {
    s in b.steps && (a.steps[s].error.Some? ==>
      var raw, i := a.steps[s].error.value, a.steps[s].instance;
      Reachable(cfg, b, b.steps[s].error == Some(raw), StepIdentity(a.instances[i].org, i, s, Error), Str(raw)))
  }

  lemma NoInstanceRawIsLost(cfg: Config, a: Database, b: Database, i: string)
    requires WellRecorded(cfg, a.vault) && Partial(cfg, a, b) && i in a.instances
    ensures TriggerReachable(cfg, a, b, i) && InstanceErrorReachable(cfg, a, b, i)
  {
    hide WellRecorded, Opens, Readable;
    var row := a.instances[i];
    if b.instances[i] != row {
      assert InstanceDone(cfg, a, b, i);
      if TriggerOwed(cfg, row) {
        OwedRowOpens(cfg, a, b, InstanceIdentity(row.org, i, Trigger), Obj(row.trigger));
      }
      if ErrorHasRaw(row.error) {
        OwedRowOpens(cfg, a, b, InstanceIdentity(row.org, i, Error), Str(row.error.value));
      }
    }
  }

  lemma NoStepErrorIsLost(cfg: Config, a: Database, b: Database, s: string)
    requires Valid(a) && WellRecorded(cfg, a.vault) && Partial(cfg, a, b)
    requires s in a.steps && a.steps[s].instance in a.instances
    ensures StepErrorReachable(cfg, a, b, s)
  {
    hide WellRecorded, Opens, Readable;
    var row := a.steps[s];
    if b.steps[s] != row {
      assert StepDone(cfg, a, b, s);
      if ErrorHasRaw(row.error) {
        OwedRowOpens(cfg, a, b, StepIdentity(a.instances[row.instance].org, row.instance, s, Error),
          Str(row.error.value));
      }
    }
  }

  /** The backfill repairs this row: an object was vaulted under its key before, it does not open to what is inline,
      and what is inline is projected without being vaulted. */
  predicate RepairLoses(cfg: Config, db: Database, s: string)
    requires s in db.steps && db.steps[s].instance in db.instances
  {
    var row, i := db.steps[s], db.steps[s].instance;
    row.version.None? && OutputOwed(cfg, row) && Vaulted(db, s, Output) &&
    !Opens(cfg, db, StepIdentity(db.instances[i].org, i, s, Output), Obj(row.output.value))
  }

  /** A step output that was inline is still inline, or its own vault row opens to it, exactly while the run has not
      reached its row or that row was not one whose repair loses it. */
  lemma OutputSurvivesIff(cfg: Config, a: Database, b: Database, s: string)
    requires Valid(a) && WellRecorded(cfg, a.vault) && Partial(cfg, a, b)
    requires s in a.steps && a.steps[s].instance in a.instances && a.steps[s].output.Some?
    requires Readable(cfg.cipher, Obj(a.steps[s].output.value))
    ensures var raw, i := a.steps[s].output.value, a.steps[s].instance;
      (b.steps[s].output == Some(raw) || Opens(cfg, b, StepIdentity(a.instances[i].org, i, s, Output), Obj(raw)))
      <==> (b.steps[s] == a.steps[s] || !RepairLoses(cfg, a, s))
  {
    hide WellRecorded, PayloadOf, Readable;
    var row, i := a.steps[s], a.steps[s].instance;
    var id := StepIdentity(a.instances[i].org, i, s, Output);
    if b.steps[s] != row {
      assert StepDone(cfg, a, b, s);
      if row.version.None? && OutputOwed(cfg, row) && !Vaulted(a, s, Output) {
        OwedRowOpens(cfg, a, b, id, Obj(row.output.value));
      }
    }
  }

  /** A step row after a finished backfill. A stamped one is what it was. Any other is stamped exactly when its output
      is not empty and the vault holds a row for it, and then its output is projected; otherwise, a safe output
      without a vault row included, the output stays and there is no stamp. Its error is a marker or none. */
  lemma FinishedStep(cfg: Config, a: Database, b: Database, s: string)
    requires Valid(a) && Complete(cfg, a, b) && s in a.steps && a.steps[s].instance in a.instances
    ensures s in b.steps && b.steps[s].instance == a.steps[s].instance
    ensures a.steps[s].version.Some? ==> b.steps[s] == a.steps[s]
    ensures a.steps[s].version.None? ==>
      var before, after := a.steps[s], b.steps[s];
      var full := before.output.Some? && before.output.value != map[];
      && (after.version.Some? <==> full && Vaulted(b, s, Output))
      && (after.version.Some? ==>
            after.version == Some(cfg.p.version) && after.output == Some(cfg.p.output(before.output.value)))
      && (after.version.None? ==> after.output == before.output)
      && (after.error == before.error || (ErrorHasRaw(before.error) && after.error == Some(REDACTED_FIELD)))
      && (ErrorHasRaw(before.error) ==> after.error == Some(REDACTED_FIELD))
  {
    hide Valid, InstanceDone, InstanceRowsVaulted;
    NewOutputsWereOwed(cfg, a, b, s);
    OwedOutputIsVaulted(cfg, a, b, s);
  }

  lemma OwedOutputIsVaulted(cfg: Config, a: Database, b: Database, s: string)
    requires Valid(a) && Complete(cfg, a, b) && s in a.steps && a.steps[s].instance in a.instances
    ensures s in b.steps && b.steps[s].instance == a.steps[s].instance
    ensures a.steps[s].version.None? && OutputOwed(cfg, a.steps[s]) ==> Vaulted(b, s, Output)
  {
    hide InstanceDone, InstanceRowsVaulted;
    var i := a.steps[s].instance;
    PartialKeepsOrgs(cfg, a, b, i);
    assert StepDone(cfg, a, b, s);
    assert s != INSTANCE_ANCHOR && s != "";
    var key := StepIdentity(a.instances[i].org, i, s, Output).Address();
    if a.steps[s].version.None? && OutputOwed(cfg, a.steps[s]) {
      assert Owed(cfg, a, key).Some?;
    }
  }

  /** An instance row after a finished backfill: trigger and context projected where there are any, the error a
      marker or none, the stamp that of the projector exactly when there is a context. */
  lemma FinishedInstance(cfg: Config, a: Database, b: Database, i: string)
    requires Complete(cfg, a, b) && i in a.instances
    ensures i in b.instances
    ensures var before, after := a.instances[i], b.instances[i];
      && after.org == before.org
      && after.trigger == (if before.trigger != map[] then cfg.p.trigger(before.trigger) else map[])
      && after.context == (if before.context != map[] then cfg.p.context(before.context) else map[])
      && after.version == (if before.context != map[] then Some(cfg.p.version) else before.version)
      && after.error == (if ErrorHasRaw(before.error) then Some(REDACTED_FIELD) else before.error)
  {
  }

  /** Contexts are projected and never vaulted: a finished backfill keeps one exactly when it held no raw. */
  lemma ContextSurvivesIff(cfg: Config, a: Database, b: Database, i: string)
    requires Complete(cfg, a, b) && i in a.instances
    ensures var context := a.instances[i].context;
      i in b.instances && (b.instances[i].context == context <==> context == map[] || cfg.p.context(context) == context)
    ensures forall key :: key in b.vault && key !in a.vault ==> key.AttemptKey? && key.kind in {Trigger, Error, Output}
  {
  }

  /** A store with one raw step and another object under its key. */
  function LossyStore(cfg: Config, raw: Record, other: Record): Database {
    var id := StepIdentity("o", "i", "s", Output);
    Database(["i"], map["i" := Instance("o", map[], map[], None, None)],
             ["s"], map["s" := Step("i", Some(raw), None, None)],
             [], map[id.Address() := RowOf(cfg.cipher, cfg.p.version, id, Obj(other))])
  }

  lemma LossyStoreOwesOneRow(cfg: Config, raw: Record, other: Record)
    ensures var a := LossyStore(cfg, raw, other);
      && Valid(a) && WellRecorded(cfg, a.vault) && FinalInstance(cfg, a.instances["i"]) == a.instances["i"]
      && forall key :: Owed(cfg, a, key).Some? ==> key == StepIdentity("o", "i", "s", Output).Address()
  {
    assert |"s"| != |INSTANCE_ANCHOR| && |"s"| != |AUDIT_ANCHOR|;
  }

  /** Rows whose repair loses them exist for every raw output the projector changes: with any other object vaulted
      under its key, a finished backfill keeps neither the inline value nor a row that opens to it. */
  lemma RepairCanLose(cfg: Config, raw: Record, other: Record) returns (a: Database, b: Database)
    requires cfg.p.output(raw) != raw && raw != map[] && other != raw
    requires Readable(cfg.cipher, Obj(other))
    ensures a == LossyStore(cfg, raw, other) && Valid(a) && Consistent(cfg, a) && WellRecorded(cfg, a.vault)
    ensures Complete(cfg, a, b)
    ensures "s" in b.steps && b.steps["s"].output != Some(raw)
    ensures !Opens(cfg, b, StepIdentity("o", "i", "s", Output), Obj(raw))
  {
    hide Valid, Owed, PayloadOf, Readable, WellRecorded;
    var id := StepIdentity("o", "i", "s", Output);
    a := LossyStore(cfg, raw, other);
    b := a.(steps := map["s" := FinalStep(cfg, a, "s")]);
    LossyStoreOwesOneRow(cfg, raw, other);
    RecordedReadsBack(cfg.cipher, cfg.p.version, id, Obj(other));
  }
}

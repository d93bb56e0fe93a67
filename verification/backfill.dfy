/** `backfill_instance` and `backfill_all` of trace_migration.py. */
module Backfill {
  import opened Wrappers
  import opened Json
  import opened Validators
  import opened Vault
  import opened Store
  import opened Policy
  import opened BackfillSpec
  import opened VaultWriter

  /** Recording an owed row keeps the run a run, settles the row when it succeeds, and is refused exactly for what the
      vault already held when the run began. */
  lemma RecordingOwed(cfg: Config, a: Database, b: Database, key: Key, row: Row, fault: Fault)
    requires Partial(cfg, a, b) && Owed(cfg, a, key) == Some(row)
    requires key.kind == Output ==> key !in b.vault
    ensures var (vault, outcome) := Settle(b.vault, fault, Put(b.vault, key, row));
      && Partial(cfg, a, b.(vault := vault))
      && (outcome.Success? ==> Settled(cfg, a, b.(vault := vault), key))
      && (outcome.Failure? ==> outcome.error == Down || (outcome.error == VaultConflict && Conflicts(cfg, a, key)))
      && (fault.Fine? && outcome.Failure? ==> outcome.error == VaultConflict)
  {
    var (vault, outcome) := Settle(b.vault, fault, Put(b.vault, key, row));
    PuttingOwed(cfg, a, b, key, row);
    if key !in b.vault {
      GainingOwed(cfg, a, b, key, row);
    }
  }

  lemma PuttingOwed(cfg: Config, a: Database, b: Database, key: Key, row: Row)
    requires Partial(cfg, a, b) && Owed(cfg, a, key) == Some(row)
    requires key.kind == Output ==> key !in b.vault
    ensures Put(b.vault, key, row).Failure? ==> Conflicts(cfg, a, key)
  {
    hide InstanceDone, StepDone, Owed;
  }

  lemma GainingOwed(cfg: Config, a: Database, b: Database, key: Key, row: Row)
    requires Partial(cfg, a, b) && Owed(cfg, a, key) == Some(row) && key !in b.vault
    ensures var c := b.(vault := b.vault[key := row]); Partial(cfg, a, c) && Settled(cfg, a, c, key)
  {
    hide Owed;
    var c := b.(vault := b.vault[key := row]);
    forall i | i in a.instances ensures c.instances[i] == a.instances[i] || InstanceDone(cfg, a, c, i) {
      if c.instances[i] != a.instances[i] {
        VaultGrows(cfg, a, b, c);
        assert InstanceDone(cfg, a, b, i);
      }
    }
    forall s | s in a.steps
      ensures c.steps[s] == a.steps[s] || (a.steps[s].instance in a.instances && StepDone(cfg, a, c, s))
    {
      if c.steps[s] != a.steps[s] {
        VaultGrows(cfg, a, b, c);
        assert StepDone(cfg, a, b, s);
      }
    }
  }

  /** Once settled, a row stays settled while the vault grows. */
  lemma VaultGrows(cfg: Config, a: Database, b: Database, c: Database)
    requires Keeps(b, c)
    ensures forall key :: Settled(cfg, a, b, key) ==> Settled(cfg, a, c, key)
  {
  }

  /** Writing a final row whose raw is vaulted keeps the run a run. */
  lemma WritingFinalInstance(cfg: Config, a: Database, b: Database, i: string)
    requires Partial(cfg, a, b) && i in a.instances && InstanceRowsVaulted(cfg, a, b, i)
    ensures var c := b.(instances := b.instances[i := FinalInstance(cfg, a.instances[i])]);
      Partial(cfg, a, c) && InstanceDone(cfg, a, c, i)
  {
    var c := b.(instances := b.instances[i := FinalInstance(cfg, a.instances[i])]);
    assert InstanceRowsVaulted(cfg, a, c, i);
    forall j | j in a.instances ensures c.instances[j] == a.instances[j] || InstanceDone(cfg, a, c, j) {
      if j != i && c.instances[j] != a.instances[j] {
        assert InstanceDone(cfg, a, b, j);
      }
    }
    forall s | s in a.steps
      ensures c.steps[s] == a.steps[s] || (a.steps[s].instance in a.instances && StepDone(cfg, a, c, s))
    {
      if c.steps[s] != a.steps[s] {
        assert StepDone(cfg, a, b, s);
      }
    }
  }

  lemma WritingFinalStep(cfg: Config, a: Database, b: Database, s: string)
    requires Partial(cfg, a, b) && s in a.steps && a.steps[s].instance in a.instances && StepRowsVaulted(cfg, a, b, s)
    ensures var c := b.(steps := b.steps[s := FinalStep(cfg, a, s)]);
      Partial(cfg, a, c) && StepDone(cfg, a, c, s)
  {
    var c := b.(steps := b.steps[s := FinalStep(cfg, a, s)]);
    assert StepRowsVaulted(cfg, a, c, s);
    forall j | j in a.instances ensures c.instances[j] == a.instances[j] || InstanceDone(cfg, a, c, j) {
      if c.instances[j] != a.instances[j] {
        assert InstanceDone(cfg, a, b, j);
      }
    }
    forall t | t in a.steps
      ensures c.steps[t] == a.steps[t] || (a.steps[t].instance in a.instances && StepDone(cfg, a, c, t))
    {
      if t != s && c.steps[t] != a.steps[t] {
        assert StepDone(cfg, a, b, t);
      }
    }
  }

  /** How many vault objects a run put. */
  function Puts(trace: seq<Event>): nat {
    if trace == [] then 0 else Puts(trace[..|trace| - 1]) + (if trace[|trace| - 1].RowPut? then 1 else 0)
  }

  lemma OneMoreEvent(trace: seq<Event>, e: Event)
    ensures Puts(trace + [e]) == Puts(trace) + (if e.RowPut? then 1 else 0)
  {
    assert (trace + [e])[..|trace|] == trace;
  }

  /** A durable `record_*` call for raw that is owed. */
  method RecordOwed(vault: RawTraceVault, ghost a: Database, identity: Identity, payload: Json)
    returns (r: Result<(), StoreError>)
    requires Partial(vault.cfg, a, vault.repos.db) && !Empty(payload)
    requires Owed(vault.cfg, a, identity.Address()) ==
      Some(RowOf(vault.cfg.cipher, vault.cfg.p.version, identity, payload))
    requires identity.kind == Output ==> identity.Address() !in vault.repos.db.vault
    requires identity.Address().AttemptKey?
    modifies vault.repos
    ensures Partial(vault.cfg, a, vault.repos.db)
    ensures vault.repos.db == old(vault.repos.db).(vault := vault.repos.db.vault)
    ensures Keeps(old(vault.repos.db), vault.repos.db)
    ensures r.Success? ==> Settled(vault.cfg, a, vault.repos.db, identity.Address())
    ensures Puts(vault.repos.trace) == Puts(old(vault.repos.trace)) + 1
    ensures r.Failure? ==>
      r.error == Down || (r.error == VaultConflict && Conflicts(vault.cfg, a, identity.Address()))
    ensures Healthy(old(vault.repos.faults)) ==>
      Healthy(vault.repos.faults) && (r.Failure? ==> r.error == VaultConflict)
  {
    RecordingOwed(vault.cfg, a, vault.repos.db, identity.Address(),
      RowOf(vault.cfg.cipher, vault.cfg.p.version, identity, payload), NextFault(vault.repos.faults));
    OneMoreEvent(vault.repos.trace, RowPut(identity.Address()));
    r := vault.Record(identity, payload, true);
  }

  /** The only rows an instance itself can owe. */
  lemma InstanceKeysOwed(cfg: Config, a: Database, i: string)
    requires i in a.instances
    ensures forall key :: Owed(cfg, a, key).Some? && key.instance == i && key.anchor == INSTANCE_ANCHOR ==>
      || (key == InstanceIdentity(a.instances[i].org, i, Trigger).Address() && TriggerOwed(cfg, a.instances[i]))
      || (key == InstanceIdentity(a.instances[i].org, i, Error).Address() && ErrorHasRaw(a.instances[i].error))
  {
  }

  lemma StepKeysOwed(cfg: Config, a: Database, s: string)
    requires s in a.steps && a.steps[s].instance in a.instances && s != INSTANCE_ANCHOR && s != ""
    ensures var i := a.steps[s].instance; var org := a.instances[i].org;
      forall key :: Owed(cfg, a, key).Some? && key.anchor == s ==>
        a.steps[s].version.None? &&
        (|| (key == StepIdentity(org, i, s, Output).Address() && OutputOwed(cfg, a.steps[s]))
         || (key == StepIdentity(org, i, s, Error).Address() && ErrorHasRaw(a.steps[s].error)))
  {
  }

  lemma InstanceIsSettled(cfg: Config, a: Database, b: Database, i: string)
    requires i in a.instances
    requires TriggerOwed(cfg, a.instances[i]) ==>
      Settled(cfg, a, b, InstanceIdentity(a.instances[i].org, i, Trigger).Address())
    requires ErrorHasRaw(a.instances[i].error) ==>
      Settled(cfg, a, b, InstanceIdentity(a.instances[i].org, i, Error).Address())
    ensures InstanceRowsVaulted(cfg, a, b, i)
  {
    InstanceKeysOwed(cfg, a, i);
  }

  lemma StepIsSettled(cfg: Config, a: Database, b: Database, s: string)
    requires s in a.steps && a.steps[s].instance in a.instances && s != INSTANCE_ANCHOR && s != ""
    requires var row, org := a.steps[s], a.instances[a.steps[s].instance].org;
      row.version.None? ==>
        && (OutputOwed(cfg, row) ==> Settled(cfg, a, b, StepIdentity(org, row.instance, s, Output).Address()))
        && (ErrorHasRaw(row.error) ==> Settled(cfg, a, b, StepIdentity(org, row.instance, s, Error).Address()))
    ensures StepRowsVaulted(cfg, a, b, s)
  {
    StepKeysOwed(cfg, a, s);
  }

  /** `if _trigger_has_raw(...)`: vault the trigger. */
  method VaultTrigger(vault: RawTraceVault, ghost a: Database, i: string, row: Instance)
    returns (r: Result<nat, RunError>)
    requires FixedOn(vault.cfg.p, a) && Partial(vault.cfg, a, vault.repos.db)
    requires i in a.instances && i in vault.repos.db.instances && vault.repos.db.instances[i] == a.instances[i] == row
    modifies vault.repos
    ensures Partial(vault.cfg, a, vault.repos.db)
    ensures vault.repos.db == old(vault.repos.db).(vault := vault.repos.db.vault)
    ensures r.Success? ==> r.value == (if TriggerOwed(vault.cfg, row) then 1 else 0)
    ensures r.Success? && TriggerOwed(vault.cfg, row) ==>
      Settled(vault.cfg, a, vault.repos.db, InstanceIdentity(row.org, i, Trigger).Address())
    ensures r.Success? ==> Puts(vault.repos.trace) == Puts(old(vault.repos.trace)) + r.value
    ensures r.Failure? ==> r.error == WriteFailed || (r.error == Conflicting && RowConflicts(vault.cfg, a, i))
    ensures Healthy(old(vault.repos.faults)) ==>
      Healthy(vault.repos.faults) && (r.Failure? ==> r.error == Conflicting)
    ensures Keeps(old(vault.repos.db), vault.repos.db)
  {
    if row.trigger == map[] || vault.cfg.p.trigger(row.trigger) == row.trigger {
      return Success(0);
    }
    var id := InstanceIdentity(row.org, i, Trigger);
    InstanceOwes(vault.cfg, a, i);
    var recorded := RecordOwed(vault, a, id, Obj(row.trigger));
    r := if recorded.Failure? then Failure(ErrorOf(recorded.error)) else Success(1);
  }

  /** `if _error_has_raw(...)`: vault the error of an instance or of a step. */
  method VaultError(vault: RawTraceVault, ghost a: Database, id: Identity, error: Option<string>)
    returns (r: Result<nat, RunError>)
    requires FixedOn(vault.cfg.p, a) && Partial(vault.cfg, a, vault.repos.db)
    requires id.kind == Error && id.Address().AttemptKey?
    requires ErrorHasRaw(error) ==>
      var row := RowOf(vault.cfg.cipher, vault.cfg.p.version, id, Str(error.value));
      Owed(vault.cfg, a, id.Address()) == Some(row)
    modifies vault.repos
    ensures Partial(vault.cfg, a, vault.repos.db)
    ensures vault.repos.db == old(vault.repos.db).(vault := vault.repos.db.vault)
    ensures Keeps(old(vault.repos.db), vault.repos.db)
    ensures r.Success? ==> r.value == (if ErrorHasRaw(error) then 1 else 0)
    ensures r.Success? && ErrorHasRaw(error) ==> Settled(vault.cfg, a, vault.repos.db, id.Address())
    ensures r.Success? ==> Puts(vault.repos.trace) == Puts(old(vault.repos.trace)) + r.value
    ensures r.Failure? ==>
      r.error == WriteFailed || (r.error == Conflicting && RowConflicts(vault.cfg, a, id.instance))
    ensures Healthy(old(vault.repos.faults)) ==>
      Healthy(vault.repos.faults) && (r.Failure? ==> r.error == Conflicting)
  {
    if !ErrorHasRaw(error) {
      return Success(0);
    }
    var recorded := RecordOwed(vault, a, id, Str(error.value));
    r := if recorded.Failure? then Failure(ErrorOf(recorded.error)) else Success(1);
  }

  /** How many vault objects a row's inline raw makes. */
  function InstanceDebt(cfg: Config, row: Instance): nat {
    (if TriggerOwed(cfg, row) then 1 else 0) + (if ErrorHasRaw(row.error) then 1 else 0)
  }

  function StepDebt(cfg: Config, row: Step): nat {
    if row.version.Some? then 0
    else (if OutputOwed(cfg, row) then 1 else 0) + (if ErrorHasRaw(row.error) then 1 else 0)
  }

  /** The instance part of `backfill_instance`: trigger, context and error, then one row update. */
  method BackfillInstanceRow(vault: RawTraceVault, ghost a: Database, i: string) returns (r: Result<nat, RunError>)
    requires FixedOn(vault.cfg.p, a) && Partial(vault.cfg, a, vault.repos.db)
    requires i in a.instances && i in vault.repos.db.instances && vault.repos.db.instances[i] == a.instances[i]
    modifies vault.repos
    ensures Partial(vault.cfg, a, vault.repos.db)
    ensures vault.repos.db.steps == old(vault.repos.db.steps)
    ensures i in vault.repos.db.instances
    ensures vault.repos.db.instances == old(vault.repos.db.instances)[i := vault.repos.db.instances[i]]
    ensures r.Success? ==> InstanceDone(vault.cfg, a, vault.repos.db, i)
    ensures r.Success? ==> Puts(vault.repos.trace) == Puts(old(vault.repos.trace)) + r.value
    ensures r.Success? ==> !InstanceRaises(vault.cfg, a.instances[i])
    ensures r == Failure(Unprojectable) ==> InstanceRaises(vault.cfg, a.instances[i])
    ensures r == Failure(Conflicting) ==> RowConflicts(vault.cfg, a, i)
    ensures Healthy(old(vault.repos.faults)) ==>
      Healthy(vault.repos.faults) && r != Failure(WriteFailed)
    ensures r.Success? ==> r.value == InstanceDebt(vault.cfg, a.instances[i])
  {
    hide Partial, Owed, Puts, FixedOn, TriggerOwed, Settled, InstanceRowsVaulted, RowConflicts, Keeps;
    var row := vault.repos.db.instances[i];
    var triggers := VaultTrigger(vault, a, i, row);
    if triggers.Failure? {
      return triggers;
    }
    if row.context != map[] && vault.cfg.p.contextRaises(row.context) {
      return Failure(Unprojectable);
    }
    var errorId := InstanceIdentity(row.org, i, Error);
    InstanceOwes(vault.cfg, a, i);
    ghost var middle := vault.repos.db;
    var errors := VaultError(vault, a, errorId, row.error);
    if errors.Failure? {
      return errors;
    }
    VaultGrows(vault.cfg, a, middle, vault.repos.db);
    InstanceIsSettled(vault.cfg, a, vault.repos.db, i);
    var updated := WriteInstance(vault, a, i, row);
    r := if updated.Failure? then Failure(WriteFailed) else Success(triggers.value + errors.value);
  }

  /** `instances.update`: the row is final once its raw is in the vault. */
  method WriteInstance(vault: RawTraceVault, ghost a: Database, i: string, row: Instance)
    returns (r: Result<(), StoreError>)
    requires Partial(vault.cfg, a, vault.repos.db)
    requires i in a.instances && i in vault.repos.db.instances && vault.repos.db.instances[i] == a.instances[i] == row
    requires InstanceRowsVaulted(vault.cfg, a, vault.repos.db, i)
    modifies vault.repos
    ensures Partial(vault.cfg, a, vault.repos.db)
    ensures vault.repos.db.steps == old(vault.repos.db.steps)
    ensures i in vault.repos.db.instances
    ensures vault.repos.db.instances == old(vault.repos.db.instances)[i := vault.repos.db.instances[i]]
    ensures r.Success? ==> InstanceDone(vault.cfg, a, vault.repos.db, i)
    ensures Puts(vault.repos.trace) == Puts(old(vault.repos.trace))
    ensures r.Failure? ==> r.error == Down
    ensures Healthy(old(vault.repos.faults)) ==> r.Success? && Healthy(vault.repos.faults)
  {
    WritingFinalInstance(vault.cfg, a, vault.repos.db, i);
    OneMoreEvent(vault.repos.trace, InstanceWritten(i));
    r := vault.repos.UpdateInstance(i, Projected(vault.cfg, row));
  }

  method WriteStep(vault: RawTraceVault, ghost a: Database, s: string, final: Step) returns (r: Result<(), StoreError>)
    requires Partial(vault.cfg, a, vault.repos.db)
    requires s in a.steps && a.steps[s].instance in a.instances && final == FinalStep(vault.cfg, a, s)
    requires StepRowsVaulted(vault.cfg, a, vault.repos.db, s)
    modifies vault.repos
    ensures Partial(vault.cfg, a, vault.repos.db)
    ensures vault.repos.db.instances == old(vault.repos.db.instances)
    ensures vault.repos.db.vault == old(vault.repos.db.vault)
    ensures s in vault.repos.db.steps
    ensures vault.repos.db.steps == old(vault.repos.db.steps)[s := vault.repos.db.steps[s]]
    ensures r.Success? ==> StepDone(vault.cfg, a, vault.repos.db, s)
    ensures Puts(vault.repos.trace) == Puts(old(vault.repos.trace))
    ensures r.Failure? ==> r.error == Down
    ensures Healthy(old(vault.repos.faults)) ==> r.Success? && Healthy(vault.repos.faults)
  {
    WritingFinalStep(vault.cfg, a, vault.repos.db, s);
    assert s in vault.repos.db.steps;
    OneMoreEvent(vault.repos.trace, StepWritten(s));
    r := vault.repos.UpdateStep(s, final);
  }

  /** The row as the code rebuilds it, field by field. */
  function Projected(cfg: Config, row: Instance): (final: Instance)
    ensures final == FinalInstance(cfg, row)
  {
    var safe := if row.trigger != map[] && cfg.p.trigger(row.trigger) != row.trigger
                then row.(trigger := cfg.p.trigger(row.trigger)) else row;
    var stamped := if safe.context != map[]
                   then safe.(context := cfg.p.context(safe.context), version := Some(cfg.p.version)) else safe;
    if ErrorHasRaw(stamped.error) then stamped.(error := Some(REDACTED_FIELD)) else stamped
  }

  lemma InstanceOwes(cfg: Config, a: Database, i: string)
    requires i in a.instances
    ensures var row := a.instances[i];
      && (TriggerOwed(cfg, row) ==>
           var id := InstanceIdentity(row.org, i, Trigger);
           Owed(cfg, a, id.Address()) == Some(RowOf(cfg.cipher, cfg.p.version, id, Obj(row.trigger))))
      && (ErrorHasRaw(row.error) ==>
           var id := InstanceIdentity(row.org, i, Error);
           Owed(cfg, a, id.Address()) == Some(RowOf(cfg.cipher, cfg.p.version, id, Str(row.error.value))))
  {
  }

  lemma StepOwes(cfg: Config, a: Database, s: string)
    requires s in a.steps && a.steps[s].instance in a.instances && s != INSTANCE_ANCHOR && s != ""
    requires a.steps[s].version.None?
    ensures var row := a.steps[s]; var i := row.instance; var org := a.instances[i].org;
      && (OutputOwed(cfg, row) ==>
           var id := StepIdentity(org, i, s, Output);
           Owed(cfg, a, id.Address()) == Some(RowOf(cfg.cipher, cfg.p.version, id, Obj(row.output.value))))
      && (ErrorHasRaw(row.error) ==>
           var id := StepIdentity(org, i, s, Error);
           Owed(cfg, a, id.Address()) == Some(RowOf(cfg.cipher, cfg.p.version, id, Str(row.error.value))))
  {
  }

  /** The output part of a step: repair a vaulted row, vault a raw one, or leave a safe one unstamped. */
  method MigrateOutput(vault: RawTraceVault, ghost a: Database, org: string, s: string, row: Step)
    returns (r: Result<nat, RunError>, final: Step)
    requires FixedOn(vault.cfg.p, a) && Partial(vault.cfg, a, vault.repos.db)
    requires s in a.steps && s in vault.repos.db.steps && vault.repos.db.steps[s] == a.steps[s] == row
    requires s != INSTANCE_ANCHOR && s != ""
    requires row.instance in a.instances && a.instances[row.instance].org == org && row.version.None?
    modifies vault.repos
    ensures Partial(vault.cfg, a, vault.repos.db)
    ensures vault.repos.db == old(vault.repos.db).(vault := vault.repos.db.vault)
    ensures Keeps(old(vault.repos.db), vault.repos.db)
    ensures r.Success? ==>
      final.(error := SafeError(row.error)) == FinalStep(vault.cfg, a, s) && final.error == row.error
    ensures r.Success? && OutputOwed(vault.cfg, row) ==>
      Settled(vault.cfg, a, vault.repos.db, StepIdentity(org, row.instance, s, Output).Address())
    ensures r.Success? ==> Puts(vault.repos.trace) == Puts(old(vault.repos.trace)) + r.value
    ensures r.Success? ==> !StepRaises(vault.cfg, row)
    ensures r == Failure(Unprojectable) ==> StepRaises(vault.cfg, row)
    ensures r != Failure(Conflicting)
    ensures Healthy(old(vault.repos.faults)) ==>
      Healthy(vault.repos.faults) && r != Failure(WriteFailed)
    ensures r.Success? ==> r.value <= if OutputOwed(vault.cfg, row) then 1 else 0
  {
    final := row;
    if row.output.None? || row.output.value == map[] {
      return Success(0), final;
    }
    if vault.cfg.p.outputRaises(row.output.value) {
      return Failure(Unprojectable), final;
    }
    var id := StepIdentity(org, row.instance, s, Output);
    var safe := row.(output := Some(vault.cfg.p.output(row.output.value)), version := Some(vault.cfg.p.version));
    FinalStepAgrees(vault.cfg, a, vault.repos.db, s);
    PartialKeepsOrgs(vault.cfg, a, vault.repos.db, row.instance);
    if id.Address() in vault.repos.db.vault {
      return Success(0), safe;
    }
    if vault.cfg.p.output(row.output.value) == row.output.value {
      return Success(0), final;
    }
    StepOwes(vault.cfg, a, s);
    var recorded := RecordOwed(vault, a, id, Obj(row.output.value));
    if recorded.Failure? {
      return Failure(WriteFailed), final;
    }
    return Success(1), safe;
  }

  lemma StampedStepIsFinal(cfg: Config, a: Database, s: string)
    requires s in a.steps && a.steps[s].version.Some?
    ensures FinalStep(cfg, a, s) == a.steps[s]
  {
  }

  lemma UnwrittenStepIsDone(cfg: Config, a: Database, b: Database, s: string)
    requires s in a.steps && s in b.steps && b.steps[s] == a.steps[s] == FinalStep(cfg, a, s)
    requires StepRowsVaulted(cfg, a, b, s)
    ensures StepDone(cfg, a, b, s)
  {
  }

  /** The loop body of `backfill_instance` for one step row. */
  method BackfillStep(vault: RawTraceVault, ghost a: Database, org: string, s: string)
    returns (r: Result<nat, RunError>)
    requires FixedOn(vault.cfg.p, a) && Partial(vault.cfg, a, vault.repos.db)
    requires s in a.steps && s in vault.repos.db.steps && vault.repos.db.steps[s] == a.steps[s]
    requires s != INSTANCE_ANCHOR && s != ""
    requires a.steps[s].instance in a.instances && a.instances[a.steps[s].instance].org == org
    modifies vault.repos
    ensures Partial(vault.cfg, a, vault.repos.db)
    ensures vault.repos.db.instances == old(vault.repos.db.instances)
    ensures s in vault.repos.db.steps
    ensures vault.repos.db.steps == old(vault.repos.db.steps)[s := vault.repos.db.steps[s]]
    ensures Keeps(old(vault.repos.db), vault.repos.db)
    ensures r.Success? ==> StepDone(vault.cfg, a, vault.repos.db, s)
    ensures r.Success? ==> Puts(vault.repos.trace) == Puts(old(vault.repos.trace)) + r.value
    ensures r.Success? ==> !StepRaises(vault.cfg, a.steps[s])
    ensures r == Failure(Unprojectable) ==> StepRaises(vault.cfg, a.steps[s])
    ensures r == Failure(Conflicting) ==> RowConflicts(vault.cfg, a, a.steps[s].instance)
    ensures Healthy(old(vault.repos.faults)) ==>
      Healthy(vault.repos.faults) && r != Failure(WriteFailed)
    ensures r.Success? ==> r.value <= StepDebt(vault.cfg, a.steps[s])
  {
    hide Partial, Owed, Puts, StepDone, FixedOn;
    hide OutputOwed, ErrorHasRaw, SafeError, OutputRaises, FinalStep, Settled, StepRowsVaulted, RowConflicts;
    var row := vault.repos.db.steps[s];
    if row.version.Some? {
      StepIsSettled(vault.cfg, a, vault.repos.db, s);
      StampedStepIsFinal(vault.cfg, a, s);
      UnwrittenStepIsDone(vault.cfg, a, vault.repos.db, s);
      return Success(0);
    }
    var outputs, final := MigrateOutput(vault, a, org, s, row);
    if outputs.Failure? {
      return outputs;
    }
    StepOwes(vault.cfg, a, s);
    ghost var middle := vault.repos.db;
    var errors := VaultError(vault, a, StepIdentity(org, row.instance, s, Error), row.error);
    if errors.Failure? {
      return errors;
    }
    VaultGrows(vault.cfg, a, middle, vault.repos.db);
    StepIsSettled(vault.cfg, a, vault.repos.db, s);
    final := final.(error := SafeError(final.error));
    if final != row {
      var updated := WriteStep(vault, a, s, final);
      if updated.Failure? {
        return Failure(WriteFailed);
      }
    } else {
      UnwrittenStepIsDone(vault.cfg, a, vault.repos.db, s);
    }
    return Success(outputs.value + errors.value);
  }

  /** `steps.list_by_instance`: in repository order. */
  function StepsOf(db: Database, order: seq<string>, i: string): (ids: seq<string>)
    ensures forall s :: s in ids <==> s in order && s in db.steps && db.steps[s].instance == i
    ensures Distinct(order) ==> Distinct(ids)
  {
    if order == [] then []
    else
      var rest := StepsOf(db, order[1..], i);
      if order[0] in db.steps && db.steps[order[0]].instance == i then [order[0]] + rest else rest
  }

  /** Instance `i` and all its steps are final. */
  ghost predicate InstanceFinished(cfg: Config, a: Database, b: Database, i: string) {
    && i in a.instances && i in b.instances && InstanceDone(cfg, a, b, i)
    && forall s :: s in a.steps && a.steps[s].instance == i ==> s in b.steps && StepDone(cfg, a, b, s)
  }

  lemma StepDoneStays(cfg: Config, a: Database, b: Database, c: Database, s: string)
    requires s in a.steps && s in b.steps && s in c.steps && c.steps[s] == b.steps[s] && Keeps(b, c)
    requires StepDone(cfg, a, b, s)
    ensures StepDone(cfg, a, c, s)
  {
  }

  /** The loop over the steps of one instance; `ids` is the listing the run iterates. */
  method BackfillSteps(vault: RawTraceVault, ghost a: Database, org: string, i: string, ids: seq<string>)
    returns (r: Result<nat, RunError>)
    requires FixedOn(vault.cfg.p, a) && Partial(vault.cfg, a, vault.repos.db)
    requires Distinct(ids)
    requires i in a.instances && a.instances[i].org == org
    requires forall s :: s in ids ==> s in a.steps && s in vault.repos.db.steps && a.steps[s].instance == i
    requires forall s :: s in ids ==> s != INSTANCE_ANCHOR && s != "" && vault.repos.db.steps[s] == a.steps[s]
    modifies vault.repos
    ensures Partial(vault.cfg, a, vault.repos.db)
    ensures vault.repos.db.instances == old(vault.repos.db.instances)
    ensures Keeps(old(vault.repos.db), vault.repos.db)
    ensures r.Success? ==> forall s :: s in ids ==>
      s in vault.repos.db.steps && StepDone(vault.cfg, a, vault.repos.db, s)
    ensures r.Success? && (forall s :: s in ids ==> StepDebt(vault.cfg, a.steps[s]) == 0) ==> r.value == 0
    ensures r.Success? ==> Puts(vault.repos.trace) == Puts(old(vault.repos.trace)) + r.value
    ensures forall t :: t in old(vault.repos.db.steps) && t !in ids ==>
      t in vault.repos.db.steps && vault.repos.db.steps[t] == old(vault.repos.db.steps)[t]
    ensures r.Success? ==> forall s :: s in ids ==> !StepRaises(vault.cfg, a.steps[s])
    ensures r == Failure(Unprojectable) ==> exists s :: s in ids && StepRaises(vault.cfg, a.steps[s])
    ensures r == Failure(Conflicting) ==> RowConflicts(vault.cfg, a, i)
    ensures Healthy(old(vault.repos.faults)) ==>
      Healthy(vault.repos.faults) && r != Failure(WriteFailed)
  {
    hide Partial, Owed, Puts, StepDone, StepRaises, StepDebt, StepsSoFar;
    var written := 0;
    ghost var start := vault.repos.db;
    NoStepSoFar(vault.cfg, a, start, ids);
    for n := 0 to |ids|
      invariant Partial(vault.cfg, a, vault.repos.db) && StepsSoFar(vault.cfg, a, start, vault.repos.db, ids, n)
      invariant (forall s :: s in ids ==> StepDebt(vault.cfg, a.steps[s]) == 0) ==> written == 0
      invariant Puts(vault.repos.trace) == Puts(old(vault.repos.trace)) + written
      invariant Healthy(old(vault.repos.faults)) ==> Healthy(vault.repos.faults)
    {
      assert ids[n] in ids;
      ghost var b := vault.repos.db;
      NextStepIsUntouched(vault.cfg, a, start, b, ids, n);
      var step := BackfillStep(vault, a, org, ids[n]);
      OtherStepsStay(vault.cfg, a, start, b, vault.repos.db, ids, n);
      if step.Failure? {
        return step;
      }
      OneMoreStep(vault.cfg, a, start, b, vault.repos.db, ids, n);
      written := written + step.value;
    }
    StepsAreDone(vault.cfg, a, start, vault.repos.db, ids);
    return Success(written);
  }

  /** The first `n` steps of the listing are final and raised nothing; the other steps are untouched. */
  ghost predicate StepsSoFar(cfg: Config, a: Database, start: Database, b: Database, ids: seq<string>, n: nat)
    requires n <= |ids|
  {
    && b.instances == start.instances && Keeps(start, b)
    && (forall m :: 0 <= m < |ids| ==> ids[m] in a.steps && ids[m] in b.steps)
    && (forall m :: n <= m < |ids| ==> b.steps[ids[m]] == a.steps[ids[m]])
    && (forall m :: 0 <= m < n ==> StepDone(cfg, a, b, ids[m]) && !StepRaises(cfg, a.steps[ids[m]]))
    && (forall t :: t in start.steps && t !in ids ==> t in b.steps && b.steps[t] == start.steps[t])
  }

  lemma NoStepSoFar(cfg: Config, a: Database, start: Database, ids: seq<string>)
    requires forall s :: s in ids ==> s in a.steps && s in start.steps && start.steps[s] == a.steps[s]
    ensures StepsSoFar(cfg, a, start, start, ids, 0)
  {
  }

  lemma NextStepIsUntouched(cfg: Config, a: Database, start: Database, b: Database, ids: seq<string>, n: nat)
    requires n < |ids| && StepsSoFar(cfg, a, start, b, ids, n)
    ensures ids[n] in a.steps && ids[n] in b.steps && b.steps[ids[n]] == a.steps[ids[n]]
  {
  }

  lemma OtherStepsStay(
    cfg: Config, a: Database, start: Database, b: Database, c: Database, ids: seq<string>, n: nat)
    requires n < |ids| && StepsSoFar(cfg, a, start, b, ids, n)
    requires c.instances == b.instances && Keeps(b, c)
    requires ids[n] in c.steps && c.steps == b.steps[ids[n] := c.steps[ids[n]]]
    ensures c.instances == start.instances && Keeps(start, c)
    ensures forall t :: t in start.steps && t !in ids ==> t in c.steps && c.steps[t] == start.steps[t]
  {
  }

  lemma OneMoreStep(cfg: Config, a: Database, start: Database, b: Database, c: Database, ids: seq<string>, n: nat)
    requires n < |ids| && Distinct(ids) && StepsSoFar(cfg, a, start, b, ids, n)
    requires c.instances == b.instances && Keeps(b, c)
    requires ids[n] in c.steps && c.steps == b.steps[ids[n] := c.steps[ids[n]]]
    requires ids[n] in a.steps && StepDone(cfg, a, c, ids[n]) && !StepRaises(cfg, a.steps[ids[n]])
    ensures StepsSoFar(cfg, a, start, c, ids, n + 1)
  {
    hide StepDone, StepRaises;
    forall m | 0 <= m < n ensures StepDone(cfg, a, c, ids[m]) {
      StepDoneStays(cfg, a, b, c, ids[m]);
    }
    OtherStepsStay(cfg, a, start, b, c, ids, n);
  }

  lemma StepsAreDone(cfg: Config, a: Database, start: Database, b: Database, ids: seq<string>)
    requires StepsSoFar(cfg, a, start, b, ids, |ids|)
    ensures b.instances == start.instances && Keeps(start, b)
    ensures forall s :: s in ids ==>
      s in a.steps && s in b.steps && StepDone(cfg, a, b, s) && !StepRaises(cfg, a.steps[s])
    ensures forall t :: t in start.steps && t !in ids ==> t in b.steps && b.steps[t] == start.steps[t]
  {
  }

  lemma NothingOwedIsNoDebt(cfg: Config, a: Database, i: string)
    requires Valid(a) && i in a.instances && forall key :: Owed(cfg, a, key).None?
    ensures InstanceDebt(cfg, a.instances[i]) == 0
    ensures forall s :: s in a.steps && a.steps[s].instance == i ==> StepDebt(cfg, a.steps[s]) == 0
  {
    InstanceOwes(cfg, a, i);
    forall s | s in a.steps && a.steps[s].instance == i ensures StepDebt(cfg, a.steps[s]) == 0 {
      if a.steps[s].version.None? {
        StepOwes(cfg, a, s);
      }
    }
  }

  /** `backfill_instance`: whatever fails and wherever, the store is that of a partial run. When it returns,
      the instance and its steps are final; without faults it returns exactly when no projection it
      needs raises and the vault holds nothing else under the key of a trigger or error that is still inline. */
  method BackfillInstance(vault: RawTraceVault, i: string) returns (r: Result<nat, RunError>)
    requires FixedOn(vault.cfg.p, vault.repos.db) && Valid(vault.repos.db)
    modifies vault.repos
    ensures Partial(vault.cfg, old(vault.repos.db), vault.repos.db)
    ensures r.Success? && i in old(vault.repos.db.instances) ==>
      InstanceFinished(vault.cfg, old(vault.repos.db), vault.repos.db, i)
    ensures r.Success? && (forall key :: Owed(vault.cfg, old(vault.repos.db), key).None?) ==> r.value == 0
    ensures r.Success? ==> Puts(vault.repos.trace) == Puts(old(vault.repos.trace)) + r.value
    ensures forall j :: j in old(vault.repos.db.instances) && j != i ==>
      j in vault.repos.db.instances && vault.repos.db.instances[j] == old(vault.repos.db.instances)[j]
    ensures forall t :: t in old(vault.repos.db.steps) && old(vault.repos.db.steps)[t].instance != i ==>
      t in vault.repos.db.steps && vault.repos.db.steps[t] == old(vault.repos.db.steps)[t]
    ensures r.Success? ==>
      !RowRaises(vault.cfg, old(vault.repos.db), i) && !RowConflicts(vault.cfg, old(vault.repos.db), i)
    ensures r == Failure(Unprojectable) ==> RowRaises(vault.cfg, old(vault.repos.db), i)
    ensures r == Failure(Conflicting) ==> RowConflicts(vault.cfg, old(vault.repos.db), i)
    ensures Healthy(old(vault.repos.faults)) ==>
      && Healthy(vault.repos.faults)
      && (r.Success? <==>
            !RowRaises(vault.cfg, old(vault.repos.db), i) && !RowConflicts(vault.cfg, old(vault.repos.db), i))
  {
    hide Partial, Owed, Puts, FixedOn, InstanceFinished, RowConflicts, StepsRaise;
    ghost var a := vault.repos.db;
    NothingDone(vault.cfg, a);
    NoRowNoConflict(vault.cfg, a, i);
    if i !in vault.repos.db.instances {
      return Success(0);
    }
    var org := vault.repos.db.instances[i].org;
    var instance := BackfillInstanceRow(vault, a, i);
    if instance.Failure? {
      ThreeReasons(instance);
      return instance;
    }
    r := BackfillItsSteps(vault, a, org, i, instance.value);
    ThreeReasons(r);
    if r.Success? {
      FinishedDidNotConflict(vault.cfg, a, vault.repos.db, i);
    }
    if (forall key :: Owed(vault.cfg, a, key).None?) && r.Success? {
      NothingOwedIsNoDebt(vault.cfg, a, i);
    }
  }

  method BackfillItsSteps(vault: RawTraceVault, ghost a: Database, org: string, i: string, written: nat)
    returns (r: Result<nat, RunError>)
    requires FixedOn(vault.cfg.p, a) && Valid(a) && Partial(vault.cfg, a, vault.repos.db)
    requires i in a.instances && a.instances[i].org == org && vault.repos.db.steps == a.steps
    requires InstanceDone(vault.cfg, a, vault.repos.db, i)
    modifies vault.repos
    ensures Partial(vault.cfg, a, vault.repos.db)
    ensures r.Success? ==> InstanceFinished(vault.cfg, a, vault.repos.db, i)
    ensures
      r.Success? && (forall s :: s in a.steps && a.steps[s].instance == i ==> StepDebt(vault.cfg, a.steps[s]) == 0) ==>
      r.value == written
    ensures r.Success? ==> Puts(vault.repos.trace) == Puts(old(vault.repos.trace)) + (r.value - written)
    ensures r.Success? ==> written <= r.value
    ensures vault.repos.db.instances == old(vault.repos.db.instances)
    ensures forall t :: t in a.steps && a.steps[t].instance != i ==>
      t in vault.repos.db.steps && vault.repos.db.steps[t] == a.steps[t]
    ensures r.Success? ==> !StepsRaise(vault.cfg, a, i)
    ensures r == Failure(Unprojectable) ==> StepsRaise(vault.cfg, a, i)
    ensures r == Failure(Conflicting) ==> RowConflicts(vault.cfg, a, i)
    ensures Healthy(old(vault.repos.faults)) ==>
      Healthy(vault.repos.faults) && r != Failure(WriteFailed)
  {
    var ids := StepsOf(vault.repos.db, vault.repos.db.stepOrder, i);
    var steps := BackfillSteps(vault, a, org, i, ids);
    r := if steps.Failure? then steps else Success(written + steps.value);
  }

  lemma ThreeReasons(r: Result<nat, RunError>)
    ensures r.Success? || r == Failure(WriteFailed) || r == Failure(Unprojectable) || r == Failure(Conflicting)
  {
    if r.Failure? {
      assert r.error.WriteFailed? || r.error.Unprojectable? || r.error.Conflicting?;
    }
  }

  lemma NoRowNoConflict(cfg: Config, a: Database, i: string)
    ensures RowConflicts(cfg, a, i) ==> i in a.instances
  {
  }

  /** What was finished was in no conflict. */
  lemma FinishedDidNotConflict(cfg: Config, a: Database, b: Database, i: string)
    requires Partial(cfg, a, b) && InstanceFinished(cfg, a, b, i)
    ensures !RowConflicts(cfg, a, i)
  {
    forall key: Key | key.AttemptKey? && key.instance == i ensures !Conflicts(cfg, a, key) {
      if Owed(cfg, a, key).Some? {
        assert Settled(cfg, a, b, key);
      }
    }
  }

  /** The rows of an instance are what they were. */
  ghost predicate SameRows(a: Database, b: Database, i: string) {
    && (i in a.instances <==> i in b.instances)
    && (i in a.instances ==> b.instances[i] == a.instances[i])
    && (forall s :: s in a.steps && a.steps[s].instance == i ==> s in b.steps && b.steps[s] == a.steps[s])
    && (forall s :: s in b.steps && b.steps[s].instance == i ==> s in a.steps && b.steps[s] == a.steps[s])
  }

  lemma SameRowsRaise(cfg: Config, a: Database, b: Database, i: string)
    requires SameRows(a, b, i)
    ensures RowRaises(cfg, a, i) <==> RowRaises(cfg, b, i)
  {
  }

  lemma StepKeepsItsInstance(cfg: Config, b: Database, c: Database, s: string)
    requires Partial(cfg, b, c) && s in c.steps
    ensures s in b.steps && c.steps[s].instance == b.steps[s].instance
  {
    assert c.steps[s] == b.steps[s] || StepDone(cfg, b, c, s);
  }

  /** Running one instance leaves the rows of the others as they were. */
  lemma OtherRowsStay(cfg: Config, a: Database, b: Database, c: Database, i: string, j: string)
    requires Partial(cfg, b, c) && SameRows(a, b, j) && i != j
    requires forall k :: k in b.instances && k != i ==> k in c.instances && c.instances[k] == b.instances[k]
    requires forall t :: t in b.steps && b.steps[t].instance != i ==> t in c.steps && c.steps[t] == b.steps[t]
    ensures SameRows(a, c, j)
  {
    forall s | s in c.steps && c.steps[s].instance == j ensures s in b.steps && b.steps[s].instance == j {
      StepKeepsItsInstance(cfg, b, c, s);
    }
  }

  lemma PartialStaysValid(cfg: Config, a: Database, b: Database)
    requires Valid(a) && Partial(cfg, a, b)
    ensures Valid(b)
  {
  }

  /** What one instance's run finished stays finished while others run, counted from the first store. */
  lemma FinishedLater(cfg: Config, a: Database, b: Database, c: Database, i: string)
    requires FixedOn(cfg.p, a) && Partial(cfg, a, b) && Partial(cfg, b, c)
    ensures InstanceFinished(cfg, a, b, i) || InstanceFinished(cfg, b, c, i) ==> InstanceFinished(cfg, a, c, i)
  {
    hide Owed, Settled, FixedOn, FinalInstance, InstanceRowsVaulted, StepRowsVaulted;
    if InstanceFinished(cfg, a, b, i) || InstanceFinished(cfg, b, c, i) {
      assert b.instances.Keys == a.instances.Keys && c.instances.Keys == b.instances.Keys;
      InstanceDoneLater(cfg, a, b, c, i);
      forall s | s in a.steps && a.steps[s].instance == i ensures s in c.steps && StepDone(cfg, a, c, s) {
        assert b.steps[s].instance == i;
        StepDoneLater(cfg, a, b, c, s);
      }
    }
  }

  /** `backfill_all`: every store write may fail. Whatever happens the store is that of a partial run,
      and a run that returns has finished every listed instance. Without faults it returns exactly when no listed
      row raises and none is in conflict with the vault. */
  method BackfillAll(vault: RawTraceVault, limit: nat) returns (r: Result<nat, RunError>)
    requires FixedOn(vault.cfg.p, vault.repos.db) && Valid(vault.repos.db)
    modifies vault.repos
    ensures Partial(vault.cfg, old(vault.repos.db), vault.repos.db)
    ensures r.Success? && |old(vault.repos.db.order)| <= limit ==>
      Complete(vault.cfg, old(vault.repos.db), vault.repos.db)
    ensures r.Success? && (forall key :: Owed(vault.cfg, old(vault.repos.db), key).None?) ==> r.value == 0
    ensures r.Success? ==> Puts(vault.repos.trace) == Puts(old(vault.repos.trace)) + r.value
    ensures r == Failure(Unprojectable) ==>
      SomeRaises(vault.cfg, old(vault.repos.db), Listing(old(vault.repos.db), limit))
    ensures r == Failure(Conflicting) ==>
      SomeConflicts(vault.cfg, old(vault.repos.db), Listing(old(vault.repos.db), limit))
    ensures r.Success? ==>
      && !SomeRaises(vault.cfg, old(vault.repos.db), Listing(old(vault.repos.db), limit))
      && !SomeConflicts(vault.cfg, old(vault.repos.db), Listing(old(vault.repos.db), limit))
    ensures Healthy(old(vault.repos.faults)) ==>
      (r.Success? <==>
         && !SomeRaises(vault.cfg, old(vault.repos.db), Listing(old(vault.repos.db), limit))
         && !SomeConflicts(vault.cfg, old(vault.repos.db), Listing(old(vault.repos.db), limit)))
  {
    hide Partial, Owed, Puts, RunSoFar, SomeRaises, RowRaises, Complete, FixedOn, SomeConflicts, RowConflicts;
    ghost var a := vault.repos.db;
    var listed := Listing(vault.repos.db, limit);
    NothingRun(vault.cfg, a, listed);
    var total := 0;
    for n := 0 to |listed|
      invariant RunSoFar(vault.cfg, a, vault.repos.db, listed, n)
      invariant (forall key :: Owed(vault.cfg, a, key).None?) ==> total == 0
      invariant Puts(vault.repos.trace) == Puts(old(vault.repos.trace)) + total
      invariant Healthy(old(vault.repos.faults)) ==> Healthy(vault.repos.faults)
    {
      ghost var b := vault.repos.db;
      ReadyForMore(vault.cfg, a, b, listed, n);
      var one := BackfillInstance(vault, listed[n]);
      if one.Failure? {
        StoppedInARun(vault.cfg, a, b, vault.repos.db, listed, n);
        RaisingIsListed(vault.cfg, a, listed, n);
        return one;
      }
      ListingIsDistinct(a, limit);
      OneMoreRun(vault.cfg, a, b, vault.repos.db, listed, n);
      total := total + one.value;
    }
    RunIsOver(vault.cfg, a, vault.repos.db, limit);
    return Success(total);
  }

  /** The first `n` listed instances are finished, raised nothing and had no conflict; the rows of the others are
      untouched. */
  ghost predicate RunSoFar(cfg: Config, a: Database, b: Database, listed: seq<string>, n: nat)
    requires n <= |listed|
  {
    && Partial(cfg, a, b)
    && (forall m :: 0 <= m < n && listed[m] in a.instances ==> InstanceFinished(cfg, a, b, listed[m]))
    && (forall m :: 0 <= m < n ==> !RowRaises(cfg, a, listed[m]) && !RowConflicts(cfg, a, listed[m]))
    && (forall m :: n <= m < |listed| ==> SameRows(a, b, listed[m]))
  }

  lemma NothingRun(cfg: Config, a: Database, listed: seq<string>)
    requires Valid(a)
    ensures RunSoFar(cfg, a, a, listed, 0)
  {
    NothingDone(cfg, a);
  }

  lemma ReadyForMore(cfg: Config, a: Database, b: Database, listed: seq<string>, n: nat)
    requires FixedOn(cfg.p, a) && Valid(a)
    requires n < |listed| && RunSoFar(cfg, a, b, listed, n)
    ensures Valid(b) && FixedOn(cfg.p, b)
    ensures RowRaises(cfg, a, listed[n]) <==> RowRaises(cfg, b, listed[n])
    ensures RowConflicts(cfg, a, listed[n]) <==> RowConflicts(cfg, b, listed[n])
    ensures (forall key :: Owed(cfg, a, key).None?) ==> (forall key :: Owed(cfg, b, key).None?)
  {
    hide Owed, FixedOn, Conflicts;
    PartialStaysFixed(cfg, a, b);
    forall key ensures Conflicts(cfg, b, key) <==> Conflicts(cfg, a, key) {
      ConflictsPersist(cfg, a, b, key);
    }
    PartialStaysValid(cfg, a, b);
    SameRowsRaise(cfg, a, b, listed[n]);
    forall key | Owed(cfg, a, key).None? ensures Owed(cfg, b, key).None? {
      OwedShrinks(cfg, a, b, key);
    }
  }

  lemma StoppedInARun(cfg: Config, a: Database, b: Database, c: Database, listed: seq<string>, n: nat)
    requires FixedOn(cfg.p, a) && Valid(a)
    requires n < |listed| && RunSoFar(cfg, a, b, listed, n) && Partial(cfg, b, c)
    ensures Partial(cfg, a, c)
  {
    PartialTransitive(cfg, a, b, c);
  }

  lemma RaisingIsListed(cfg: Config, a: Database, listed: seq<string>, n: nat)
    requires n < |listed|
    ensures RowRaises(cfg, a, listed[n]) ==> SomeRaises(cfg, a, listed)
    ensures RowConflicts(cfg, a, listed[n]) ==> SomeConflicts(cfg, a, listed)
  {
  }

  lemma OneMoreRun(cfg: Config, a: Database, b: Database, c: Database, listed: seq<string>, n: nat)
    requires FixedOn(cfg.p, a) && Valid(a) && Distinct(listed)
    requires n < |listed| && RunSoFar(cfg, a, b, listed, n) && Partial(cfg, b, c)
    requires listed[n] in b.instances ==> InstanceFinished(cfg, b, c, listed[n])
    requires !RowRaises(cfg, a, listed[n]) && !RowConflicts(cfg, a, listed[n])
    requires forall k :: k in b.instances && k != listed[n] ==> k in c.instances && c.instances[k] == b.instances[k]
    requires forall t :: t in b.steps && b.steps[t].instance != listed[n] ==>
      t in c.steps && c.steps[t] == b.steps[t]
    ensures RunSoFar(cfg, a, c, listed, n + 1)
  {
    hide Partial, FixedOn, InstanceFinished, SameRows, RowRaises, RowConflicts;
    SameInstances(cfg, a, b);
    PartialTransitive(cfg, a, b, c);
    forall m | n < m < |listed| ensures SameRows(a, c, listed[m]) {
      OtherRowsStay(cfg, a, b, c, listed[n], listed[m]);
    }
    forall m | 0 <= m <= n && listed[m] in a.instances ensures InstanceFinished(cfg, a, c, listed[m]) {
      FinishedLater(cfg, a, b, c, listed[m]);
    }
  }

  lemma RunIsOver(cfg: Config, a: Database, b: Database, limit: nat)
    requires Valid(a) && RunSoFar(cfg, a, b, Listing(a, limit), |Listing(a, limit)|)
    ensures Partial(cfg, a, b)
    ensures !SomeRaises(cfg, a, Listing(a, limit)) && !SomeConflicts(cfg, a, Listing(a, limit))
    ensures |a.order| <= limit ==> Complete(cfg, a, b)
  {
    if |a.order| <= limit {
      AllFinished(cfg, a, b);
    }
  }

  lemma ListingIsDistinct(db: Database, limit: nat)
    requires Valid(db)
    ensures Distinct(Listing(db, limit))
  {
  }

  lemma SameInstances(cfg: Config, a: Database, b: Database)
    requires Partial(cfg, a, b)
    ensures a.instances.Keys == b.instances.Keys
  {
  }

  lemma AllFinished(cfg: Config, a: Database, b: Database)
    requires Valid(a) && Partial(cfg, a, b)
    requires forall m :: 0 <= m < |a.order| && a.order[m] in a.instances ==> InstanceFinished(cfg, a, b, a.order[m])
    ensures Complete(cfg, a, b)
  {
    forall i | i in a.instances ensures InstanceFinished(cfg, a, b, i) {
      assert i in a.order;
    }
  }
}

/** The store the trace code writes to, after persistence/memory.py, with writes that may be lost or
    lose their acknowledgement. */
module Store {
  import opened Wrappers
  import opened Vault

  datatype Instance = Instance(
    org: string, trigger: Record, context: Record, error: Option<string>, version: Option<string>)

  datatype Step = Step(instance: string, output: Option<Record>, error: Option<string>, version: Option<string>)

  datatype Entry = Entry(
    id: string, actorType: string, actorId: string, action: string, instance: Option<string>,
    step: Option<string>, detail: Record, version: Option<string>)

  /** Rows by id, with the order in which the repositories list them; the audit log in append order. */
  datatype Database = Database(
    order: seq<string>, instances: map<string, Instance>,
    stepOrder: seq<string>, steps: map<string, Step>,
    audit: seq<Entry>, vault: map<Key, Row>)

  predicate Distinct(ids: seq<string>) {
    forall i, j :: 0 <= i < j < |ids| ==> ids[i] != ids[j]
  }

  ghost predicate Valid(db: Database) {
    && Distinct(db.order) && (forall i :: i in db.order <==> i in db.instances)
    && Distinct(db.stepOrder) && (forall s :: s in db.stepOrder <==> s in db.steps)
    && (forall i, j :: 0 <= i < j < |db.audit| ==> db.audit[i].id != db.audit[j].id)
    && (forall s :: s in db.steps ==> s != "" && s != INSTANCE_ANCHOR && s != AUDIT_ANCHOR)
  }

  /** No vault row is changed or taken away. */
  ghost predicate Keeps(b: Database, c: Database) {
    forall key :: key in b.vault ==> key in c.vault && c.vault[key] == b.vault[key]
  }

  /** `instances.list_recent(limit=…)`, in repository order. */
  function Listing(db: Database, limit: nat): seq<string> {
    if |db.order| <= limit then db.order else db.order[..limit]
  }

  /** One write: it succeeds, it is lost, or it is applied and its acknowledgement is lost. */
  datatype Fault = Fine | Lost | Unacknowledged

  datatype StoreError = Down | VaultConflict | AuditConflict | NoSuchRow

  predicate Healthy(faults: seq<Fault>) {
    forall i :: 0 <= i < |faults| ==> faults[i].Fine?
  }

  function NextFault(faults: seq<Fault>): (next: Fault)
    ensures Healthy(faults) ==> next.Fine?
  {
    if faults == [] then Fine else faults[0]
  }

  function Rest(faults: seq<Fault>): (rest: seq<Fault>)
    ensures Healthy(faults) ==> Healthy(rest)
  {
    if faults == [] then [] else faults[1..]
  }

  /** A write that is refused changes nothing; otherwise the fault decides what is applied and reported. */
  function Settle<S, T>(before: S, fault: Fault, attempt: Result<(S, T), StoreError>): (S, Result<T, StoreError>) {
    if fault.Lost? then (before, Failure(Down))
    else match attempt
      case Failure(error) => (before, Failure(error))
      case Success((after, value)) => (after, if fault.Fine? then Success(value) else Failure(Down))
  }

  /** `RawTraceVaultRepo.put`: idempotent for the same write, a conflict for different content. */
  function Put(vault: map<Key, Row>, key: Key, row: Row): Result<(map<Key, Row>, Row), StoreError> {
    if key !in vault then Success((vault[key := row], row))
    else if SameWrite(vault[key], row) then Success((vault, vault[key]))
    else Failure(VaultConflict)
  }

  function FindEntry(audit: seq<Entry>, id: string): Option<Entry> {
    if audit == [] then None
    else if audit[0].id == id then Some(audit[0])
    else FindEntry(audit[1..], id)
  }

  /** `AuditRepo.append`: idempotent on the entry id, refusing the id of a different entry. */
  function Append(audit: seq<Entry>, entry: Entry): Result<(seq<Entry>, Entry), StoreError> {
    match FindEntry(audit, entry.id)
    case None => Success((audit + [entry], entry))
    case Some(existing) => if existing == entry then Success((audit, existing)) else Failure(AuditConflict)
  }

  lemma {:induction false} FindEntryFinds(audit: seq<Entry>, id: string)
    ensures match FindEntry(audit, id)
      case None => forall i :: 0 <= i < |audit| ==> audit[i].id != id
      case Some(e) => exists i :: 0 <= i < |audit| && audit[i] == e && e.id == id
  {
    if audit != [] && audit[0].id != id {
      FindEntryFinds(audit[1..], id);
      match FindEntry(audit[1..], id)
      case None =>
        forall i | 0 <= i < |audit| ensures audit[i].id != id {
          assert i > 0 ==> audit[i] == audit[1..][i - 1];
        }
      case Some(e) =>
        var i :| 0 <= i < |audit[1..]| && audit[1..][i] == e && e.id == id;
        assert audit[i + 1] == e;
    }
  }

  lemma {:induction false} FindEntryAppended(audit: seq<Entry>, more: seq<Entry>, id: string)
    ensures FindEntry(audit + more, id) ==
      (if FindEntry(audit, id).Some? then FindEntry(audit, id) else FindEntry(more, id))
  {
    if audit == [] {
      assert audit + more == more;
    } else {
      assert (audit + more)[1..] == audit[1..] + more;
      FindEntryAppended(audit[1..], more, id);
    }
  }

  /** `AuditRepo.replace_detail_for_migration`: the first row of that id, and no other column. */
  function ReplaceIn(audit: seq<Entry>, id: string, detail: Record, version: string): seq<Entry> {
    if audit == [] then []
    else if audit[0].id == id then [audit[0].(detail := detail, version := Some(version))] + audit[1..]
    else [audit[0]] + ReplaceIn(audit[1..], id, detail, version)
  }

  lemma {:induction false} ReplaceInReplaces(audit: seq<Entry>, n: nat, detail: Record, version: string)
    requires n < |audit| && forall m :: 0 <= m < n ==> audit[m].id != audit[n].id
    ensures ReplaceIn(audit, audit[n].id, detail, version) ==
      audit[n := audit[n].(detail := detail, version := Some(version))]
  {
    if n > 0 {
      assert audit[0].id != audit[n].id;
      assert audit[1..][n - 1] == audit[n];
      forall m | 0 <= m < n - 1 ensures audit[1..][m].id != audit[1..][n - 1].id {
        assert audit[1..][m] == audit[m + 1];
      }
      ReplaceInReplaces(audit[1..], n - 1, detail, version);
    }
  }

  /** What a run did to the store, and which vault objects it looked up. */
  datatype Event =
    | RowPut(key: Key)
    | LookedUp(key: Key)
    | InstanceWritten(id: string)
    | StepWritten(id: string)
    | EntryAppended(id: string)
    | EntryProjected(id: string)

  class Repositories {
    var db: Database
    var faults: seq<Fault>
    var trace: seq<Event>

    constructor (initial: Database, schedule: seq<Fault>)
      ensures db == initial && faults == schedule && trace == []
    {
      db := initial;
      faults := schedule;
      trace := [];
    }

    method PutRow(key: Key, row: Row) returns (r: Result<Row, StoreError>)
      modifies this
      ensures var (vault, outcome) := Settle(old(db.vault), NextFault(old(faults)), Put(old(db.vault), key, row));
        db == old(db).(vault := vault) && r == outcome
      ensures faults == Rest(old(faults))
      ensures trace == old(trace) + [RowPut(key)]
    {
      var (vault, outcome) := Settle(db.vault, NextFault(faults), Put(db.vault, key, row));
      db := db.(vault := vault);
      faults := Rest(faults);
      trace := trace + [RowPut(key)];
      r := outcome;
    }

    /** A lookup may fail like any other call; it changes no row. */
    method LookUp(key: Key) returns (r: Result<Option<Row>, StoreError>)
      modifies this
      ensures db == old(db) && faults == Rest(old(faults)) && trace == old(trace) + [LookedUp(key)]
      ensures r == if NextFault(old(faults)).Fine? then Success(if key in db.vault then Some(db.vault[key]) else None)
                   else Failure(Down)
    {
      r := if NextFault(faults).Fine? then Success(if key in db.vault then Some(db.vault[key]) else None)
        else Failure(Down);
      faults := Rest(faults);
      trace := trace + [LookedUp(key)];
    }

    method UpdateInstance(id: string, row: Instance) returns (r: Result<(), StoreError>)
      modifies this
      ensures var (instances, outcome) := Settle(old(db.instances), NextFault(old(faults)),
          if id in old(db.instances) then Success((old(db.instances)[id := row], ())) else Failure(NoSuchRow));
        db == old(db).(instances := instances) && r == outcome
      ensures faults == Rest(old(faults))
      ensures trace == old(trace) + [InstanceWritten(id)]
    {
      var attempt := if id in db.instances then Success((db.instances[id := row], ())) else Failure(NoSuchRow);
      var (instances, outcome) := Settle(db.instances, NextFault(faults), attempt);
      db := db.(instances := instances);
      faults := Rest(faults);
      trace := trace + [InstanceWritten(id)];
      r := outcome;
    }

    method UpdateStep(id: string, row: Step) returns (r: Result<(), StoreError>)
      modifies this
      ensures var (steps, outcome) := Settle(old(db.steps), NextFault(old(faults)),
          if id in old(db.steps) then Success((old(db.steps)[id := row], ())) else Failure(NoSuchRow));
        db == old(db).(steps := steps) && r == outcome
      ensures faults == Rest(old(faults))
      ensures trace == old(trace) + [StepWritten(id)]
    {
      var attempt := if id in db.steps then Success((db.steps[id := row], ())) else Failure(NoSuchRow);
      var (steps, outcome) := Settle(db.steps, NextFault(faults), attempt);
      db := db.(steps := steps);
      faults := Rest(faults);
      trace := trace + [StepWritten(id)];
      r := outcome;
    }

    method AppendEntry(entry: Entry) returns (r: Result<Entry, StoreError>)
      modifies this
      ensures var (audit, outcome) := Settle(old(db.audit), NextFault(old(faults)), Append(old(db.audit), entry));
        db == old(db).(audit := audit) && r == outcome
      ensures faults == Rest(old(faults))
      ensures trace == old(trace) + [EntryAppended(entry.id)]
    {
      var (audit, outcome) := Settle(db.audit, NextFault(faults), Append(db.audit, entry));
      db := db.(audit := audit);
      faults := Rest(faults);
      trace := trace + [EntryAppended(entry.id)];
      r := outcome;
    }

    method ReplaceDetail(id: string, detail: Record, version: string) returns (r: Result<bool, StoreError>)
      modifies this
      ensures var found := FindEntry(old(db.audit), id).Some?;
        var (audit, outcome) := Settle(old(db.audit), NextFault(old(faults)),
          Success((if found then ReplaceIn(old(db.audit), id, detail, version) else old(db.audit), found)));
        db == old(db).(audit := audit) && r == outcome
      ensures faults == Rest(old(faults))
      ensures trace == old(trace) + [EntryProjected(id)]
    {
      var found := FindEntry(db.audit, id).Some?;
      var replaced := if found then ReplaceIn(db.audit, id, detail, version) else db.audit;
      var (audit, outcome) := Settle(db.audit, NextFault(faults), Success((replaced, found)));
      db := db.(audit := audit);
      faults := Rest(faults);
      trace := trace + [EntryProjected(id)];
      r := outcome;
    }
  }
}

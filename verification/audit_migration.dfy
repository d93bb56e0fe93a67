/** `migrate_audit_details` of trace_migration.py. */
module AuditMigration {
  import opened Wrappers
  import opened Json
  import opened Vault
  import opened Store
  import opened BackfillSpec
  import opened VaultWriter
  import opened AuditMigrationSpec

  datatype Report = Report(
    dryRun: bool, candidates: nat, vaulted: nat, projected: nat, skippedNoInstance: int, skippedNoOrg: nat,
    batches: int)

  /** What the run takes from outside: fresh entry ids, and the digest of a batch's pre-images. */
  datatype Outside = Outside(mint: nat -> string, digest: seq<(string, Record)> -> string)

  ghost predicate MintsFresh(outside: Outside, db: Database) {
    && (forall k: nat, n :: 0 <= n < |db.audit| ==> outside.mint(k) != db.audit[n].id)
    && (forall j: nat, k: nat :: j != k ==> outside.mint(j) != outside.mint(k))
  }

  function Max(a: nat, b: nat): nat { if a < b then b else a }

  function Min(a: nat, b: nat): nat { if a < b then a else b }

  /** Batch `k`, counted from one, is the slice `[start : start + size]` of the candidates, where starts
      advance by `max(size, 1)`. */
  function BatchStart(k: nat, size: nat, n: nat): nat
    requires k > 0
  {
    Min((k - 1) * Max(size, 1), n)
  }

  function BatchEnd(k: nat, size: nat, n: nat): (end: nat)
    requires k > 0
    ensures BatchStart(k, size, n) <= end <= n
  {
    Min(BatchStart(k, size, n) + size, n)
  }

  function BatchOf(candidates: seq<nat>, k: nat, size: nat): seq<nat>
    requires k > 0
  {
    candidates[BatchStart(k, size, |candidates|)..BatchEnd(k, size, |candidates|)]
  }

  function IdsOf(db: Database, batch: seq<nat>): seq<string>
    requires forall m :: 0 <= m < |batch| ==> batch[m] < |db.audit|
  {
    seq(|batch|, m requires 0 <= m < |batch| => db.audit[batch[m]].id)
  }

  function PairsOf(db: Database, batch: seq<nat>): seq<(string, Record)>
    requires forall m :: 0 <= m < |batch| ==> batch[m] < |db.audit|
  {
    seq(|batch|, m requires 0 <= m < |batch| => (db.audit[batch[m]].id, db.audit[batch[m]].detail))
  }

  /** The entry that records a batch: the rows it rewrote, their number and the digest of their pre-images. */
  function LedgerEntry(cfg: Config, outside: Outside, k: nat, ids: seq<string>, pairs: seq<(string, Record)>): Entry {
    Entry(
      outside.mint(k), "system", "audit_rest_migration", "audit_detail_migrated", None, None,
      map["rows" := Arr(seq(|ids|, m requires 0 <= m < |ids| => Str(ids[m]))),
          "row_count" := Int(|ids|),
          "batch" := Int(k),
          "projector_version" := Str(cfg.p.version),
          "pre_image_digest" := Str(outside.digest(pairs))],
      None)
  }

  /** Vault, then project, entry by entry. */
  function BatchEvents(db: Database, batch: seq<nat>, n: nat): seq<Event>
    requires n <= |batch|
    requires forall m :: 0 <= m < |batch| ==>
      batch[m] < |db.audit| && db.audit[batch[m]].instance.Some? && db.audit[batch[m]].instance.value in db.instances
  {
    if n == 0 then []
    else
      var e := db.audit[batch[n - 1]];
      BatchEvents(db, batch, n - 1) + [RowPut(OwnIdentity(db, e).Address()), EntryProjected(e.id)]
  }

  /** Every candidate index is an owed entry. */
  ghost predicate AllOwed(cfg: Config, db: Database, candidates: seq<nat>) {
    forall m :: 0 <= m < |candidates| ==> candidates[m] < |db.audit| && EntryOwed(cfg, db, db.audit[candidates[m]])
  }

  lemma ReplacingKeepsValid(b: Database, n: nat, detail: Record, version: string)
    requires Valid(b) && n < |b.audit|
    ensures var after := ReplaceIn(b.audit, b.audit[n].id, detail, version);
      && FindEntry(b.audit, b.audit[n].id).Some?
      && after == b.audit[n := b.audit[n].(detail := detail, version := Some(version))]
      && Valid(b.(audit := after))
  {
    FindEntryFinds(b.audit, b.audit[n].id);
    ReplaceInReplaces(b.audit, n, detail, version);
  }

  lemma ProjectingKeepsPartial(cfg: Config, a: Database, b: Database, n: nat)
    requires AuditPartial(cfg, a, b) && n < |a.audit|
    requires EntryOwed(cfg, a, a.audit[n]) && DetailSettled(cfg, a, b, a.audit[n])
    ensures var c := b.(audit := b.audit[n := MigratedEntry(cfg, a.audit[n])]);
      AuditPartial(cfg, a, c) && EntryMigrated(cfg, a, c, n)
  {
    var c := b.(audit := b.audit[n := MigratedEntry(cfg, a.audit[n])]);
    forall m | 0 <= m < |a.audit| ensures c.audit[m] == a.audit[m] || EntryMigrated(cfg, a, c, m) {
      if m != n && b.audit[m] != a.audit[m] {
        assert EntryMigrated(cfg, a, b, m);
      }
    }
  }

  lemma MigratingOne(cfg: Config, a: Database, b: Database, n: nat)
    requires Valid(b) && AuditPartial(cfg, a, b) && n < |a.audit| && n < |b.audit|
    requires EntryOwed(cfg, a, a.audit[n]) && b.audit[n] == a.audit[n]
    requires DetailSettled(cfg, a, b, a.audit[n])
    ensures var e := a.audit[n];
      var after := ReplaceIn(b.audit, e.id, cfg.p.detail(e.action, e.detail), cfg.p.version);
      && FindEntry(b.audit, e.id).Some?
      && after == b.audit[n := MigratedEntry(cfg, e)]
      && Valid(b.(audit := after)) && AuditPartial(cfg, a, b.(audit := after)) &&
        EntryMigrated(cfg, a, b.(audit := after), n)
  {
    hide Valid, AuditPartial;
    var e := a.audit[n];
    ReplacingKeepsValid(b, n, cfg.p.detail(e.action, e.detail), cfg.p.version);
    ProjectingKeepsPartial(cfg, a, b, n);
  }

  lemma VaultingOne(cfg: Config, a: Database, b: Database, n: nat, fault: Fault)
    requires Valid(a) && Valid(b) && AuditPartial(cfg, a, b) && n < |a.audit|
    requires EntryOwed(cfg, a, a.audit[n])
    ensures var key := OwnIdentity(a, a.audit[n]).Address();
      var (vault, outcome) := Settle(b.vault, fault, Put(b.vault, key, DetailRow(cfg, a, a.audit[n])));
      && Valid(b.(vault := vault)) && AuditPartial(cfg, a, b.(vault := vault))
      && (outcome.Success? ==> DetailSettled(cfg, a, b.(vault := vault), a.audit[n]))
      && (outcome.Failure? ==>
            outcome.error == Down || (outcome.error == VaultConflict && DetailConflicts(cfg, a, a.audit[n])))
      && (fault.Fine? && outcome.Failure? ==> outcome.error == VaultConflict)
  {
    hide AuditPartial, Valid, SameWrite;
    var key := OwnIdentity(a, a.audit[n]).Address();
    VaultedDetailAgrees(cfg, a, b, n);
    if key !in b.vault {
      GainingDetail(cfg, a, b, n);
    }
    assert b.(vault := b.vault) == b;
  }

  lemma GainingDetail(cfg: Config, a: Database, b: Database, n: nat)
    requires Valid(b) && AuditPartial(cfg, a, b) && n < |a.audit| && EntryOwed(cfg, a, a.audit[n])
    requires OwnIdentity(a, a.audit[n]).Address() !in b.vault
    ensures var c := b.(vault := b.vault[OwnIdentity(a, a.audit[n]).Address() := DetailRow(cfg, a, a.audit[n])]);
      Valid(c) && AuditPartial(cfg, a, c) && DetailSettled(cfg, a, c, a.audit[n])
  {
    var key := OwnIdentity(a, a.audit[n]).Address();
    hide EntryMigrated, SameWrite, MigratedEntry, RowOf, DetailHasRaw;
    var c := b.(vault := b.vault[key := DetailRow(cfg, a, a.audit[n])]);
    MigratedStays(cfg, a, b, c);
    RowIsItself(DetailRow(cfg, a, a.audit[n]));
    assert Accounts(cfg, a, n, key, c.vault[key]);
  }

  lemma MigratedStays(cfg: Config, a: Database, b: Database, c: Database)
    requires Keeps(b, c) && c.audit == b.audit && |a.audit| <= |b.audit|
    ensures forall m :: 0 <= m < |a.audit| && EntryMigrated(cfg, a, b, m) ==> EntryMigrated(cfg, a, c, m)
  {
  }

  lemma RowIsItself(row: Row)
    ensures SameWrite(row, row)
  {
  }

  /** The loop body for one entry: its raw is durably vaulted, then the row is projected in place. */
  method MigrateEntry(vault: RawTraceVault, ghost a: Database, ghost n: nat, e: Entry, org: string)
    returns (r: Result<bool, StoreError>)
    requires Valid(a) && Valid(vault.repos.db) && AuditPartial(vault.cfg, a, vault.repos.db)
    requires n < |a.audit| && n < |vault.repos.db.audit| && vault.repos.db.audit[n] == a.audit[n] == e
    requires EntryOwed(vault.cfg, a, e) && a.instances[e.instance.value].org == org
    modifies vault.repos
    ensures Valid(vault.repos.db) && AuditPartial(vault.cfg, a, vault.repos.db)
    ensures r.Success? ==> r.value
    ensures r.Success? ==> EntryMigrated(vault.cfg, a, vault.repos.db, n)
    ensures r.Success? ==> vault.repos.db.audit == old(vault.repos.db.audit)[n := MigratedEntry(vault.cfg, e)]
    ensures r.Success? ==> Keeps(old(vault.repos.db), vault.repos.db)
    ensures r.Success? ==>
      vault.repos.trace == old(vault.repos.trace) + [RowPut(OwnIdentity(a, e).Address()), EntryProjected(e.id)]
    ensures r.Failure? ==> r.error == Down || (r.error == VaultConflict && DetailConflicts(vault.cfg, a, e))
    ensures Healthy(old(vault.repos.faults)) ==> Healthy(vault.repos.faults) && r != Failure(Down)
  {
    hide Valid, AuditPartial, DetailConflicts;
    VaultingOne(vault.cfg, a, vault.repos.db, n, NextFault(vault.repos.faults));
    var recorded := vault.Record(DetailIdentity(org, e.instance.value, e.id), Obj(e.detail), true);
    if recorded.Failure? {
      return Failure(recorded.error);
    }
    MigratingOne(vault.cfg, a, vault.repos.db, n);
    var replaced := vault.repos.ReplaceDetail(e.id, vault.cfg.p.detail(e.action, e.detail), vault.cfg.p.version);
    return replaced;
  }

  /** `listed` holds, in order, the entries of `a` at the indices `batch`, with their organisations. */
  ghost predicate Snapshot(a: Database, batch: seq<nat>, listed: seq<(Entry, string)>) {
    |listed| == |batch| && forall m :: 0 <= m < |batch| ==>
      batch[m] < |a.audit| && listed[m].0 == a.audit[batch[m]] &&
      listed[m].0.instance.Some? && listed[m].0.instance.value in a.instances &&
      listed[m].1 == a.instances[listed[m].0.instance.value].org
  }

  /** The entries at `batch` still are what they were in `a`. */
  ghost predicate Untouched(a: Database, b: Database, batch: seq<nat>) {
    forall m :: 0 <= m < |batch| ==>
      batch[m] < |a.audit| && batch[m] < |b.audit| && b.audit[batch[m]] == a.audit[batch[m]]
  }

  ghost predicate AllMigrated(cfg: Config, a: Database, b: Database, batch: seq<nat>) {
    forall m :: 0 <= m < |batch| ==> batch[m] < |a.audit| <= |b.audit| && EntryMigrated(cfg, a, b, batch[m])
  }

  /** The vault is in conflict with one of the entries. */
  ghost predicate SomeDetailConflicts(cfg: Config, db: Database, candidates: seq<nat>) {
    exists m: nat :: m < |candidates| && candidates[m] < |db.audit| && DetailConflicts(cfg, db, db.audit[candidates[m]])
  }

  /** One batch: each entry vaulted and then projected, in order, exactly once. */
  method MigrateBatch(vault: RawTraceVault, ghost a: Database, ghost batch: seq<nat>, listed: seq<(Entry, string)>)
    returns (r: Result<(nat, nat), StoreError>, done: seq<string>, pairs: seq<(string, Record)>)
    requires Valid(a) && Valid(vault.repos.db)
    requires AuditPartial(vault.cfg, a, vault.repos.db) && AllOwed(vault.cfg, a, batch) && NoRepeats(batch)
    requires Snapshot(a, batch, listed) && Untouched(a, vault.repos.db, batch)
    modifies vault.repos
    ensures Valid(vault.repos.db) && AuditPartial(vault.cfg, a, vault.repos.db)
    ensures r.Success? ==> r.value == (|batch|, |batch|) && done == IdsOf(a, batch) && pairs == PairsOf(a, batch)
    ensures r.Success? ==> MigratedSoFar(vault.cfg, a, old(vault.repos.db), vault.repos.db, batch, |batch|)
    ensures r.Success? ==> vault.repos.trace == old(vault.repos.trace) + BatchEvents(a, batch, |batch|)
    ensures r.Failure? ==> r.error == Down || (r.error == VaultConflict && SomeDetailConflicts(vault.cfg, a, batch))
    ensures Healthy(old(vault.repos.faults)) ==> Healthy(vault.repos.faults) && r != Failure(Down)
  {
    hide Valid, AuditPartial, DetailConflicts, MigratedSoFar, EntryOwed, EntryMigrated, MigratedEntry, NoRepeats,
      Untouched;
    done, pairs := [], [];
    var vaulted, projected := 0, 0;
    ghost var start := vault.repos.db;
    NothingMigrated(vault.cfg, a, start, batch);
    for m := 0 to |listed|
      invariant Valid(vault.repos.db) && AuditPartial(vault.cfg, a, vault.repos.db)
      invariant vaulted == projected == m && done == IdsOf(a, batch[..m]) && pairs == PairsOf(a, batch[..m])
      invariant MigratedSoFar(vault.cfg, a, start, vault.repos.db, batch, m)
      invariant vault.repos.trace == old(vault.repos.trace) + BatchEvents(a, batch, m)
      invariant Healthy(old(vault.repos.faults)) ==> Healthy(vault.repos.faults)
    {
      var (e, org) := listed[m];
      NextIsUntouched(vault.cfg, a, start, vault.repos.db, batch, m);
      ghost var before := vault.repos.db;
      var one := MigrateEntry(vault, a, batch[m], e, org);
      if one.Failure? {
        return Failure(one.error), done, pairs;
      }
      vaulted := vaulted + 1;
      pairs := pairs + [(e.id, e.detail)];
      if one.value {
        projected := projected + 1;
        done := done + [e.id];
      }
      MigratedOneMore(vault.cfg, a, start, before, vault.repos.db, batch, m);
    }
    assert batch[..|batch|] == batch;
    return Success((vaulted, projected)), done, pairs;
  }

  /** The first `m` entries of the batch are migrated, the others of the batch are as in `a`, and entries
      outside the batch are as they were at its start. */
  ghost predicate MigratedSoFar(cfg: Config, a: Database, start: Database, now: Database, batch: seq<nat>, m: nat)
    requires m <= |batch|
  {
    && |a.audit| <= |now.audit| == |start.audit|
    && AllMigrated(cfg, a, now, batch[..m]) && Untouched(a, now, batch[m..])
    && (forall n :: 0 <= n < |now.audit| && n !in batch ==> now.audit[n] == start.audit[n])
    && Keeps(start, now)
  }

  lemma NothingMigrated(cfg: Config, a: Database, start: Database, batch: seq<nat>)
    requires Untouched(a, start, batch) && AuditPartial(cfg, a, start)
    ensures MigratedSoFar(cfg, a, start, start, batch, 0)
  {
    assert batch[0..] == batch;
  }

  lemma NextIsUntouched(cfg: Config, a: Database, start: Database, now: Database, batch: seq<nat>, m: nat)
    requires m < |batch| && MigratedSoFar(cfg, a, start, now, batch, m)
    ensures batch[m] < |a.audit| <= |now.audit| && now.audit[batch[m]] == a.audit[batch[m]]
  {
    assert batch[m..][0] == batch[m];
  }

  lemma MigratedThere(cfg: Config, a: Database, b: Database, c: Database, n: nat)
    requires n < |a.audit| <= |b.audit| && |a.audit| <= |c.audit| && EntryMigrated(cfg, a, b, n)
    requires c.audit[n] == b.audit[n] && Keeps(b, c)
    ensures EntryMigrated(cfg, a, c, n)
  {
  }

  lemma MigratedOneMore(
    cfg: Config, a: Database, start: Database, before: Database, after: Database, batch: seq<nat>, m: nat)
    requires m < |batch| && NoRepeats(batch) && AllOwed(cfg, a, batch)
    requires MigratedSoFar(cfg, a, start, before, batch, m)
    requires batch[m] < |a.audit| && batch[m] < |before.audit| && Keeps(before, after)
    requires after.audit == before.audit[batch[m] := MigratedEntry(cfg, a.audit[batch[m]])]
    requires |a.audit| <= |after.audit| && EntryMigrated(cfg, a, after, batch[m])
    ensures MigratedSoFar(cfg, a, start, after, batch, m + 1)
    ensures IdsOf(a, batch[..m + 1]) == IdsOf(a, batch[..m]) + [a.audit[batch[m]].id]
    ensures PairsOf(a, batch[..m + 1]) == PairsOf(a, batch[..m]) + [(a.audit[batch[m]].id, a.audit[batch[m]].detail)]
  {
    hide EntryMigrated, MigratedEntry, DetailHasRaw;
    assert batch[..m + 1] == batch[..m] + [batch[m]];
    forall j | 0 <= j < m ensures EntryMigrated(cfg, a, after, batch[j]) {
      assert batch[..m][j] == batch[j];
      MigratedThere(cfg, a, before, after, batch[j]);
    }
    var rest := batch[m + 1..];
    forall j | 0 <= j < |rest| ensures rest[j] < |a.audit| && after.audit[rest[j]] == a.audit[rest[j]] {
      assert rest[j] == batch[m + 1 + j] == batch[m..][j + 1];
    }
  }

  /** The candidates of the listed instances, as the first loop of the migration collects them; it raises at an
      entry that cannot be projected. */
  method CollectCandidates(cfg: Config, db: Database, ids: seq<string>)
    returns (raised: bool, listed: seq<(Entry, string)>, noInstance: int, noOrg: nat, ghost candidates: seq<nat>)
    requires forall i :: i in ids ==> i in db.instances
    ensures raised <==> EntriesRaise(cfg, db, ids)
    ensures !raised ==> candidates == Candidates(cfg, db, ids, |ids|) && Snapshot(db, candidates, listed)
    ensures !raised ==> noOrg == Orphans(cfg, db, ids, |ids|)
    ensures noInstance == 0
  {
    hide Snapshot, DetailHasRaw, EntryRaises, EntriesRaise, CandidatesOf, Candidates, Orphans;
    NothingCollected(cfg, db, ids);
    raised, listed, noInstance, noOrg, candidates := false, [], 0, 0, [];
    NoSnapshot(db);
    NothingListedRaises(cfg, db);
    for m := 0 to |ids|
      invariant !EntriesRaise(cfg, db, ids[..m])
      invariant candidates == Candidates(cfg, db, ids, m) && Snapshot(db, candidates, listed)
      invariant noOrg == Orphans(cfg, db, ids, m) && noInstance == 0
    {
      var i, org := ids[m], db.instances[ids[m]].org;
      ghost var before, orphans := candidates, noOrg;
      OneInstanceMore(cfg, db, ids, m);
      for n := 0 to |db.audit|
        invariant forall k :: 0 <= k < n && db.audit[k].instance == Some(i) ==> !EntryRaises(cfg, db.audit[k])
        invariant candidates == before + (if org != "" then CandidatesOf(cfg, db, i, n) else [])
        invariant Snapshot(db, candidates, listed)
        invariant noOrg == orphans + (if org == "" then |CandidatesOf(cfg, db, i, n)| else 0) && noInstance == 0
      {
        var e := db.audit[n];
        OneEntryMore(cfg, db, i, n);
        if e.instance == Some(i) && EntryRaises(cfg, e) {
          RaisingIsSeen(cfg, db, ids, m, n);
          raised := true;
          return;
        }
        if e.instance == Some(i) && DetailHasRaw(cfg, e) {
          if e.instance.None? {
            noInstance := noInstance + 1;
          } else if org == "" {
            noOrg := noOrg + 1;
          } else {
            OneMoreListed(db, candidates, listed, n, org);
            listed := listed + [(e, org)];
            candidates := candidates + [n];
          }
        }
      }
      NoneOfOneMore(cfg, db, ids, m);
    }
    assert ids[..|ids|] == ids;
  }

  lemma NothingCollected(cfg: Config, db: Database, ids: seq<string>)
    ensures Candidates(cfg, db, ids, 0) == [] && Orphans(cfg, db, ids, 0) == 0
  {
  }

  lemma OneInstanceMore(cfg: Config, db: Database, ids: seq<string>, m: nat)
    requires m < |ids| && forall k :: 0 <= k <= m ==> ids[k] in db.instances
    ensures CandidatesOf(cfg, db, ids[m], 0) == []
    ensures var more := CandidatesOf(cfg, db, ids[m], |db.audit|); var named := db.instances[ids[m]].org != "";
      && Candidates(cfg, db, ids, m + 1) == Candidates(cfg, db, ids, m) + (if named then more else [])
      && Orphans(cfg, db, ids, m + 1) == Orphans(cfg, db, ids, m) + (if named then 0 else |more|)
  {
  }

  lemma OneEntryMore(cfg: Config, db: Database, i: string, n: nat)
    requires n < |db.audit|
    ensures CandidatesOf(cfg, db, i, n + 1) == CandidatesOf(cfg, db, i, n)
      + (if db.audit[n].instance == Some(i) && DetailHasRaw(cfg, db.audit[n]) then [n] else [])
  {
  }

  lemma NothingListedRaises(cfg: Config, db: Database)
    ensures !EntriesRaise(cfg, db, [])
  {
  }

  lemma RaisingIsSeen(cfg: Config, db: Database, ids: seq<string>, m: nat, n: nat)
    requires m < |ids| && n < |db.audit| && db.audit[n].instance == Some(ids[m]) && EntryRaises(cfg, db.audit[n])
    ensures EntriesRaise(cfg, db, ids)
  {
  }

  lemma NoneOfOneMore(cfg: Config, db: Database, ids: seq<string>, m: nat)
    requires m < |ids| && !EntriesRaise(cfg, db, ids[..m])
    requires forall k :: 0 <= k < |db.audit| && db.audit[k].instance == Some(ids[m]) ==> !EntryRaises(cfg, db.audit[k])
    ensures !EntriesRaise(cfg, db, ids[..m + 1])
  {
    assert ids[..m + 1] == ids[..m] + [ids[m]];
  }

  lemma NoSnapshot(db: Database)
    ensures Snapshot(db, [], [])
  {
  }

  lemma OneMoreListed(db: Database, candidates: seq<nat>, listed: seq<(Entry, string)>, n: nat, org: string)
    requires Snapshot(db, candidates, listed) && n < |db.audit|
    requires db.audit[n].instance.Some? && db.audit[n].instance.value in db.instances
    requires db.instances[db.audit[n].instance.value].org == org
    ensures Snapshot(db, candidates + [n], listed + [(db.audit[n], org)])
  {
  }

  /** How many of the candidates the first `k` batches cover. */
  function Covered(k: nat, size: nat, n: nat): nat {
    if size == 0 then 0 else Min(k * size, n)
  }

  /** The number of batches a run makes. */
  function BatchCount(n: nat, size: nat): nat {
    (n + Max(size, 1) - 1) / Max(size, 1)
  }

  /** The ledger after `k` batches: one entry a batch, naming exactly the rows of that batch. */
  ghost predicate LedgerSoFar(
    cfg: Config, outside: Outside, a: Database, now: Database, candidates: seq<nat>, size: nat, k: nat)
    requires AllOwed(cfg, a, candidates)
  {
    && |now.audit| == |a.audit| + k
    && forall j :: 1 <= j <= k ==>
         now.audit[|a.audit| + j - 1] == LedgerOf(cfg, outside, a, BatchOf(candidates, j, size), j)
  }

  ghost function LedgerOf(cfg: Config, outside: Outside, a: Database, batch: seq<nat>, k: nat): Entry
    requires forall m :: 0 <= m < |batch| ==> batch[m] < |a.audit|
  {
    LedgerEntry(cfg, outside, k, IdsOf(a, batch), PairsOf(a, batch))
  }

  /** The store events of `k` batches: every entry of the batch vaulted and then projected, then the ledger. */
  ghost function RunEvents(cfg: Config, outside: Outside, a: Database, candidates: seq<nat>,
    size: nat, k: nat): seq<Event>
    requires AllOwed(cfg, a, candidates)
  {
    if k == 0 then []
    else
      RunEvents(cfg, outside, a, candidates, size, k - 1) + TurnEvents(cfg, outside, a, candidates, size, k)
  }

  ghost function TurnEvents(cfg: Config, outside: Outside, a: Database, candidates: seq<nat>,
    size: nat, k: nat): seq<Event>
    requires AllOwed(cfg, a, candidates) && k > 0
  {
    var batch := BatchOf(candidates, k, size);
    BatchEvents(a, batch, |batch|) + [EntryAppended(outside.mint(k))]
  }

  /** The state of a run after `k` batches. */
  ghost predicate RunSoFar(
    cfg: Config, outside: Outside, a: Database, now: Database, candidates: seq<nat>, size: nat, k: nat)
    requires AllOwed(cfg, a, candidates)
  {
    && Valid(now) && AuditPartial(cfg, a, now)
    && LedgerSoFar(cfg, outside, a, now, candidates, size, k)
    && AllMigrated(cfg, a, now, candidates[..Covered(k, size, |candidates|)])
    && Untouched(a, now, candidates[Covered(k, size, |candidates|)..])
  }

  lemma BatchBounds(n: nat, size: nat, k: nat)
    requires k * Max(size, 1) < n
    ensures size > 0 ==> BatchStart(k + 1, size, n) == Covered(k, size, n) < BatchEnd(k + 1, size, n)
    ensures size == 0 ==> BatchStart(k + 1, size, n) == BatchEnd(k + 1, size, n)
    ensures Covered(k + 1, size, n) == Covered(k, size, n) + (BatchEnd(k + 1, size, n) - BatchStart(k + 1, size, n))
    ensures Covered(k, size, n) <= n && Covered(k + 1, size, n) <= n
  {
    assert (k + 1) * size == k * size + size;
  }

  /** The next batch is the next stretch of the candidates, and nothing of it was touched. */
  lemma NextBatch(cfg: Config, outside: Outside, a: Database, now: Database, candidates: seq<nat>, size: nat, k: nat)
    requires AllOwed(cfg, a, candidates) && NoRepeats(candidates)
    requires RunSoFar(cfg, outside, a, now, candidates, size, k) && k * Max(size, 1) < |candidates|
    ensures var batch := BatchOf(candidates, k + 1, size); var from := Covered(k, size, |candidates|);
      && NoRepeats(batch) && AllOwed(cfg, a, batch) && Untouched(a, now, batch)
      && Covered(k + 1, size, |candidates|) == from + |batch|
      && batch == candidates[BatchStart(k + 1, size, |candidates|)..BatchEnd(k + 1, size, |candidates|)]
      && (size > 0 ==> batch == candidates[from..from + |batch|] && |batch| > 0)
  {
    hide Valid, AuditPartial, LedgerSoFar, AllMigrated, EntryOwed, Covered, BatchStart, BatchEnd;
    BatchBounds(|candidates|, size, k);
    var from := Covered(k, size, |candidates|);
    var batch := BatchOf(candidates, k + 1, size);
    if size > 0 {
      forall m | 0 <= m < |batch| ensures batch[m] < |now.audit| && now.audit[batch[m]] == a.audit[batch[m]] {
        assert batch[m] == candidates[from..][m];
      }
    }
  }

  /** After a batch and its ledger entry the run is one batch further. */
  lemma BatchDone(
    cfg: Config, outside: Outside, a: Database, before: Database, after: Database, candidates: seq<nat>,
    size: nat, k: nat)
    requires AllOwed(cfg, a, candidates) && NoRepeats(candidates)
    requires RunSoFar(cfg, outside, a, before, candidates, size, k) && k * Max(size, 1) < |candidates|
    requires var batch := BatchOf(candidates, k + 1, size);
      MigratedSoFar(cfg, a, before, after, batch, |batch|)
    ensures Covered(k + 1, size, |candidates|) <= |candidates|
    ensures AllMigrated(cfg, a, after, candidates[..Covered(k + 1, size, |candidates|)])
    ensures Untouched(a, after, candidates[Covered(k + 1, size, |candidates|)..])
  {
    NextBatch(cfg, outside, a, before, candidates, size, k);
    CoveredMigrated(cfg, outside, a, before, after, candidates, size, k);
    RestUntouched(cfg, outside, a, before, after, candidates, size, k);
  }

  lemma CoveredMigrated(
    cfg: Config, outside: Outside, a: Database, before: Database, after: Database, candidates: seq<nat>,
    size: nat, k: nat)
    requires AllOwed(cfg, a, candidates) && NoRepeats(candidates)
    requires RunSoFar(cfg, outside, a, before, candidates, size, k) && k * Max(size, 1) < |candidates|
    requires var batch := BatchOf(candidates, k + 1, size);
      MigratedSoFar(cfg, a, before, after, batch, |batch|)
    ensures Covered(k + 1, size, |candidates|) <= |candidates|
    ensures AllMigrated(cfg, a, after, candidates[..Covered(k + 1, size, |candidates|)])
  {
    NextBatch(cfg, outside, a, before, candidates, size, k);
    BatchBounds(|candidates|, size, k);
    hide Valid, AuditPartial, LedgerSoFar, NoRepeats, Untouched, AllOwed, EntryMigrated, MigratedSoFar, BatchOf;
    hide Covered;
    var batch := BatchOf(candidates, k + 1, size);
    var from, to := Covered(k, size, |candidates|), Covered(k + 1, size, |candidates|);
    BatchMigrated(cfg, a, before, after, batch);
    forall m | 0 <= m < to
      ensures candidates[m] < |a.audit| <= |after.audit| && EntryMigrated(cfg, a, after, candidates[m])
    {
      if m < from {
        assert candidates[..from][m] == candidates[m];
        StaysMigrated(cfg, a, before, after, batch, candidates[m]);
      } else {
        assert candidates[m] == batch[m - from];
      }
    }
  }

  lemma BatchMigrated(cfg: Config, a: Database, before: Database, after: Database, batch: seq<nat>)
    requires MigratedSoFar(cfg, a, before, after, batch, |batch|)
    ensures |a.audit| <= |after.audit|
    ensures forall m :: 0 <= m < |batch| ==> batch[m] < |a.audit| && EntryMigrated(cfg, a, after, batch[m])
  {
    assert batch[..|batch|] == batch;
  }

  lemma StaysMigrated(cfg: Config, a: Database, before: Database, after: Database, batch: seq<nat>, n: nat)
    requires MigratedSoFar(cfg, a, before, after, batch, |batch|)
    requires n < |a.audit| && EntryMigrated(cfg, a, before, n)
    ensures EntryMigrated(cfg, a, after, n)
  {
    assert batch[..|batch|] == batch;
    if n in batch {
      var m :| 0 <= m < |batch| && batch[m] == n;
      assert EntryMigrated(cfg, a, after, batch[m]);
    }
  }

  lemma RestUntouched(
    cfg: Config, outside: Outside, a: Database, before: Database, after: Database, candidates: seq<nat>,
    size: nat, k: nat)
    requires AllOwed(cfg, a, candidates) && NoRepeats(candidates)
    requires RunSoFar(cfg, outside, a, before, candidates, size, k) && k * Max(size, 1) < |candidates|
    requires var batch := BatchOf(candidates, k + 1, size);
      MigratedSoFar(cfg, a, before, after, batch, |batch|)
    requires Covered(k + 1, size, |candidates|) <= |candidates|
    ensures Untouched(a, after, candidates[Covered(k + 1, size, |candidates|)..])
  {
    NextBatch(cfg, outside, a, before, candidates, size, k);
    BatchBounds(|candidates|, size, k);
    hide Valid, AuditPartial, LedgerSoFar, EntryOwed, EntryMigrated, AllMigrated, AllOwed, BatchOf, Covered, Keeps;
    var batch := BatchOf(candidates, k + 1, size);
    var from, to := Covered(k, size, |candidates|), Covered(k + 1, size, |candidates|);
    var rest := candidates[to..];
    forall m | 0 <= m < |rest|
      ensures rest[m] < |a.audit| && rest[m] < |after.audit| && after.audit[rest[m]] == a.audit[rest[m]]
    {
      assert rest[m] == candidates[from..][to - from + m];
      assert rest[m] !in batch;
    }
  }

  lemma LedgerKept(
    cfg: Config, outside: Outside, a: Database, before: Database, after: Database, candidates: seq<nat>,
    batch: seq<nat>, size: nat, k: nat)
    requires AllOwed(cfg, a, candidates) && AllOwed(cfg, a, batch)
    requires LedgerSoFar(cfg, outside, a, before, candidates, size, k)
    requires MigratedSoFar(cfg, a, before, after, batch, |batch|)
    ensures LedgerSoFar(cfg, outside, a, after, candidates, size, k)
  {
    forall n | |a.audit| <= n < |after.audit| ensures after.audit[n] == before.audit[n] {
      assert n !in batch;
    }
  }

  /** Appending the ledger entry of a batch: its id is fresh, so the append is new and completes the batch. */
  lemma Ledgered(
    cfg: Config, outside: Outside, a: Database, now: Database, candidates: seq<nat>, size: nat, k: nat, fault: Fault)
    requires AllOwed(cfg, a, candidates) && Valid(a) && MintsFresh(outside, a)
    requires Valid(now) && AuditPartial(cfg, a, now) && LedgerSoFar(cfg, outside, a, now, candidates, size, k)
    ensures var entry := LedgerOf(cfg, outside, a, BatchOf(candidates, k + 1, size), k + 1);
      var (audit, outcome) := Settle(now.audit, fault, Append(now.audit, entry));
      var after := now.(audit := audit);
      && Valid(after) && AuditPartial(cfg, a, after)
      && (outcome.Failure? ==> outcome.error == Down) && (fault.Fine? ==> outcome.Success?)
      && (outcome.Success? ==>
        audit == now.audit + [entry] && LedgerSoFar(cfg, outside, a, after, candidates, size, k + 1))
  {
    hide Valid, AuditPartial, LedgerSoFar, LedgerOf, MintsFresh;
    var entry := LedgerOf(cfg, outside, a, BatchOf(candidates, k + 1, size), k + 1);
    LedgerIdIsFresh(cfg, outside, a, now, candidates, size, k);
    FindEntryFinds(now.audit, entry.id);
    AppendingKeepsPartial(cfg, a, now, entry);
    LedgerGrows(cfg, outside, a, now, candidates, size, k);
  }

  lemma LedgerIdIsFresh(cfg: Config, outside: Outside, a: Database, now: Database, candidates: seq<nat>,
    size: nat, k: nat)
    requires AllOwed(cfg, a, candidates) && MintsFresh(outside, a)
    requires AuditPartial(cfg, a, now) && LedgerSoFar(cfg, outside, a, now, candidates, size, k)
    ensures var entry := LedgerOf(cfg, outside, a, BatchOf(candidates, k + 1, size), k + 1);
      entry.instance.None? && forall n :: 0 <= n < |now.audit| ==> now.audit[n].id != entry.id
  {
    var entry := LedgerOf(cfg, outside, a, BatchOf(candidates, k + 1, size), k + 1);
    forall n | 0 <= n < |now.audit| ensures now.audit[n].id != entry.id {
      if n >= |a.audit| {
        var j := n - |a.audit| + 1;
        assert now.audit[|a.audit| + j - 1] == LedgerOf(cfg, outside, a, BatchOf(candidates, j, size), j);
      }
    }
  }

  lemma LedgerGrows(cfg: Config, outside: Outside, a: Database, now: Database, candidates: seq<nat>, size: nat, k: nat)
    requires AllOwed(cfg, a, candidates) && LedgerSoFar(cfg, outside, a, now, candidates, size, k)
    ensures var entry := LedgerOf(cfg, outside, a, BatchOf(candidates, k + 1, size), k + 1);
      LedgerSoFar(cfg, outside, a, now.(audit := now.audit + [entry]), candidates, size, k + 1)
  {
    hide LedgerOf, BatchOf;
  }

  lemma AppendingKeepsPartial(cfg: Config, a: Database, b: Database, entry: Entry)
    requires Valid(b) && AuditPartial(cfg, a, b) && entry.instance.None?
    requires forall n :: 0 <= n < |b.audit| ==> b.audit[n].id != entry.id
    ensures var c := b.(audit := b.audit + [entry]); Valid(c) && AuditPartial(cfg, a, c)
  {
    var c := b.(audit := b.audit + [entry]);
    forall n | 0 <= n < |a.audit| ensures c.audit[n] == a.audit[n] || EntryMigrated(cfg, a, c, n) {
      if b.audit[n] != a.audit[n] {
        assert EntryMigrated(cfg, a, b, n);
      }
    }
  }

  lemma BatchesCeil(n: nat, size: nat, k: nat)
    requires k * Max(size, 1) >= n && (k == 0 || (k - 1) * Max(size, 1) < n)
    ensures k == BatchCount(n, size)
  {
    var step := Max(size, 1);
    if k > 0 {
      assert (k - 1) * step + step == k * step;
      assert (n + step - 1) / step == k by {
        assert k * step <= n + step - 1 < (k + 1) * step;
        DivisionIs(n + step - 1, step, k);
      }
    } else {
      DivisionIs(n + step - 1, step, 0);
    }
  }

  lemma ProductOrder(a: nat, b: nat, d: nat)
    ensures a * d < b * d ==> a < b
  {
    if b <= a {
      assert a * d == b * d + (a - b) * d;
    }
  }

  lemma DivisionIs(x: nat, d: nat, q: nat)
    requires d > 0 && q * d <= x < (q + 1) * d
    ensures x / d == q
  {
    assert x == (x / d) * d + x % d;
    assert (x / d + 1) * d == (x / d) * d + d;
    ProductOrder(q, x / d + 1, d);
    ProductOrder(x / d, q + 1, d);
  }

  lemma CountCovers(n: nat, size: nat)
    requires size > 0
    ensures BatchCount(n, size) * size >= n
  {
    var x := n + size - 1;
    assert x == (x / size) * size + x % size;
  }

  /** The dry run announces the number of batches the real run makes exactly when the batch size is
      positive: at size zero the real run makes one empty batch more than announced. */
  lemma DryRunCountsBatches(n: nat, size: nat)
    ensures (n + size - 1) / Max(size, 1) == BatchCount(n, size) <==> size > 0
    ensures size == 0 ==> BatchCount(n, size) == n && forall k :: 0 < k ==>
      BatchEnd(k, size, n) == BatchStart(k, size, n)
  {
  }

  /** When every batch is done, the candidates are all migrated and none is left. */
  lemma RunCompletes(cfg: Config, outside: Outside, a: Database, now: Database, candidates: seq<nat>, size: nat, k: nat)
    requires Valid(a) && size > 0 && k * size >= |candidates|
    requires candidates == Candidates(cfg, a, a.order, |a.order|) && AllOwed(cfg, a, candidates)
    requires RunSoFar(cfg, outside, a, now, candidates, size, k)
    ensures AuditComplete(cfg, a, now)
  {
    CandidatesAreTheOwed(cfg, a, a.order, |a.order|);
    assert candidates[..|candidates|] == candidates;
    assert a.order[..|a.order|] == a.order;
    forall n | 0 <= n < |a.audit| && EntryOwed(cfg, a, a.audit[n]) ensures EntryMigrated(cfg, a, now, n) {
      assert Listed(a, a.order, |a.order|, n);
      assert n in candidates;
      var m :| 0 <= m < |candidates| && candidates[m] == n;
    }
  }

  /** The batches of a run, laid end to end, are exactly the candidates in order. */
  lemma {:induction false} BatchesPartition(candidates: seq<nat>, size: nat, k: nat)
    requires size > 0
    ensures Joined(candidates, size, k) == candidates[..Covered(k, size, |candidates|)]
    ensures Joined(candidates, size, BatchCount(|candidates|, size)) == candidates
  {
    JoinedIsPrefix(candidates, size, k);
    CountCovers(|candidates|, size);
    JoinedIsPrefix(candidates, size, BatchCount(|candidates|, size));
    assert candidates[..|candidates|] == candidates;
  }

  function Joined(candidates: seq<nat>, size: nat, k: nat): seq<nat> {
    if k == 0 then [] else Joined(candidates, size, k - 1) + BatchOf(candidates, k, size)
  }

  lemma {:induction false} JoinedIsPrefix(candidates: seq<nat>, size: nat, k: nat)
    requires size > 0
    ensures Joined(candidates, size, k) == candidates[..Covered(k, size, |candidates|)]
  {
    if k > 0 {
      JoinedIsPrefix(candidates, size, k - 1);
      assert (k - 1) * size + size == k * size;
    }
  }

  ghost predicate NothingElseOwed(cfg: Config, db: Database, candidates: seq<nat>) {
    forall e: nat :: e < |db.audit| && EntryOwed(cfg, db, db.audit[e]) ==> e in candidates
  }

  lemma ListedExist(db: Database, limit: nat)
    requires Valid(db)
    ensures forall i :: i in Listing(db, limit) ==> i in db.instances
  {
  }

  lemma ListedCandidates(cfg: Config, db: Database, limit: nat)
    requires Valid(db)
    requires forall i :: i in Listing(db, limit) ==> i in db.instances
    ensures var candidates := Candidates(cfg, db, Listing(db, limit), |Listing(db, limit)|);
      && AllOwed(cfg, db, candidates) && NoRepeats(candidates)
      && (|db.order| <= limit ==> NothingElseOwed(cfg, db, candidates))
  {
    var ids := Listing(db, limit);
    var candidates := Candidates(cfg, db, ids, |ids|);
    CandidatesAreTheOwed(cfg, db, ids, |ids|);
    assert ids[..|ids|] == ids;
    assert forall m :: 0 <= m < |candidates| ==> candidates[m] in candidates;
  }

  lemma NotMigratedIsPartial(cfg: Config, a: Database)
    ensures AuditPartial(cfg, a, a)
  {
  }

  /** `migrate_audit_details`. It raises, before any write, exactly when a listed entry cannot be projected. A
      dry run counts and writes nothing. A real run may fail at any write and leaves a partial migration; when it
      returns, its events, its ledger and its counts are those of the batches, and with a positive batch size no
      candidate of the listed instances is left. Without faults it stops early exactly when the vault holds other
      content under the key of a candidate. */
  method MigrateAuditDetails(vault: RawTraceVault, dryRun: bool, limit: nat, size: nat, outside: Outside)
    returns (r: Result<Report, RunError>, ghost candidates: seq<nat>)
    requires Valid(vault.repos.db)
    requires MintsFresh(outside, vault.repos.db)
    modifies vault.repos
    ensures Valid(vault.repos.db) && AuditPartial(vault.cfg, old(vault.repos.db), vault.repos.db)
    ensures forall i :: i in Listing(old(vault.repos.db), limit) ==> i in old(vault.repos.db.instances)
    ensures candidates ==
      Candidates(vault.cfg, old(vault.repos.db), Listing(old(vault.repos.db), limit),
        |Listing(old(vault.repos.db), limit)|)
    ensures AllOwed(vault.cfg, old(vault.repos.db), candidates) && NoRepeats(candidates)
    ensures |old(vault.repos.db.order)| <= limit ==> NothingElseOwed(vault.cfg, old(vault.repos.db), candidates)
    ensures r.Success? ==>
      && r.value.dryRun == dryRun
      && r.value.skippedNoInstance == 0
      && r.value.skippedNoOrg == Orphans(vault.cfg, old(vault.repos.db), Listing(old(vault.repos.db), limit),
                                         |Listing(old(vault.repos.db), limit)|)
    ensures dryRun || r == Failure(Unprojectable) ==>
      vault.repos.db == old(vault.repos.db) && vault.repos.trace == old(vault.repos.trace)
    ensures dryRun && r.Success? ==>
      r.value.vaulted == r.value.projected == 0 && r.value.candidates == |candidates| &&
        r.value.batches == (|candidates| + size - 1) / Max(size, 1)
    ensures !dryRun && r.Success? ==>
      var n, batches := |candidates|, BatchCount(|candidates|, size);
      && r.value.candidates == n && r.value.batches == batches
      && r.value.vaulted == r.value.projected == (if size == 0 then 0 else n)
      && LedgerSoFar(vault.cfg, outside, old(vault.repos.db), vault.repos.db, candidates, size, batches)
      && vault.repos.trace ==
           old(vault.repos.trace) + RunEvents(vault.cfg, outside, old(vault.repos.db), candidates, size, batches)
    ensures !dryRun && r.Success? && size > 0 && |old(vault.repos.db.order)| <= limit ==>
      AuditComplete(vault.cfg, old(vault.repos.db), vault.repos.db)
    ensures r == Failure(Unprojectable) <==>
      EntriesRaise(vault.cfg, old(vault.repos.db), Listing(old(vault.repos.db), limit))
    ensures r == Failure(Conflicting) ==>
      !dryRun && size > 0 && SomeDetailConflicts(vault.cfg, old(vault.repos.db), candidates)
    ensures !dryRun && r.Success? && size > 0 ==> !SomeDetailConflicts(vault.cfg, old(vault.repos.db), candidates)
    ensures dryRun || Healthy(old(vault.repos.faults)) ==> r != Failure(WriteFailed)
    ensures !dryRun && Healthy(old(vault.repos.faults)) ==>
      (r.Success? <==>
         && !EntriesRaise(vault.cfg, old(vault.repos.db), Listing(old(vault.repos.db), limit))
         && (size > 0 ==> !SomeDetailConflicts(vault.cfg, old(vault.repos.db), candidates)))
  {
    hide Valid, AuditPartial, SomeDetailConflicts, MintsFresh, AllOwed, NoRepeats, NothingElseOwed,
      Candidates, Orphans, EntriesRaise, LedgerSoFar, RunEvents, BatchCount, Snapshot;
    ghost var a := vault.repos.db;
    var ids := Listing(vault.repos.db, limit);
    ListedExist(a, limit);
    candidates := Candidates(vault.cfg, a, ids, |ids|);
    ListedCandidates(vault.cfg, a, limit);
    NotMigratedIsPartial(vault.cfg, a);
    var raised, listed, noInstance, noOrg, _ := CollectCandidates(vault.cfg, vault.repos.db, ids);
    if raised {
      return Failure(Unprojectable), candidates;
    }
    SnapshotLength(a, candidates, listed);
    if dryRun {
      var batches := (|listed| + size - 1) / Max(size, 1);
      return Success(Report(true, |listed|, 0, 0, noInstance, noOrg, batches)), candidates;
    }
    var run := RunBatches(vault, a, candidates, listed, noInstance, noOrg, size, outside);
    r := if run.Failure? then Failure(ErrorOf(run.error)) else Success(run.value);
    if r.Success? && size > 0 && |a.order| <= limit {
      CountCovers(|candidates|, size);
      RunCompletes(vault.cfg, outside, a, vault.repos.db, candidates, size, BatchCount(|candidates|, size));
    }
  }

  method RunBatches(vault: RawTraceVault, ghost a: Database, ghost candidates: seq<nat>, listed: seq<(Entry, string)>,
    noInstance: int, noOrg: nat, size: nat, outside: Outside)
    returns (r: Result<Report, StoreError>)
    requires a == vault.repos.db && Valid(a) && MintsFresh(outside, a)
    requires AllOwed(vault.cfg, a, candidates) && NoRepeats(candidates) && Snapshot(a, candidates, listed)
    modifies vault.repos
    ensures Valid(vault.repos.db) && AuditPartial(vault.cfg, a, vault.repos.db)
    ensures r.Success? ==>
      var batches := BatchCount(|candidates|, size);
      && r.value == Report(false, |candidates|, if size == 0 then 0 else |candidates|,
                           if size == 0 then 0 else |candidates|, noInstance, noOrg, batches)
      && RunSoFar(vault.cfg, outside, a, vault.repos.db, candidates, size, batches)
      && vault.repos.trace == old(vault.repos.trace) + RunEvents(vault.cfg, outside, a, candidates, size, batches)
    ensures r.Success? && size > 0 ==> !SomeDetailConflicts(vault.cfg, a, candidates)
    ensures r.Failure? ==>
      || r.error == Down
      || (r.error == VaultConflict && size > 0 && SomeDetailConflicts(vault.cfg, a, candidates))
    ensures Healthy(old(vault.repos.faults)) ==> r != Failure(Down)
  {
    hide Valid, AuditPartial, SomeDetailConflicts, RunSoFar, LedgerSoFar, MintsFresh, NoRepeats, AllOwed, Snapshot,
      Covered, Max, BatchCount;
    SnapshotLength(a, candidates, listed);
    var start, k, vaulted, projected := 0, 0, 0, 0;
    NothingRun(vault.cfg, outside, a, candidates, size);
    while start < |listed|
      invariant start == k * Max(size, 1) && (k == 0 || (k - 1) * Max(size, 1) < |listed|)
      invariant vaulted == projected == Covered(k, size, |candidates|)
      invariant RunSoFar(vault.cfg, outside, a, vault.repos.db, candidates, size, k)
      invariant vault.repos.trace == old(vault.repos.trace) + RunEvents(vault.cfg, outside, a, candidates, size, k)
      invariant Healthy(old(vault.repos.faults)) ==> Healthy(vault.repos.faults)
      decreases |listed| - start
    {
      var batch := RunBatch(vault, a, candidates, listed, size, k, start, outside);
      if batch.Failure? {
        return Failure(batch.error);
      }
      vaulted, projected := vaulted + batch.value.0, projected + batch.value.1;
      NextStart(k, size);
      k, start := k + 1, start + Max(size, 1);
    }
    BatchesCeil(|listed|, size, k);
    FinishedRun(vault.cfg, outside, a, vault.repos.db, candidates, size, k);
    return Success(Report(false, |listed|, vaulted, projected, noInstance, noOrg, k));
  }

  lemma NextStart(k: nat, size: nat)
    ensures (k + 1) * Max(size, 1) == k * Max(size, 1) + Max(size, 1) > k * Max(size, 1)
  {
  }

  lemma NothingRun(cfg: Config, outside: Outside, a: Database, candidates: seq<nat>, size: nat)
    requires Valid(a) && AllOwed(cfg, a, candidates)
    ensures RunSoFar(cfg, outside, a, a, candidates, size, 0) && Covered(0, size, |candidates|) == 0
  {
  }

  lemma FinishedRun(cfg: Config, outside: Outside, a: Database, now: Database, candidates: seq<nat>, size: nat, k: nat)
    requires Valid(a) && AllOwed(cfg, a, candidates) && RunSoFar(cfg, outside, a, now, candidates, size, k)
    ensures Valid(now) && AuditPartial(cfg, a, now)
    ensures k * Max(size, 1) >= |candidates| ==> Covered(k, size, |candidates|) == if size == 0 then 0 else |candidates|
    ensures k * Max(size, 1) >= |candidates| && size > 0 ==> !SomeDetailConflicts(cfg, a, candidates)
  {
    if k * Max(size, 1) >= |candidates| && size > 0 {
      assert candidates[..|candidates|] == candidates;
      forall m | 0 <= m < |candidates| ensures !DetailConflicts(cfg, a, a.audit[candidates[m]]) {
        VaultedDetailAgrees(cfg, a, now, candidates[m]);
      }
    }
  }

  lemma SnapshotLength(a: Database, candidates: seq<nat>, listed: seq<(Entry, string)>)
    requires Snapshot(a, candidates, listed)
    ensures |listed| == |candidates|
  {
  }

  lemma SnapshotSlice(a: Database, candidates: seq<nat>, listed: seq<(Entry, string)>, lo: nat, hi: nat)
    requires Snapshot(a, candidates, listed) && lo <= hi <= |candidates|
    ensures Snapshot(a, candidates[lo..hi], listed[lo..hi])
  {
  }

  lemma RunFacts(cfg: Config, outside: Outside, a: Database, now: Database, candidates: seq<nat>, size: nat, k: nat)
    requires AllOwed(cfg, a, candidates) && RunSoFar(cfg, outside, a, now, candidates, size, k)
    ensures Valid(now) && AuditPartial(cfg, a, now) && LedgerSoFar(cfg, outside, a, now, candidates, size, k)
  {
  }

  lemma LedgerEntryDone(
    cfg: Config, outside: Outside, a: Database, before: Database, after: Database, candidates: seq<nat>,
    size: nat, k: nat)
    requires AllOwed(cfg, a, candidates)
    requires AllMigrated(cfg, a, before, candidates[..Covered(k, size, |candidates|)])
    requires Untouched(a, before, candidates[Covered(k, size, |candidates|)..])
    requires Valid(after) && AuditPartial(cfg, a, after) && LedgerSoFar(cfg, outside, a, after, candidates, size, k)
    requires after.vault == before.vault && |before.audit| <= |after.audit|
    requires forall n :: 0 <= n < |a.audit| <= |before.audit| ==> after.audit[n] == before.audit[n]
    requires |a.audit| <= |before.audit|
    ensures RunSoFar(cfg, outside, a, after, candidates, size, k)
  {
    var covered := candidates[..Covered(k, size, |candidates|)];
    forall m | 0 <= m < |covered| ensures covered[m] < |a.audit| && EntryMigrated(cfg, a, after, covered[m]) {
      assert EntryMigrated(cfg, a, before, covered[m]);
    }
  }

  /** One turn of the batch loop: the batch, then its ledger entry. */
  method RunBatch(vault: RawTraceVault, ghost a: Database, ghost candidates: seq<nat>, listed: seq<(Entry, string)>,
    size: nat, k: nat, start: nat, outside: Outside)
    returns (r: Result<(nat, nat), StoreError>)
    requires Valid(a) && MintsFresh(outside, a)
    requires AllOwed(vault.cfg, a, candidates) && NoRepeats(candidates) && Snapshot(a, candidates, listed)
    requires RunSoFar(vault.cfg, outside, a, vault.repos.db, candidates, size, k)
    requires start == k * Max(size, 1) < |listed| == |candidates|
    modifies vault.repos
    ensures Valid(vault.repos.db) && AuditPartial(vault.cfg, a, vault.repos.db)
    ensures r.Success? ==>
      RunSoFar(vault.cfg, outside, a, vault.repos.db, candidates, size, k + 1)
    ensures r.Success? ==> r.value.0 == r.value.1 == Covered(k + 1, size, |candidates|) - Covered(k, size, |candidates|)
    ensures r.Success? ==>
      vault.repos.trace == old(vault.repos.trace) + TurnEvents(vault.cfg, outside, a, candidates, size, k + 1)
    ensures r.Failure? ==>
      || r.error == Down
      || (r.error == VaultConflict && size > 0 && SomeDetailConflicts(vault.cfg, a, candidates))
    ensures Healthy(old(vault.repos.faults)) ==> Healthy(vault.repos.faults) && r != Failure(Down)
  {
    hide Valid, AuditPartial, SomeDetailConflicts, RunSoFar, LedgerSoFar, MintsFresh, NoRepeats, MigratedSoFar,
      Untouched, AllMigrated, EntryOwed, BatchEvents, EntryMigrated;
    ghost var before := vault.repos.db;
    RunFacts(vault.cfg, outside, a, before, candidates, size, k);
    NextBatch(vault.cfg, outside, a, before, candidates, size, k);
    ghost var batch := BatchOf(candidates, k + 1, size);
    var stop := Min(start + size, |listed|);
    SnapshotSlice(a, candidates, listed, start, stop);
    var counts, done, pairs := MigrateBatch(vault, a, batch, listed[start..stop]);
    if counts.Failure? {
      BatchIsPart(vault.cfg, a, candidates, size, k);
      return counts;
    }
    ghost var middle := vault.repos.db;
    BatchDone(vault.cfg, outside, a, before, middle, candidates, size, k);
    LedgerKept(vault.cfg, outside, a, before, middle, candidates, batch, size, k);
    Ledgered(vault.cfg, outside, a, middle, candidates, size, k, NextFault(vault.repos.faults));
    MiddleLength(vault.cfg, outside, a, middle, candidates, size, k);
    var appended := vault.repos.AppendEntry(LedgerEntry(vault.cfg, outside, k + 1, done, pairs));
    if appended.Failure? {
      return Failure(appended.error);
    }
    LedgerEntryDone(vault.cfg, outside, a, middle, vault.repos.db, candidates, size, k + 1);
    return counts;
  }

  lemma BatchIsPart(cfg: Config, a: Database, candidates: seq<nat>, size: nat, k: nat)
    ensures SomeDetailConflicts(cfg, a, BatchOf(candidates, k + 1, size)) ==>
      size > 0 && SomeDetailConflicts(cfg, a, candidates)
  {
    var batch := BatchOf(candidates, k + 1, size);
    if m: nat :| m < |batch| && batch[m] < |a.audit| && DetailConflicts(cfg, a, a.audit[batch[m]]) {
      assert candidates[BatchStart(k + 1, size, |candidates|) + m] == batch[m];
    }
  }

  lemma MiddleLength(cfg: Config, outside: Outside, a: Database, now: Database, candidates: seq<nat>, size: nat, k: nat)
    requires AllOwed(cfg, a, candidates) && LedgerSoFar(cfg, outside, a, now, candidates, size, k)
    ensures |a.audit| <= |now.audit|
  {
  }
}

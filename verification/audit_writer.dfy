/** The audit-append chokepoint of audit_writer.py: vault what projection would take away, then append. */
module AuditWriting {
  import opened Wrappers
  import opened Json
  import opened Vault
  import opened Store
  import opened BackfillSpec
  import opened VaultWriter
  import opened AuditMigrationSpec

  const AUDIT_ORG_CACHE_MAX := 4096

  datatype Request = Request(
    action: string, actorType: string, actorId: string, instance: Option<string>, step: Option<string>,
    detail: Record, entryId: string)

  datatype WriterError = UnreadableDetail | InstanceLessRaw | UnknownInstance | StoreFailed(cause: StoreError)

  /** The store, the faults still to come and what was done so far. */
  datatype World = World(db: Database, faults: seq<Fault>, trace: seq<Event>)

  /** `audit_detail_has_raw` */
  predicate LosesDetail(cfg: Config, req: Request) {
    cfg.p.detail(req.action, req.detail) != req.detail
  }

  /** The entry that is stored: under the flip projected, and stamped when projection took something. */
  function EntryOf(cfg: Config, flip: bool, req: Request): Entry {
    Entry(
      req.entryId, req.actorType, req.actorId, req.action, req.instance, req.step,
      if flip then cfg.p.detail(req.action, req.detail) else req.detail,
      if flip && LosesDetail(cfg, req) then Some(cfg.p.version) else None)
  }

  function Appended(w: World, entry: Entry): (World, Result<(), WriterError>) {
    var (audit, outcome) := Settle(w.db.audit, NextFault(w.faults), Append(w.db.audit, entry));
    (World(w.db.(audit := audit), Rest(w.faults), w.trace + [EntryAppended(entry.id)]),
     if outcome.Success? then Success(()) else Failure(StoreFailed(outcome.error)))
  }

  function Recorded(cfg: Config, w: World, identity: Identity, payload: Json): (World, Result<(), WriterError>) {
    if Empty(payload) then (w, Success(()))
    else
      var key := identity.Address();
      var row := RowOf(cfg.cipher, cfg.p.version, identity, payload);
      var (vault, outcome) := Settle(w.db.vault, NextFault(w.faults), Put(w.db.vault, key, row));
      (World(w.db.(vault := vault), Rest(w.faults), w.trace + [RowPut(key)]),
       if outcome.Success? then Success(()) else Failure(StoreFailed(outcome.error)))
  }

  /** What one call of `append` does to the world. */
  function AppendCall(cfg: Config, flip: bool, w: World, req: Request): (World, Result<(), WriterError>) {
    var entry := EntryOf(cfg, flip, req);
    if flip && cfg.p.detailRaises(req.action, req.detail) then (w, Failure(UnreadableDetail))
    else if !flip || !LosesDetail(cfg, req) then Appended(w, entry)
    else if req.instance.None? then (w, Failure(InstanceLessRaw))
    else if req.instance.value !in w.db.instances then (w, Failure(UnknownInstance))
    else
      var org := w.db.instances[req.instance.value].org;
      var (after, recorded) := Recorded(cfg, w, DetailIdentity(org, req.instance.value, req.entryId), Obj(req.detail));
      if recorded.Failure? then (after, recorded) else Appended(after, entry)
  }

  /** The entry tells the request: who acted, what they did, for which instance and step, under its id. Before the
      flip its detail is the request's, without a stamp; after it, the projection, with a stamp exactly when that
      took something. */
  predicate Carries(cfg: Config, flip: bool, e: Entry, req: Request) {
    && e.id == req.entryId && e.action == req.action && e.actorType == req.actorType && e.actorId == req.actorId
    && e.instance == req.instance && e.step == req.step
    && if !flip then e.detail == req.detail && e.version.None?
       else
         && e.detail == cfg.p.detail(req.action, req.detail)
         && e.version == if e.detail == req.detail then None else Some(cfg.p.version)
  }

  /** What a call adds to the log is at most one such entry; when it succeeds, such an entry is in the log; and
      before the flip nothing goes to the vault. */
  lemma StoredEntryCarriesTheRequest(cfg: Config, flip: bool, w: World, req: Request)
    ensures var before, after := w.db.audit, AppendCall(cfg, flip, w, req).0.db.audit;
      after == before || (|after| > 0 && after[..|after| - 1] == before && Carries(cfg, flip, after[|after| - 1], req))
    ensures AppendCall(cfg, flip, w, req).1.Success? ==>
      exists e :: e in AppendCall(cfg, flip, w, req).0.db.audit && Carries(cfg, flip, e, req)
    ensures !flip ==> AppendCall(cfg, flip, w, req).0.db.vault == w.db.vault
  {
    hide Appended, Recorded, Carries;
    EntryCarries(cfg, flip, req);
    var entry := EntryOf(cfg, flip, req);
    if flip && cfg.p.detailRaises(req.action, req.detail) {
      return;
    }
    if !flip || !LosesDetail(cfg, req) {
      AppendedAddsItsEntry(w, entry);
    } else if req.instance.Some? && req.instance.value in w.db.instances {
      var identity := DetailIdentity(w.db.instances[req.instance.value].org, req.instance.value, req.entryId);
      RecordedLeavesTheLog(cfg, w, identity, Obj(req.detail));
      AppendedAddsItsEntry(Recorded(cfg, w, identity, Obj(req.detail)).0, entry);
    }
  }

  lemma EntryCarries(cfg: Config, flip: bool, req: Request)
    ensures Carries(cfg, flip, EntryOf(cfg, flip, req), req)
  {
  }

  lemma RecordedLeavesTheLog(cfg: Config, w: World, identity: Identity, payload: Json)
    ensures Recorded(cfg, w, identity, payload).0.db.audit == w.db.audit
  {
  }

  lemma AppendedAddsItsEntry(w: World, entry: Entry)
    ensures var (after, outcome) := Appended(w, entry);
      && (after.db.audit == w.db.audit || after.db.audit == w.db.audit + [entry])
      && (outcome.Success? ==> entry in after.db.audit) && after.db.vault == w.db.vault
  {
    FindEntryFinds(w.db.audit, entry.id);
  }

  class AuditWriter {
    const vault: RawTraceVault
    const flip: bool
    var orgCache: map<string, string>

    constructor (vault: RawTraceVault, flip: bool)
      ensures this.vault == vault && this.flip == flip && CacheAgrees(vault.repos.db)
    {
      this.vault := vault;
      this.flip := flip;
      orgCache := map[];
    }

    /** The memo holds owners the instance rows name, and no more than its bound. */
    ghost predicate CacheAgrees(db: Database)
      reads this
    {
      && |orgCache| <= 4096
      && forall i :: i in orgCache ==> i in db.instances && db.instances[i].org == orgCache[i]
    }

    /** The world the writer acts on. */
    ghost function Now(): World
      reads vault, vault.repos
    {
      World(vault.repos.db, vault.repos.faults, vault.repos.trace)
    }

    /** `org_for`: the owner of the instance, or a failure; never a default. */
    method OrgFor(instance: string) returns (r: Result<string, WriterError>)
      requires CacheAgrees(vault.repos.db)
      modifies this`orgCache
      ensures CacheAgrees(vault.repos.db)
      ensures r == if instance in vault.repos.db.instances then Success(vault.repos.db.instances[instance].org)
                   else Failure(UnknownInstance)
    {
      if instance in orgCache {
        return Success(orgCache[instance]);
      }
      if instance !in vault.repos.db.instances {
        return Failure(UnknownInstance);
      }
      var org := vault.repos.db.instances[instance].org;
      if |orgCache| >= AUDIT_ORG_CACHE_MAX {
        orgCache := map[];
      }
      assert orgCache[instance := org].Keys == orgCache.Keys + {instance};
      orgCache := orgCache[instance := org];
      return Success(org);
    }

    /** `append` */
    method AppendEntry(req: Request) returns (r: Result<(), WriterError>)
      requires CacheAgrees(vault.repos.db) && (this as object) != vault.repos
      modifies this`orgCache, vault.repos
      ensures (Now(), r) == AppendCall(vault.cfg, flip, old(Now()), req)
      ensures CacheAgrees(vault.repos.db)
    {
      var stored := req.detail;
      var vaulted: Option<string> := None;
      if flip {
        if vault.cfg.p.detailRaises(req.action, req.detail) {
          return Failure(UnreadableDetail);
        }
        stored := vault.cfg.p.detail(req.action, req.detail);
        if stored != req.detail {
          if req.instance.None? {
            return Failure(InstanceLessRaw);
          }
          var org := OrgFor(req.instance.value);
          if org.Failure? {
            return Failure(org.error);
          }
          var recorded := vault.Record(DetailIdentity(org.value, req.instance.value, req.entryId),
            Obj(req.detail), true);
          if recorded.Failure? {
            return Failure(StoreFailed(recorded.error));
          }
          vaulted := Some(vault.cfg.p.version);
        }
      }
      var appended := vault.repos.AppendEntry(Entry(
        req.entryId, req.actorType, req.actorId, req.action, req.instance, req.step, stored, vaulted));
      r := if appended.Success? then Success(()) else Failure(StoreFailed(appended.error));
    }
  }
}

/** `RawTraceVault` of trace_vault.py: the one write path into the vault. */
module VaultWriter {
  import opened Wrappers
  import opened Json
  import opened Vault
  import opened Store
  import opened BackfillSpec

  /** `_empty`: payloads that are never recorded. */
  predicate Empty(payload: Json) {
    payload.Null? || payload == Str("") || payload == Arr([]) || payload == Obj(map[])
  }

  /** Nothing is skipped but what is empty: neither a zero nor false is. */
  lemma EmptyIffFalsy(payload: Json)
    ensures Empty(payload) <==> !payload.Truthy() && !payload.Bool? && !payload.Int? && !payload.Real?
  {
  }

  class RawTraceVault {
    const repos: Repositories
    const cfg: Config

    constructor (repos: Repositories, cfg: Config)
      ensures this.repos == repos && this.cfg == cfg
    {
      this.repos := repos;
      this.cfg := cfg;
    }

    /** `_record`: a conflict is always fatal; any other failure is fatal when the write must be durable. */
    method Record(identity: Identity, payload: Json, durable: bool) returns (r: Result<(), StoreError>)
      modifies repos
      ensures Empty(payload) ==>
        r == Success(()) && repos.db == old(repos.db) && repos.faults == old(repos.faults) &&
          repos.trace == old(repos.trace)
      ensures !Empty(payload) ==>
        var key := identity.Address();
        var row := RowOf(cfg.cipher, cfg.p.version, identity, payload);
        var (vault, outcome) := Settle(old(repos.db.vault), NextFault(old(repos.faults)),
          Put(old(repos.db.vault), key, row));
        && repos.db == old(repos.db).(vault := vault)
        && repos.faults == Rest(old(repos.faults)) && repos.trace == old(repos.trace) + [RowPut(key)]
        && (r.Success? <==> outcome.Success? || (outcome.error != VaultConflict && !durable))
        && (r.Failure? ==> outcome.Failure? && r.error == outcome.error)
    {
      if Empty(payload) {
        return Success(());
      }
      var put := repos.PutRow(identity.Address(), RowOf(cfg.cipher, cfg.p.version, identity, payload));
      if put.Failure? && (put.error == VaultConflict || durable) {
        return Failure(put.error);
      }
      return Success(());
    }
  }
}

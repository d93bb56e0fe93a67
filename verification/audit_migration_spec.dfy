/** What `migrate_audit_details` of trace_migration.py owes the audit log, and what any part of a run keeps. */
module AuditMigrationSpec {
  import opened Wrappers
  import opened Json
  import opened Vault
  import opened Store
  import opened Policy
  import opened BackfillSpec

  /** The detail is non-empty and projection would take something away. */
  predicate DetailHasRaw(cfg: Config, e: Entry) {
    e.detail != map[] && cfg.p.detail(e.action, e.detail) != e.detail
  }

  /** Asking whether the entry is raw raises. */
  predicate EntryRaises(cfg: Config, e: Entry) {
    e.detail != map[] && cfg.p.detailRaises(e.action, e.detail)
  }

  /** Some entry of the listed instances does that. */
  ghost predicate EntriesRaise(cfg: Config, db: Database, ids: seq<string>) {
    exists n: nat :: n < |db.audit| && db.audit[n].instance.Some? && db.audit[n].instance.value in ids &&
      EntryRaises(cfg, db.audit[n])
  }

  /** A candidate: raw, and of an instance that names its organisation. */
  predicate EntryOwed(cfg: Config, db: Database, e: Entry) {
    && DetailHasRaw(cfg, e)
    && e.instance.Some? && e.instance.value in db.instances && db.instances[e.instance.value].org != ""
  }

  function DetailIdentity(org: string, instance: string, entry: string): Identity {
    Identity(org, instance, None, AuditDetail, RAW_SCHEMA, Some(entry))
  }

  function OwnIdentity(db: Database, e: Entry): Identity
    requires e.instance.Some? && e.instance.value in db.instances
  {
    DetailIdentity(db.instances[e.instance.value].org, e.instance.value, e.id)
  }

  function DetailRow(cfg: Config, db: Database, e: Entry): Row
    requires e.instance.Some? && e.instance.value in db.instances
  {
    RowOf(cfg.cipher, cfg.p.version, OwnIdentity(db, e), Obj(e.detail))
  }

  function MigratedEntry(cfg: Config, e: Entry): Entry {
    e.(detail := cfg.p.detail(e.action, e.detail), version := Some(cfg.p.version))
  }

  /** The vault of `b` holds the raw of the entry under its own key. */
  predicate DetailSettled(cfg: Config, a: Database, b: Database, e: Entry)
    requires e.instance.Some? && e.instance.value in a.instances
  {
    var key := OwnIdentity(a, e).Address();
    key in b.vault && SameWrite(b.vault[key], DetailRow(cfg, a, e))
  }

  /** Entry `n` of `a` is projected in `b`, with its raw in the vault under its own key. */
  ghost predicate EntryMigrated(cfg: Config, a: Database, b: Database, n: nat)
    requires n < |a.audit| <= |b.audit|
  {
    && EntryOwed(cfg, a, a.audit[n])
    && b.audit[n] == MigratedEntry(cfg, a.audit[n])
    && DetailSettled(cfg, a, b, a.audit[n])
  }

  /** The vault holds other content under the key of an entry that is still raw. */
  predicate DetailConflicts(cfg: Config, db: Database, e: Entry) {
    && EntryOwed(cfg, db, e) && OwnIdentity(db, e).Address() in db.vault
    && !DetailSettled(cfg, db, db, e)
  }

  /** No vaulted detail is in conflict with the raw still inline. */
  ghost predicate ConsistentDetails(cfg: Config, db: Database) {
    forall n :: 0 <= n < |db.audit| ==> !DetailConflicts(cfg, db, db.audit[n])
  }

  /** Entry `n` accounts for the vault row under `key`. */
  ghost predicate Accounts(cfg: Config, a: Database, n: nat, key: Key, row: Row) {
    && n < |a.audit| && EntryOwed(cfg, a, a.audit[n])
    && key == OwnIdentity(a, a.audit[n]).Address() && row == DetailRow(cfg, a, a.audit[n])
  }

  /** `b` is `a` after any part of a migration: entries are untouched or migrated, what was appended
      belongs to no instance, and the vault gained only details that were owed. */
  ghost predicate AuditPartial(cfg: Config, a: Database, b: Database) {
    && b == a.(audit := b.audit, vault := b.vault)
    && |a.audit| <= |b.audit|
    && (forall n :: 0 <= n < |a.audit| ==> b.audit[n] == a.audit[n] || EntryMigrated(cfg, a, b, n))
    && (forall n :: |a.audit| <= n < |b.audit| ==> b.audit[n].instance.None?)
    && (forall key :: key in a.vault ==> key in b.vault && b.vault[key] == a.vault[key])
    && (forall key :: key in b.vault && key !in a.vault ==> exists n: nat :: Accounts(cfg, a, n, key, b.vault[key]))
  }

  /** No candidate is left. */
  ghost predicate AuditComplete(cfg: Config, a: Database, b: Database) {
    && AuditPartial(cfg, a, b)
    && forall n :: 0 <= n < |a.audit| && EntryOwed(cfg, a, a.audit[n]) ==> EntryMigrated(cfg, a, b, n)
  }

  lemma MigratedOwesNothing(cfg: Config, db: Database, e: Entry)
    requires e.instance.Some? ==> FixedDetail(cfg.p, e.action, e.detail)
    ensures !EntryOwed(cfg, db, MigratedEntry(cfg, e))
  {
  }

  lemma StillOwed(cfg: Config, a: Database, b: Database, n: nat)
    requires FixedOn(cfg.p, a) && AuditPartial(cfg, a, b) && n < |a.audit|
    ensures EntryOwed(cfg, b, b.audit[n]) ==>
      b.audit[n] == a.audit[n] && EntryOwed(cfg, a, a.audit[n]) &&
        OwnIdentity(b, b.audit[n]) == OwnIdentity(a, a.audit[n])
    ensures EntryOwed(cfg, a, a.audit[n]) && !EntryOwed(cfg, b, b.audit[n]) ==> EntryMigrated(cfg, a, b, n)
  {
    MigratedOwesNothing(cfg, b, a.audit[n]);
  }

  /** Only the entry itself accounts for a row under its key. */
  lemma OwnRowOnly(cfg: Config, a: Database, m: nat, n: nat, key: Key, row: Row)
    requires Valid(a) && n < |a.audit| && Accounts(cfg, a, m, key, row)
    requires key.AuditKey? && key.entry == a.audit[n].id
    ensures m == n
  {
  }

  /** A migration neither makes a conflict nor resolves one. */
  lemma DetailConflictsPersist(cfg: Config, a: Database, b: Database, n: nat)
    requires FixedOn(cfg.p, a) && Valid(a) && AuditPartial(cfg, a, b) && n < |a.audit| <= |b.audit|
    ensures DetailConflicts(cfg, b, b.audit[n]) <==> DetailConflicts(cfg, a, a.audit[n])
  {
    hide FixedOn, Valid;
    StillOwed(cfg, a, b, n);
    if EntryOwed(cfg, a, a.audit[n]) {
      VaultedDetailAgrees(cfg, a, b, n);
    }
  }

  /** So an interrupted migration can be run again exactly when it could be run at first. */
  lemma PartialStaysConsistentDetails(cfg: Config, a: Database, b: Database)
    requires FixedOn(cfg.p, a) && Valid(a) && AuditPartial(cfg, a, b)
    ensures ConsistentDetails(cfg, b) <==> ConsistentDetails(cfg, a)
  {
    forall n | 0 <= n < |a.audit|
      ensures DetailConflicts(cfg, b, b.audit[n]) <==> DetailConflicts(cfg, a, a.audit[n])
    {
      DetailConflictsPersist(cfg, a, b, n);
    }
  }

  lemma AuditPartialStaysFixed(cfg: Config, a: Database, b: Database)
    requires FixedOn(cfg.p, a) && AuditPartial(cfg, a, b)
    ensures FixedOn(cfg.p, b)
  {
    forall n | 0 <= n < |b.audit| && b.audit[n].instance.Some?
      ensures FixedDetail(cfg.p, b.audit[n].action, b.audit[n].detail)
    {
      assert b.audit[n] == a.audit[n] || b.audit[n] == MigratedEntry(cfg, a.audit[n]);
      assert FixedDetail(cfg.p, a.audit[n].action, a.audit[n].detail);
    }
  }

  /** What the vault holds for an owed entry in the course of a run is its raw, or what it held at the start. */
  lemma VaultedDetailAgrees(cfg: Config, a: Database, b: Database, n: nat)
    requires Valid(a) && AuditPartial(cfg, a, b)
    requires n < |a.audit| && EntryOwed(cfg, a, a.audit[n])
    ensures OwnIdentity(a, a.audit[n]).Address() in b.vault ==>
      (DetailSettled(cfg, a, b, a.audit[n]) <==> !DetailConflicts(cfg, a, a.audit[n]))
    ensures DetailConflicts(cfg, a, a.audit[n]) ==> !EntryMigrated(cfg, a, b, n)
  {
    var key := OwnIdentity(a, a.audit[n]).Address();
    if key in b.vault && key !in a.vault {
      var m: nat :| Accounts(cfg, a, m, key, b.vault[key]);
      OwnRowOnly(cfg, a, m, n, key, b.vault[key]);
    }
  }

  lemma EntryTransitive(cfg: Config, a: Database, b: Database, c: Database, n: nat)
    requires FixedOn(cfg.p, a) && AuditPartial(cfg, a, b) && AuditPartial(cfg, b, c) && n < |a.audit|
    ensures c.audit[n] == a.audit[n] || EntryMigrated(cfg, a, c, n)
    ensures AuditComplete(cfg, b, c) && EntryOwed(cfg, a, a.audit[n]) ==> EntryMigrated(cfg, a, c, n)
  {
    StillOwed(cfg, a, b, n);
    MigratedOwesNothing(cfg, b, a.audit[n]);
    assert b.audit[n] == a.audit[n] || EntryMigrated(cfg, a, b, n);
    assert c.audit[n] == b.audit[n] || EntryMigrated(cfg, b, c, n);
  }

  lemma RowTransitive(cfg: Config, a: Database, b: Database, c: Database, key: Key)
    requires FixedOn(cfg.p, a) && AuditPartial(cfg, a, b) && AuditPartial(cfg, b, c) && key in c.vault
    requires key !in a.vault
    ensures exists n: nat :: Accounts(cfg, a, n, key, c.vault[key])
  {
    if key !in b.vault {
      var n: nat :| Accounts(cfg, b, n, key, c.vault[key]);
      assert n < |a.audit|;
      StillOwed(cfg, a, b, n);
      assert Accounts(cfg, a, n, key, c.vault[key]);
    }
  }

  lemma AppendedTransitive(cfg: Config, a: Database, b: Database, c: Database)
    requires AuditPartial(cfg, a, b) && AuditPartial(cfg, b, c)
    ensures forall n :: |a.audit| <= n < |c.audit| ==> c.audit[n].instance.None?
  {
  }

  /** Interrupted and resumed migrations compose, and the last one completes them all. */
  lemma AuditPartialTransitive(cfg: Config, a: Database, b: Database, c: Database)
    requires FixedOn(cfg.p, a) && AuditPartial(cfg, a, b) && AuditPartial(cfg, b, c)
    ensures AuditPartial(cfg, a, c)
    ensures AuditComplete(cfg, b, c) ==> AuditComplete(cfg, a, c)
  {
    hide EntryMigrated, EntryOwed, Accounts, FixedOn;
    AppendedTransitive(cfg, a, b, c);
    forall n | 0 <= n < |a.audit|
      ensures c.audit[n] == a.audit[n] || EntryMigrated(cfg, a, c, n)
      ensures AuditComplete(cfg, b, c) && EntryOwed(cfg, a, a.audit[n]) ==> EntryMigrated(cfg, a, c, n)
    {
      EntryTransitive(cfg, a, b, c, n);
    }
    forall key | key in c.vault && key !in a.vault ensures exists n: nat :: Accounts(cfg, a, n, key, c.vault[key]) {
      RowTransitive(cfg, a, b, c, key);
    }
  }

  lemma EntryKeepsItsKey(cfg: Config, a: Database, b: Database, n: nat)
    requires AuditPartial(cfg, a, b) && n < |a.audit|
    ensures n < |b.audit| && b.instances == a.instances
    ensures b.audit[n].id == a.audit[n].id && b.audit[n].instance == a.audit[n].instance
    ensures b.audit[n] != a.audit[n] ==> EntryMigrated(cfg, a, b, n)
    ensures forall key :: key in a.vault ==> key in b.vault && b.vault[key] == a.vault[key]
    ensures forall key :: key in b.vault && key !in a.vault ==> exists m: nat :: Accounts(cfg, a, m, key, b.vault[key])
  {
  }

  /** Wherever a migration stops, every detail is still what it was, or the vault row under the own identity of its
      entry opens to it. */
  lemma NoDetailIsLost(cfg: Config, a: Database, b: Database, n: nat)
    requires Valid(a) && WellRecorded(cfg, a.vault) && AuditPartial(cfg, a, b)
    requires n < |a.audit|
    ensures n < |b.audit|
    ensures var e := a.audit[n];
      || b.audit[n] == e
      || (e.instance.Some? && e.instance.value in a.instances &&
          (Opens(cfg, b, OwnIdentity(a, e), Obj(e.detail)) <==> Readable(cfg.cipher, Obj(e.detail))))
  {
    hide AuditPartial, Valid, Readable;
    var e := a.audit[n];
    EntryKeepsItsKey(cfg, a, b, n);
    if b.audit[n] != e {
      var id := OwnIdentity(a, e);
      RowIsRecorded(cfg, a, b, id.Address());
      SameWriteReadsBack(cfg.cipher, b.vault[id.Address()], cfg.p.version, id, Obj(e.detail));
    }
  }

  lemma RowIsRecorded(cfg: Config, a: Database, b: Database, key: Key)
    requires WellRecorded(cfg, a.vault) && AuditPartial(cfg, a, b) && key in b.vault
    ensures AsRecorded(cfg.cipher, b.vault[key])
  {
    if key !in a.vault {
      var m: nat :| Accounts(cfg, a, m, key, b.vault[key]);
    }
  }

  /** The candidates among the first `n` entries of one instance, then over a list of instances. */
  function CandidatesOf(cfg: Config, db: Database, i: string, n: nat): seq<nat>
    requires n <= |db.audit|
  {
    if n == 0 then []
    else
      var e := db.audit[n - 1];
      CandidatesOf(cfg, db, i, n - 1) + (if e.instance == Some(i) && DetailHasRaw(cfg, e) then [n - 1] else [])
  }

  function Candidates(cfg: Config, db: Database, ids: seq<string>, n: nat): seq<nat>
    requires n <= |ids| && forall m :: 0 <= m < n ==> ids[m] in db.instances
  {
    if n == 0 then []
    else
      Candidates(cfg, db, ids, n - 1)
      + (if db.instances[ids[n - 1]].org != "" then CandidatesOf(cfg, db, ids[n - 1], |db.audit|) else [])
  }

  /** The raw entries that cannot be vaulted: their instance names no organisation. */
  function Orphans(cfg: Config, db: Database, ids: seq<string>, n: nat): nat
    requires n <= |ids|
  {
    if n == 0 then 0
    else
      var i := ids[n - 1];
      Orphans(cfg, db, ids, n - 1)
      + (if i in db.instances && db.instances[i].org == "" then |CandidatesOf(cfg, db, i, |db.audit|)| else 0)
  }

  lemma {:induction false} CandidatesOfAreRaw(cfg: Config, db: Database, i: string, n: nat)
    requires n <= |db.audit|
    ensures forall e: nat :: e in CandidatesOf(cfg, db, i, n) <==>
      e < n && db.audit[e].instance == Some(i) && DetailHasRaw(cfg, db.audit[e])
    ensures Increasing(CandidatesOf(cfg, db, i, n))
  {
    if n > 0 {
      CandidatesOfAreRaw(cfg, db, i, n - 1);
      var before := CandidatesOf(cfg, db, i, n - 1);
      assert forall m :: 0 <= m < |before| ==> before[m] in before;
    }
  }

  predicate Increasing(s: seq<nat>) {
    forall i, j :: 0 <= i < j < |s| ==> s[i] < s[j]
  }

  predicate NoRepeats(s: seq<nat>) {
    forall i, j :: 0 <= i < j < |s| ==> s[i] != s[j]
  }

  /** Entry `e` belongs to one of the first `n` listed instances. */
  predicate Listed(db: Database, ids: seq<string>, n: nat, e: nat)
    requires n <= |ids| && e < |db.audit|
  {
    db.audit[e].instance.Some? && db.audit[e].instance.value in ids[..n]
  }

  /** The candidates are exactly the owed entries of the listed instances, each once. */
  lemma {:induction false} CandidatesAreTheOwed(cfg: Config, db: Database, ids: seq<string>, n: nat)
    requires n <= |ids| && Distinct(ids) && forall m :: 0 <= m < n ==> ids[m] in db.instances
    ensures forall e: nat :: e in Candidates(cfg, db, ids, n) <==>
      e < |db.audit| && EntryOwed(cfg, db, db.audit[e]) && Listed(db, ids, n, e)
    ensures NoRepeats(Candidates(cfg, db, ids, n))
  {
    if n > 0 {
      CandidatesAreTheOwed(cfg, db, ids, n - 1);
      var i := ids[n - 1];
      CandidatesOfAreRaw(cfg, db, i, |db.audit|);
      assert ids[..n] == ids[..n - 1] + [i];
      assert i !in ids[..n - 1];
      var before := Candidates(cfg, db, ids, n - 1);
      assert forall e: nat :: e in before ==> e !in CandidatesOf(cfg, db, i, |db.audit|);
      NoRepeatsTogether(before, if db.instances[i].org != "" then CandidatesOf(cfg, db, i, |db.audit|) else []);
    }
  }

  /** The raw entries of the listed instances that name no organisation. */
  function Unvaultable(cfg: Config, db: Database, ids: seq<string>, n: nat): set<nat>
    requires n <= |ids|
  {
    set e: nat | e < |db.audit| && DetailHasRaw(cfg, db.audit[e]) && Listed(db, ids, n, e)
      && db.audit[e].instance.value in db.instances && db.instances[db.audit[e].instance.value].org == ""
  }

  /** The count of entries skipped for want of an organisation is the number of those entries. */
  lemma {:induction false} OrphansCount(cfg: Config, db: Database, ids: seq<string>, n: nat)
    requires n <= |ids| && Distinct(ids)
    ensures Orphans(cfg, db, ids, n) == |Unvaultable(cfg, db, ids, n)|
  {
    if n == 0 {
      assert Unvaultable(cfg, db, ids, 0) == {};
    } else {
      hide DetailHasRaw, Unvaultable;
      OrphansCount(cfg, db, ids, n - 1);
      var i := ids[n - 1];
      var raw := CandidatesOf(cfg, db, i, |db.audit|);
      CandidatesOfAreRaw(cfg, db, i, |db.audit|);
      IncreasingHasNoRepeats(raw);
      var more := UnvaultableOf(cfg, db, i);
      var before := Unvaultable(cfg, db, ids, n - 1);
      OneMoreInstance(cfg, db, ids, n);
      assert |before + more| == |before| + |more|;
      if i in db.instances && db.instances[i].org == "" {
        assert more == Elements(raw);
      } else {
        assert more == {};
      }
    }
  }

  function UnvaultableOf(cfg: Config, db: Database, i: string): set<nat> {
    set e: nat | e < |db.audit| && DetailHasRaw(cfg, db.audit[e]) && db.audit[e].instance == Some(i)
      && i in db.instances && db.instances[i].org == ""
  }

  lemma OneMoreInstance(cfg: Config, db: Database, ids: seq<string>, n: nat)
    requires 0 < n <= |ids| && Distinct(ids)
    ensures Unvaultable(cfg, db, ids, n) == Unvaultable(cfg, db, ids, n - 1) + UnvaultableOf(cfg, db, ids[n - 1])
    ensures Unvaultable(cfg, db, ids, n - 1) !! UnvaultableOf(cfg, db, ids[n - 1])
  {
    hide DetailHasRaw;
    assert ids[..n] == ids[..n - 1] + [ids[n - 1]] && ids[n - 1] !in ids[..n - 1];
  }

  function Elements(s: seq<nat>): set<nat> {
    set e | e in s
  }

  lemma {:induction false} IncreasingHasNoRepeats(s: seq<nat>)
    requires Increasing(s)
    ensures |Elements(s)| == |s|
  {
    hide Increasing;
    if s != [] {
      var init, last := s[..|s| - 1], s[|s| - 1];
      LastIsNew(s);
      IncreasingHasNoRepeats(init);
      assert s == init + [last];
      assert Elements(s) == Elements(init) + {last};
    }
  }

  lemma LastIsNew(s: seq<nat>)
    requires Increasing(s) && s != []
    ensures s[|s| - 1] !in s[..|s| - 1] && Increasing(s[..|s| - 1])
  {
  }

  lemma NoRepeatsTogether(x: seq<nat>, y: seq<nat>)
    requires NoRepeats(x) && NoRepeats(y) && forall e :: e in x ==> e !in y
    ensures NoRepeats(x + y)
  {
    forall i, j | 0 <= i < j < |x + y| ensures (x + y)[i] != (x + y)[j] {
      if i < |x| <= j {
        assert x[i] in x && y[j - |x|] in y;
      }
    }
  }

  lemma NoMembersIsEmpty(s: seq<nat>)
    ensures (forall e: nat :: e !in s) ==> s == []
  {
    if s != [] {
      assert s[0] in s;
    }
  }

  /** A finished migration leaves no candidate for a second pass. */
  lemma AuditCompleteLeavesNone(cfg: Config, a: Database, b: Database)
    requires FixedOn(cfg.p, a) && Valid(b) && AuditComplete(cfg, a, b)
    ensures forall n :: 0 <= n < |b.audit| ==> !EntryOwed(cfg, b, b.audit[n])
    ensures Candidates(cfg, b, b.order, |b.order|) == []
  {
    forall n | 0 <= n < |b.audit| ensures !EntryOwed(cfg, b, b.audit[n]) {
      if n < |a.audit| {
        StillOwed(cfg, a, b, n);
        MigratedOwesNothing(cfg, b, a.audit[n]);
      }
    }
    CandidatesAreTheOwed(cfg, b, b.order, |b.order|);
    NoMembersIsEmpty(Candidates(cfg, b, b.order, |b.order|));
  }
}

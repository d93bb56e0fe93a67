/** The entries the audit migration appends about itself, under the rules of their action. */
module Ledger {
  import opened Json
  import opened Validators
  import opened Projection
  import opened Schemas
  import opened AuditProjection
  import opened Policy
  import opened AuditMigration
  import BackfillSpec
  import AuditMigrationSpec
  import Vault
  import Store
  import ZeroRaw

  const MIGRATED_ACTION := "audit_detail_migrated"

  const LEDGER_RULES: Rules := map[
    "rows" := FieldRule(Engine, Listing(TOKEN), true),
    "row_count" := FieldRule(Engine, COUNT, true),
    "batch" := FieldRule(Engine, COUNT, true),
    "projector_version" := FieldRule(Engine, TOKEN, true),
    "pre_image_digest" := FieldRule(Engine, TOKEN, true)]

  ghost predicate LedgerPolicy(cfg: BackfillSpec.Config, policy: AuditPolicy) {
    && policy.flat.Container? && cfg.p == TraceProjector(policy)
    && MIGRATED_ACTION in policy.registry && policy.registry[MIGRATED_ACTION] == LEDGER_RULES
  }

  /** A string the projection lets through at a token position. */
  predicate Plain(s: string) {
    TokenText(s) || s == REDACTED_FIELD
  }

  const MAX_COUNT: nat := 1_000_000_000_000

  /** What a ledger entry names can be shown to a reader without a grant. */
  predicate PlainBatch(ids: seq<string>, k: nat, digest: string) {
    (forall i :: 0 <= i < |ids| ==> Plain(ids[i])) && |ids| <= MAX_COUNT && k <= MAX_COUNT && Plain(digest)
  }

  lemma TokenIsKeptIff(s: string)
    ensures Project(TOKEN, Str(s), map[]) == Str(s) <==> Plain(s)
  {
  }

  lemma CountIsKeptIff(n: nat)
    ensures Project(COUNT, Int(n), map[]) == Int(n) <==> n <= MAX_COUNT
  {
  }

  lemma TokensAreKeptIff(ids: seq<string>)
    ensures var rows := Arr(seq(|ids|, i requires 0 <= i < |ids| => Str(ids[i])));
      Project(Listing(TOKEN), rows, map[]) == rows <==> forall i :: 0 <= i < |ids| ==> Plain(ids[i])
  {
    hide Plain, TOKEN;
    var rows := Arr(seq(|ids|, i requires 0 <= i < |ids| => Str(ids[i])));
    var out := Project(Listing(TOKEN), rows, map[]);
    forall i | 0 <= i < |ids| ensures out.items[i] == rows.items[i] <==> Plain(ids[i]) {
      TokenIsKeptIff(ids[i]);
    }
    if forall i :: 0 <= i < |ids| ==> Plain(ids[i]) {
      assert out.items == rows.items;
    }
  }

  lemma VersionIsPlain()
    ensures Plain(PROJECTOR_VERSION)
  {
    assert Body(PROJECTOR_VERSION) == "23";
  }

  /** A detail all of whose fields are disclosed is kept exactly when each field is. */
  lemma DisclosedIsKeptIff(detail: map<string, Json>, rules: Rules)
    requires forall k :: k in detail ==> Disclosed(rules, k)
    ensures ProjectByRules(detail, rules) == detail <==>
      forall k :: k in detail ==> k in rules && Project(rules[k].node, detail[k], map[]) == detail[k]
  {
    var out := ProjectByRules(detail, rules);
    assert forall k :: k in out <==> k in detail;
    if forall k :: k in detail ==> Project(rules[k].node, detail[k], map[]) == detail[k] {
      assert out == detail;
    }
  }

  lemma NamesDiffer()
    ensures var names := ["rows", "row_count", "batch", "projector_version", "pre_image_digest"];
      forall i, j :: 0 <= i < j < 5 ==> names[i] != names[j]
  {
    assert |"rows"| == 4 && |"row_count"| == 9 && |"batch"| == 5;
    assert |"projector_version"| == 17 && |"pre_image_digest"| == 16;
  }

  /** The evidence of the migration survives projection exactly when it names plain ids and a plain digest, within
      the bounds of a count. */
  lemma LedgerIsLosslessIff(
    cfg: BackfillSpec.Config, policy: AuditPolicy, outside: Outside, k: nat, ids: seq<string>,
    pairs: seq<(string, Vault.Record)>)
    requires LedgerPolicy(cfg, policy)
    ensures AuditMigrationSpec.DetailHasRaw(cfg, LedgerEntry(cfg, outside, k, ids, pairs)) <==>
      !PlainBatch(ids, k, outside.digest(pairs))
  {
    hide Project, Plain, SafeTriggerPayload, Context, StepOutput, Disclosed, ProjectByRules;
    var entry := LedgerEntry(cfg, outside, k, ids, pairs);
    var detail := entry.detail;
    LedgerDetailReads(cfg, outside, k, ids, pairs);
    DisclosedIsKeptIff(detail, LEDGER_RULES);
    assert |MIGRATED_ACTION| != |TOOL_CALL|;
    assert cfg.p.detail(entry.action, detail) == ProjectByRules(detail, LEDGER_RULES);
    TokensAreKeptIff(ids);
    CountIsKeptIff(|ids|);
    CountIsKeptIff(k);
    VersionIsPlain();
    TokenIsKeptIff(PROJECTOR_VERSION);
    TokenIsKeptIff(outside.digest(pairs));
  }

  lemma LedgerDetailReads(
    cfg: BackfillSpec.Config, outside: Outside, k: nat, ids: seq<string>, pairs: seq<(string, Vault.Record)>)
    ensures var detail := LedgerEntry(cfg, outside, k, ids, pairs).detail;
      && detail.Keys == LEDGER_RULES.Keys == {"rows", "row_count", "batch", "projector_version", "pre_image_digest"}
      && (forall key :: key in detail ==> Disclosed(LEDGER_RULES, key))
      && detail["rows"] == Arr(seq(|ids|, i requires 0 <= i < |ids| => Str(ids[i])))
      && detail["row_count"] == Int(|ids|) && detail["batch"] == Int(k)
      && detail["projector_version"] == Str(cfg.p.version)
      && detail["pre_image_digest"] == Str(outside.digest(pairs))
    ensures LEDGER_RULES["rows"].node == Listing(TOKEN)
    ensures LEDGER_RULES["row_count"].node == LEDGER_RULES["batch"].node == COUNT
    ensures LEDGER_RULES["projector_version"].node == LEDGER_RULES["pre_image_digest"].node == TOKEN
  {
    NamesDiffer();
  }

  /** The ledger tells exactly what a batch did: the ids of its rows in order, how many they are, which batch of the run
      it was, the version applied, and a digest over the ids and the details the rows had before. */
  lemma LedgerTellsTheBatch(
    cfg: BackfillSpec.Config, outside: Outside, a: Store.Database, batch: seq<nat>, k: nat)
    requires forall m :: 0 <= m < |batch| ==> batch[m] < |a.audit|
    ensures var entry := LedgerOf(cfg, outside, a, batch, k);
      var before := seq(|batch|, m requires 0 <= m < |batch| => (a.audit[batch[m]].id, a.audit[batch[m]].detail));
      && entry.id == outside.mint(k) && entry.action == MIGRATED_ACTION
      && entry.instance.None? && entry.step.None? && entry.version.None?
      && Get(entry.detail, "rows").Arr? && |Get(entry.detail, "rows").items| == |batch|
      && (forall m :: 0 <= m < |batch| ==> Get(entry.detail, "rows").items[m] == Str(a.audit[batch[m]].id))
      && Get(entry.detail, "row_count") == Int(|batch|) && Get(entry.detail, "batch") == Int(k)
      && Get(entry.detail, "projector_version") == Str(cfg.p.version)
      && Get(entry.detail, "pre_image_digest") == Str(outside.digest(before))
  {
    LedgerDetailReads(cfg, outside, k, IdsOf(a, batch), PairsOf(a, batch));
    assert PairsOf(a, batch) ==
      seq(|batch|, m requires 0 <= m < |batch| => (a.audit[batch[m]].id, a.audit[batch[m]].detail));
  }

  /** The entry of batch `j` of a run holds nothing that projection would take. */
  ghost predicate BatchIsPlain(outside: Outside, b: Store.Database, candidates: seq<nat>, size: nat, j: nat)
    requires j > 0 && forall m :: 0 <= m < |candidates| ==> candidates[m] < |b.audit|
  {
    var batch := BatchOf(candidates, j, size);
    PlainBatch(IdsOf(b, batch), j, outside.digest(PairsOf(b, batch)))
  }

  lemma AppendedAreLedger(
    cfg: BackfillSpec.Config, policy: AuditPolicy, outside: Outside, b: Store.Database, c: Store.Database,
    candidates: seq<nat>, size: nat, k: nat, n: nat)
    requires LedgerPolicy(cfg, policy) && AllOwed(cfg, b, candidates)
    requires LedgerSoFar(cfg, outside, b, c, candidates, size, k) && |b.audit| <= n < |c.audit|
    ensures AuditMigrationSpec.DetailHasRaw(cfg, c.audit[n]) <==>
      !BatchIsPlain(outside, b, candidates, size, n - |b.audit| + 1)
  {
    hide LedgerPolicy, PlainBatch, AuditMigrationSpec.DetailHasRaw, LedgerEntry;
    var j := n - |b.audit| + 1;
    var batch := BatchOf(candidates, j, size);
    assert c.audit[|b.audit| + j - 1] == LedgerOf(cfg, outside, b, batch, j);
    LedgerIsLosslessIff(cfg, policy, outside, j, IdsOf(b, batch), PairsOf(b, batch));
  }

  /** After a finished backfill and a finished run of the migration, the store is clean exactly when what they leave
      alone held no raw, and every ledger entry of the run is plain. */
  lemma CleanAfterARunIff(
    cfg: BackfillSpec.Config, policy: AuditPolicy, outside: Outside, a: Store.Database, b: Store.Database,
    c: Store.Database, candidates: seq<nat>, size: nat, k: nat)
    requires LedgerPolicy(cfg, policy) && FixedOn(cfg.p, a)
    requires BackfillSpec.Complete(cfg, a, b) && AuditMigrationSpec.AuditComplete(cfg, b, c)
    requires AllOwed(cfg, b, candidates) && LedgerSoFar(cfg, outside, b, c, candidates, size, k)
    ensures ZeroRaw.Clean(cfg, c) <==>
      && (forall f :: !ZeroRaw.LeftAlone(cfg, a, f))
      && forall j :: 1 <= j <= k ==> BatchIsPlain(outside, b, candidates, size, j)
  {
    hide LedgerPolicy, FixedOn, BatchIsPlain, ZeroRaw.Clean, ZeroRaw.LeftAlone, AuditMigrationSpec.DetailHasRaw;
    ZeroRaw.CleanIffNothingLeftAlone(cfg, a, b, c);
    AuditIsKept(cfg, a, b);
    forall n | |b.audit| <= n < |c.audit|
      ensures AuditMigrationSpec.DetailHasRaw(cfg, c.audit[n]) <==>
        !BatchIsPlain(outside, b, candidates, size, n - |b.audit| + 1)
    {
      AppendedAreLedger(cfg, policy, outside, b, c, candidates, size, k, n);
    }
    forall j | 1 <= j <= k
      ensures BatchIsPlain(outside, b, candidates, size, j) <==>
        !AuditMigrationSpec.DetailHasRaw(cfg, c.audit[|b.audit| + j - 1])
    {
    }
  }

  lemma AuditIsKept(cfg: BackfillSpec.Config, a: Store.Database, b: Store.Database)
    requires BackfillSpec.Complete(cfg, a, b)
    ensures b.audit == a.audit
  {
  }
}

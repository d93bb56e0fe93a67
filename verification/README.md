# Trace governance, step-id minting and three loops of the workflow platform, verified

This project models, in Dafny, the parts of the workflow platform where a mistake is hardest to see, and proves
what they promise for every input, run and failure.

- **Trace projection** (`validators`, `tool_call`, `projection`, `projection_theorems`, `detectors`, `schemas`,
  `audit_projection`, `projection_loops`). The default-deny projection of a record is defined twice: as the walk
  the code performs, with its dictionaries and flags, and as a safe language by induction on the schema. The two
  meet in "lands in the language", "unchanged exactly when in the language" and "loses nothing without a marker".
- **The vault protocol** (`vault`, `store`, `policy`, `vault_writer`, `backfill_spec`, `backfill`,
  `audit_migration_spec`, `audit_migration`, `audit_writer`, `audit_runs`, `rehydrate`, `zero_raw`, `ledger`,
  `raw_columns`). A store of instances, steps, audit log and vault takes writes under a schedule of faults: a write
  may succeed, be lost, or be applied with its acknowledgement lost. Backfill, audit migration, the audit writer and
  the rehydrator are classes and methods over that store. Their contracts say which stores any stopped run can leave;
  lemmas about those relations give crash safety, convergence, losslessness and the access protocol.
- **Step-id minting** (`numerals`, `paths`, `templates`, `conditions`, `scaffold`, `scaffold_theorems`,
  `scaffold_graph`, `scaffold_loops`). A capture-avoiding renaming of a workflow draft: references, conditions,
  templates, prose and the step graph keep their meaning; data stays as it is.
- **CSV input** (`csv`, `batch`), **the agent loop** (`agent`, `agent_theorems`) and **the run form** (`run_form`).

The theorems hold for any schema node, rule table, released vocabulary, function table, tool set and model. A
cipher is ideal: it opens only under the key and the associated data it sealed with. Keys are the strings before
hashing. `dafny verify dfyconfig.toml` checks everything.

## What the theorems assume

- One projector version is in force. Where runs are composed, it is a fixed point on the records of the store
  (`Policy.FixedOn`); `Policy.TraceProjectorFixedIffFits` proves this of the real one exactly while the tool-call
  contents in that store serialize to less than 10^13 bytes.
- Row ids are unique, and the id of a step row is not empty and neither `instance` nor `audit` (`Store.Valid`): ids are
  minted by the platform.
- Where a vaulted payload has to be read back from a plaintext vault, it is not shaped like a sealed envelope
  (`Vault.Readable`).
- Where raw has to open again, the vault holds rows as the vault writer records them under the cipher in force, or
  plaintext rows from before there were commitments (`BackfillSpec.WellRecorded`), and a commitment stands for its
  plaintext. A backfill or a migration may start on any vault.
- References of a draft are closed where a theorem says so; both directions are proved for references.
- The expression syntax reads back what minting prints (`Conditions.Lawful`); only rewritten trees of parsed
  conditions are concerned.

## Where the code and its own words differ

The model follows the code in each case; the lemmas named give the inputs and the exact conditions.

- The projector is called total. A tool call whose `result` is a non-empty list or string, a non-zero number or
  true, or whose `input` is such a number or true, makes it raise (`ProjectionTheorems.ProjectionIsNotTotal`), and
  so does an integer amount that does not fit a float (`Schemas.CostRaisesIffTooLarge`); nothing else does
  (`ProjectionLoops.ProjectValue`).
- No caller catches this: one such row stops a backfill, an audit migration or the verifier, and with it every row
  after it (`Backfill.BackfillAll`, `AuditMigration.MigrateAuditDetails`, `ZeroRaw.VerifyZeroRaw`).
- "Every loss is signalled": a null under `_withheld_key_count` disappears without a flag
  (`ProjectionTheorems.MarkerFreeIsUnchanged`).
- The projection is called a fixed point. It is one exactly while serialized tool-call contents stay below 10^13
  bytes; above that the bucket is dropped the second time (`ProjectionTheorems.IdempotentIffFits`).
- Tokens are said to hold no white space. A pattern ending in `$` also accepts one final newline, and no other
  white space (`Validators.TokenWhiteSpace`, `Validators.TokenMayEndInNewline`).
- The two redaction detectors differ on the error column of step rows, on two markers and only where nothing else
  is detected, and on contexts whose capabilities hold a string that starts like a marker
  (`Schemas.DetectorsDifferOnStepRowsIff`, `Schemas.DetectorsDifferOnContextsIff`).
- The at-rest log is called lossless. A `tool_call` entry with an empty detail is stamped although the vault skips
  empty payloads, so its rehydration fails (`AuditRuns.AppendedIsRecoverable`,
  `AuditRuns.OnlyEmptyToolCallsAreSkipped`).
- The vault key spaces are called separate. A step attempt with the id `audit` shares its key string with an audit
  entry, and one with the id `instance` or an empty one with the instance (`Vault.SpellingsCollideOnly`).
- The fingerprint is to fall back to the payload for rows without a commitment. It compares that payload with the
  commitment of the new write, so such a row is never the same write: a trigger, error or detail dual-written
  before commitments stops every backfill or migration that reaches it
  (`Vault.LegacyRowIsNeverTheSameWrite`, `BackfillSpec.LegacyRowsConflict`, `BackfillSpec.LegacyTriggerStopsEveryRun`).
- "Every access is completed": when re-projecting the opened payload raises, nothing catches it and the access
  record stays open, as it does when the acknowledgement of the attempt or the completion itself is lost
  (`Rehydration.AccessStaysOpenIff`).
- The verifier is to scan all columns. It starts from the instances, so it certifies a store with raw in entries
  without an instance (`ZeroRaw.ScannedIsCleanIff`, `ZeroRaw.UnseenRawIsCertified`). The migration says it counts such
  entries; its count is always zero (`AuditMigration.CollectCandidates`).
- Both migrations together leave raw alone: in stamped steps, steps of missing instances, and entries without an
  instance or an organisation (`ZeroRaw.CleanIffNothingLeftAlone`).
- "Projected rows must be stamped". A trigger of an unstamped instance with an empty context is projected and not
  stamped, so its rehydration answers that the version is unsupported (`ZeroRaw.BackfilledTriggerAgreesIffStamped`).
- Raw contexts are projected in place and vaulted nowhere (`BackfillSpec.ContextSurvivesIff`).
- The backfill repairs a row that was vaulted but never stamped by projecting what is inline; its rehydration then
  succeeds exactly when the vaulted raw has the same projection (`ZeroRaw.RepairedOutputAgreesIffSameProjection`).
- Vaulting before projecting is to lose nothing. That repair loses the inline output when the vaulted object is
  another one (`BackfillSpec.OutputSurvivesIff`, `BackfillSpec.RepairCanLose`).
- With batch size zero a dry run announces one batch fewer than the empty ones a real run makes
  (`AuditMigration.DryRunCountsBatches`).
- Minting preserves a reference exactly when it names one step and does not dangle onto a minted name; the bare
  path `steps`, which reads the step ids themselves, is not preserved (`Paths.PathPreservedIffSafe`).
- A `config` that is a non-empty list, string or number can make minting fail with an error of Python instead of
  its own (`ScaffoldGraph.ConfigIsRefusedIff`, `ScaffoldGraph.ConfigCanBeRefused`).
- An edge to a dangling `step_2` is joined to the step that receives that name, which can close a cycle
  (`ScaffoldGraph.MintedGraphIsIsomorphic`, `ScaffoldGraph.CaptureCanCloseACycle`).
- Renaming in prose is to change only the names. An old id whose first angle bracket is an opening one keeps a
  bracket before it from opening a reference; its new name does not (`Templates.ScanSurvivesIff`).
- Removal along an absent path of the run form is not always a no-op: it can lengthen an array or make an object of
  it (`RunForm.RemovalChangesNothingIff`, `RunForm.AbsentRemovalLengthens`,
  `RunForm.RemovalBelowNameMakesAnObject`).

## Model

| member | source | states |
|---|---|---|
| `ToolCall.SizeBucketing` | backend/src/workflow_platform/trace_projection.py:281-291 | the recorded size is within a factor ten below the real one, is its own bucket, and is still an acceptable count exactly while the size is below 10^13 |
| `ToolCall.BucketsAreFixed` | backend/src/workflow_platform/trace_projection.py:281-291 | the integers bucketing leaves alone and the count validator accepts are exactly zero and the powers of ten up to 10^12 |
| `ToolCall.CallLandsIffFits` | backend/src/workflow_platform/trace_projection.py:1283-1373 | a projected tool call is a record of the safe form exactly when its content was below the size limit |
| `ToolCall.CallFixedIffSafe` | backend/src/workflow_platform/trace_projection.py:1283-1373 | a tool call is returned unchanged exactly when it already is a record of the safe form |
| `ToolCall.RawCallRecord` | backend/src/workflow_platform/trace_projection.py:1321-1373 | the record of a raw call: failed exactly when its result carries an error, the arity of its input up to 32, a size exactly when there is content and within a factor ten below it, pin flags exactly when a pin is named, a name only from the catalog |
| `ToolCall.ProjectedCallRecord` | backend/src/workflow_platform/trace_projection.py:1311-1320 | a record projected before speaks for itself: flags by their truth, arity and size within their bounds |
| `ToolCall.MalformedIff` | backend/src/workflow_platform/trace_projection.py:1321-1340 | which raw calls raise: a result that is a non-empty list or string, a non-zero number or true, or an input that is such a number or true |
| `Validators.TokenIsNoMarker` | backend/src/workflow_platform/trace_projection.py:586-588 | no accepted token can be read as a redaction marker |
| `Validators.IdIsNoMarker` | backend/src/workflow_platform/trace_projection.py:582-583 | nor can an opaque id |
| `Validators.TokenWhiteSpace` | backend/src/workflow_platform/trace_projection.py:586-588 | a token holds white space exactly when it ends in the one newline that the `$` of its pattern lets by |
| `Validators.TokenMayEndInNewline` | backend/src/workflow_platform/trace_projection.py:586-588 | an accepted token that ends so |
| `Validators.NamePatterns` | backend/src/workflow_platform/trace_projection.py:569-588 | tokens and opaque ids are exactly the texts their patterns match: a character class, a length of 1 to 120 or 200, and the newline that `$` lets by |
| `Validators.TimestampPattern` | backend/src/workflow_platform/trace_projection.py:577-635 | timestamps likewise: date, separator, at most 26 characters of a time, at most 40 in all |
| `Validators.NumberPatterns` | backend/src/workflow_platform/trace_projection.py:615-629 | the bounds of counts, amounts and scores, for integers and floats |
| `Validators.ReleasedValues` | backend/src/workflow_platform/trace_projection.py:674-690 | a value of a released vocabulary is a declared word or a list of at most 32 of them |
| `ProjectionTheorems.LandsIffFits` | backend/src/workflow_platform/trace_projection.py:1136-1258 | for every schema node, value and released vocabulary: the projection lies in the inductively defined safe language of the node exactly when every tool-call content it visited was in bounds |
| `ProjectionTheorems.FixedIffSafe` | backend/src/workflow_platform/trace_projection.py:1136-1258 | a value is returned unchanged exactly when it is already in the safe language |
| `ProjectionTheorems.IdempotentIffFits` | backend/src/workflow_platform/trace_projection.py:1136-1258 | projecting twice is projecting once, exactly when the visited tool-call contents were in bounds |
| `ProjectionTheorems.ObjectKeepsExactly` | backend/src/workflow_platform/trace_projection.py:1161-1257 | which keys of an object stay: declared children that are not withheld, entries of a platform wildcard under a token, released values; each as the projection of what was there; the flag exactly when another key was |
| `ProjectionTheorems.ListKeepsItems` | backend/src/workflow_platform/trace_projection.py:1150-1160 | a projected list keeps length and order, each item the projection of its own |
| `ProjectionTheorems.CallsKeepTheirPlaces` | backend/src/workflow_platform/trace_projection.py:1144-1150 | each tool call becomes its own record in its place, and what is no record a marker |
| `ProjectionTheorems.TriggerFixedIffSafe` | backend/src/workflow_platform/trace_projection.py:1261-1280 | a trigger payload is returned unchanged exactly when it is the redaction marker with withheld routing ids and nothing else |
| `ProjectionTheorems.MarkerFreeIsUnchanged` | backend/src/workflow_platform/trace_projection.py:1161-1258 | nothing is withheld silently: a projection without a redaction marker equals its input, except exactly when a null under the legacy count key was dropped |
| `ProjectionTheorems.SafeNeverRaises` | backend/src/workflow_platform/trace_projection.py:1283-1373 | no value of the safe language makes the projection raise |
| `ProjectionTheorems.ProjectionIsNotTotal` | backend/src/workflow_platform/trace_projection.py:1283-1373 | a concrete tool call (its result a string) on which the projection raises |
| `ProjectionLoops.ProjectValue` | backend/src/workflow_platform/trace_projection.py:1136-1258 | the recursive walk with its `out` dictionaries and `withheld` flags raises exactly when a visited tool call is unreadable or a visited amount does not fit a float, and otherwise returns the specified projection, in whatever order keys are met |
| `ProjectionLoops.ProjectObject` | backend/src/workflow_platform/trace_projection.py:1161-1257 | the object loop, for every order of its keys |
| `ProjectionLoops.ProjectField` | backend/src/workflow_platform/trace_projection.py:1163-1245 | where one key goes: emitted, withheld, dropped, or raising |
| `ProjectionLoops.ProjectDetailByRules` | backend/src/workflow_platform/trace_projection.py:1971-1990 | the loop over an audit detail raises exactly when a disclosed field holds an unreadable call or amount, and otherwise returns the rule projection |
| `ProjectionLoops.NormalizeVocabulary` | backend/src/workflow_platform/trace_projection.py:692-712 | the loop over a declaration returns the acceptable part of its first eight entries |
| `ProjectionLoops.NormalizedIsTheAcceptablePart` | backend/src/workflow_platform/trace_projection.py:692-712 | an entry is released exactly when it is acceptable, and then with exactly its own tokens |
| `ProjectionLoops.NormalizedIsBounded` | backend/src/workflow_platform/trace_projection.py:661-712 | a normalized vocabulary has no more entries than were read, all of them declared |
| `ProjectionLoops.NormalizedReleasesTokens` | backend/src/workflow_platform/trace_projection.py:656-712 | whatever a normalized vocabulary releases is a short token under a safe, unreserved name |
| `ProjectionLoops.ReleasedIff` | backend/src/workflow_platform/trace_projection.py:651-712 | an entry of a declaration is released exactly when it is among the first eight, its name is a token and none of the five of the projector, and its list holds 1 to 32 distinct words; and then with exactly these words |
| `ProjectionLoops.RedactToolData` | backend/src/workflow_platform/trace_projection.py:2039-2061 | a raw reader gets the record itself; an unknown kind is refused; any other reader gets, unless it raises, exactly the projection under the acceptable part of the first eight declared entries, a record of the safe language under that vocabulary, and without a marker the record itself |
| `Detectors.DetectorsAgree` | backend/src/workflow_platform/trace_projection.py:1376-1396 | under any schema whose leaves admit no value they disagree on, the completeness detector and the rehydrator detector agree on every projection |
| `Detectors.ObjectsAreDetectedBy` | backend/src/workflow_platform/trace_projection.py:245-258 | what makes either detector answer for an object: the marker key, a true flag, a positive legacy count, or one of its values |
| `Detectors.DetectorsDifferIff` | backend/src/workflow_platform/trace_rehydrate.py:49-69 | on any JSON value, projected or not, the detectors differ exactly when one finds nothing and the value holds a string only the other takes for a marker |
| `Detectors.DetectorsDifferOnlyAt` | backend/src/workflow_platform/trace_projection.py:1376-1396 | where all children but one are agreeable, the detectors differ exactly when that child holds a marker only one of them knows and nothing else is detected |
| `Detectors.VocabularyComposes` | backend/src/workflow_platform/trace_projection.py:1222-1245 | projecting with a released vocabulary and then without one equals projecting without one at once, exactly when the visited tool-call contents are in bounds |
| `Detectors.VocabularyReleasesOnlyItsFields` | backend/src/workflow_platform/trace_projection.py:1222-1245 | projections with and without a vocabulary differ only at released fields of step outputs and at the flags those fields account for |
| `Schemas.DetectorsAgreeOnStepOutputs` | backend/src/workflow_platform/trace_rehydrate.py:49-69 | on every projected step output, and every snapshot of them, both detectors answer alike |
| `Schemas.DetectorsDisagreeOnMarkerFields` | backend/src/workflow_platform/trace_rehydrate.py:49-69 | at a marker position of another name than `_redacted` the two detectors differ on the trigger marker |
| `Schemas.StepRowErrorIsAMarkerField` | backend/src/workflow_platform/trace_projection.py:1109-1125 | the error column of a step row is such a position |
| `Schemas.DetectorsDifferOnStepRowsIff` | backend/src/workflow_platform/trace_rehydrate.py:49-69 | on a projected step row the detectors differ exactly when its error column holds the trigger or the tool marker and no other column is detected |
| `Schemas.DetectorsDifferOnContextsIff` | backend/src/workflow_platform/trace_rehydrate.py:49-69 | on a projected run context they differ exactly when it holds no marker and some string of its capabilities starts like one |
| `Schemas.ForgedCapabilityIsAccepted` | backend/src/workflow_platform/trace_projection.py:868-870 | the capability validator accepts such a string |
| `Schemas.CostRaisesIffTooLarge` | backend/src/workflow_platform/trace_projection.py:620-625 | a step output with an integer cost raises exactly when that integer does not fit a float, and there is one that does not |
| `Schemas.WithheldChildNeverSurvives` | backend/src/workflow_platform/trace_projection.py:1200-1212 | a child owned by the business and not released is absent from every projection of its container |
| `Schemas.WithheldChildNeverSurvivesNested` | backend/src/workflow_platform/trace_projection.py:885-913 | nor does it survive inside a snapshot of step outputs |
| `Schemas.ScoresAreWithheldChildren` | backend/src/workflow_platform/trace_projection.py:885-911 | the model-reported scores of a step output are such children |
| `Schemas.StepOutputShows` | backend/src/workflow_platform/trace_projection.py:885-911 | the twelve fields of a step output that are shown, and no other |
| `Schemas.StepOutputKinds` | backend/src/workflow_platform/trace_projection.py:885-911 | as what each field of a step output is read: token, count, flag, amount, usage, tool calls, marker or score |
| `Schemas.ContextShows` | backend/src/workflow_platform/trace_projection.py:1071-1087 | the ten parts of a run context, and as what each is shown |
| `Schemas.SnapshotShowsProjections` | backend/src/workflow_platform/trace_projection.py:912-913 | a snapshot shows each step output as its own projection or not at all |
| `AuditProjection.DetailLandsIffFits` | backend/src/workflow_platform/trace_projection.py:1971-2014 | on all three dispatch branches a projected audit detail is in the safe language of its action exactly when its tool-call contents were in bounds |
| `AuditProjection.DetailFixedIffSafe` | backend/src/workflow_platform/trace_projection.py:1971-2014 | on all three branches a detail is unchanged exactly when it is in that language |
| `AuditProjection.DetailIdempotentIffFits` | backend/src/workflow_platform/trace_projection.py:1993-2014 | audit projection is idempotent exactly when the contents were in bounds |
| `AuditProjection.MarkerFreeDetailIsUnchanged` | backend/src/workflow_platform/trace_projection.py:1971-2014 | a projected detail without a marker equals its input, except exactly for a dropped null legacy count |
| `AuditProjection.SafeDetailNeverRaises` | backend/src/workflow_platform/trace_projection.py:1971-2014 | no detail of the safe language of its action makes audit projection raise |
| `AuditProjection.RulesKeepExactly` | backend/src/workflow_platform/trace_projection.py:1971-1990 | which fields of a detail stay under the rules of its action: those with a disclosing rule, each projected under it; the flag exactly when there was another |
| `AuditProjection.DetailDispatch` | backend/src/workflow_platform/trace_projection.py:1993-2014 | which of the three projections a detail gets |
| `Policy.TraceProjectorFixedIffFits` | backend/src/workflow_platform/trace_projection.py:1127-1134 | on any store, the trigger, context, step-output and audit projections in force are fixed points on every record a run projects, exactly while the tool-call contents visited there stay below the size limit |
| `Policy.TraceProjectorNeverRaisesOnFixed` | backend/src/workflow_platform/trace_projection.py:1127-1134 | none of them raises on a record it leaves alone, of whatever size |
| `Policy.EmptyDetailsStayEmpty` | backend/src/workflow_platform/trace_projection.py:1993-2014 | the only action whose empty detail is not its own projection is a tool call |
| `Policy.TextResultsRaise` | backend/src/workflow_platform/trace_projection.py:1283-1340 | one call with a text for a result makes the projections of the step output, of the context that holds it and of the tool-call detail raise |
| `Vault.SpellingsCollideOnly` | backend/src/workflow_platform/trace_vault.py:66-89 | for NUL-free components, the strings behind the vault keys are equal exactly for equal components, for attempts of one kind that are absent, empty or called `instance`, and for an attempt called `audit` and the audit entry named after the kind |
| `Vault.KeysAreSpelled` | backend/src/workflow_platform/trace_vault.py:66-89 | the four parts of both key strings |
| `Vault.AssociatedDataBinds` | backend/src/workflow_platform/trace_cipher.py:63-95 | two identities have the same associated data exactly when they are the same |
| `Vault.RecordedReadsBack` | backend/src/workflow_platform/trace_rehydrate.py:175-245 | a recorded row reads back as its payload exactly when, in a plaintext vault, the payload is not shaped like an envelope |
| `Vault.SealedOpensIff` | backend/src/workflow_platform/trace_rehydrate.py:175-245 | under encryption a row yields a payload exactly when it is committed, names the identity asked for and holds that payload sealed for it; plaintext is refused |
| `Vault.ClearOpensIff` | backend/src/workflow_platform/trace_rehydrate.py:175-245 | without a key it yields the stored plaintext of a committed row with that identity, and an envelope never |
| `Vault.SameWriteReadsBack` | backend/src/workflow_platform/persistence/models.py:331-347 | a row that made a put idempotent, written by the vault writer, reads back as the payload of that put exactly when the payload is not shaped like an envelope |
| `Vault.LegacyRowIsNeverTheSameWrite` | backend/src/workflow_platform/persistence/models.py:331-347 | a plaintext row with the identity, version and payload of a put is the same write exactly when it carries the commitment; a row from before there were commitments never is |
| `Vault.RelabelledRowNeverOpens` | backend/src/workflow_platform/trace_rehydrate.py:175-245 | with encryption on, whatever the columns of a row say, it yields raw only for the identity its ciphertext was sealed under, and only what was sealed |
| `Vault.SubstitutionNeverOpens` | backend/src/workflow_platform/trace_rehydrate.py:175-245 | a row holding the ciphertext of another opens neither as itself nor as the other |
| `Store.FindEntryFinds` | backend/src/workflow_platform/persistence/memory.py:236-249 | a lookup by entry id finds the first such entry, and nothing exactly when there is none |
| `Store.ReplaceInReplaces` | backend/src/workflow_platform/persistence/memory.py:271-279 | replacing the detail of an id changes the first entry of that id and no other |
| `Store.Repositories.PutRow` | backend/src/workflow_platform/persistence/memory.py:432-447 | one idempotent vault write under a fault: refused with a conflict (the fingerprint takes the commitment, or the payload where a row has none), lost, applied with its acknowledgement lost, or applied; all other tables untouched |
| `Store.Repositories.LookUp` | backend/src/workflow_platform/persistence/memory.py:461-463 | a lookup changes no table and leaves its trace |
| `Store.Repositories.UpdateInstance` | backend/src/workflow_platform/trace_migration.py:148-185 | one instance row write under a fault |
| `Store.Repositories.UpdateStep` | backend/src/workflow_platform/trace_migration.py:237-239 | one step row write under a fault |
| `Store.Repositories.AppendEntry` | backend/src/workflow_platform/persistence/memory.py:236-249 | one idempotent log append under a fault |
| `Store.Repositories.ReplaceDetail` | backend/src/workflow_platform/persistence/memory.py:271-279 | one in-place rewrite of a log entry under a fault |
| `VaultWriter.RawTraceVault.Record` | backend/src/workflow_platform/trace_vault.py:103-169 | an empty payload writes nothing; a conflict is always reported; another failure is reported when the write must be durable |
| `VaultWriter.EmptyIffFalsy` | backend/src/workflow_platform/trace_vault.py:92-93 | nothing is skipped as empty but null and empty texts, lists and records |
| `BackfillSpec.PartialStaysConsistent` | backend/src/workflow_platform/trace_migration.py:141-240 | a backfill stopped between any two writes leaves a store that can be backfilled again exactly when it could be at first |
| `BackfillSpec.ConflictsPersist` | backend/src/workflow_platform/trace_migration.py:141-240 | key by key, a run neither makes a conflict with the vault nor resolves one |
| `BackfillSpec.PartialStaysFixed` | backend/src/workflow_platform/trace_migration.py:141-240 | nor does it leave a record on which the projector is no fixed point |
| `BackfillSpec.ConflictStopsEveryRun` | backend/src/workflow_platform/trace_migration.py:141-240 | a trigger or error in conflict keeps its row as it was, and its store unfinished, in every run |
| `BackfillSpec.LegacyRowsConflict` | backend/src/workflow_platform/persistence/models.py:331-347 | a vault row without a commitment is in conflict exactly when a trigger or error is still inline and raw under its key |
| `BackfillSpec.LegacyTriggerStopsEveryRun` | backend/src/workflow_platform/persistence/models.py:331-347 | a store whose trigger was dual-written before commitments: the row opens to the very trigger inline, and every backfill leaves the store as it was |
| `BackfillSpec.PartialTransitive` | backend/src/workflow_platform/trace_migration.py:141-240 | a run stopped anywhere and taken up again is a run of the original store |
| `BackfillSpec.OwedShrinks` | backend/src/workflow_platform/trace_migration.py:141-240 | what is still owed was owed before with the same row, and what is no longer owed is in the vault |
| `BackfillSpec.NoRawIsLost` | backend/src/workflow_platform/trace_migration.py:141-240 | wherever a run stops, legacy rows in the vault or not, every trigger and error that was inline is still inline, or the vault row under its own identity opens to it, exactly as far as the vault can give such a payload back |
| `BackfillSpec.OutputSurvivesIff` | backend/src/workflow_platform/trace_migration.py:194-226 | a step output that was inline is inline or its vault row opens to it, exactly while the run has not reached its row or that row was not one already vaulted with something else |
| `BackfillSpec.RepairCanLose` | backend/src/workflow_platform/trace_migration.py:204-211 | for every raw output and every other readable object under its key, a store whose finished backfill keeps the output nowhere |
| `BackfillSpec.ContextSurvivesIff` | backend/src/workflow_platform/trace_migration.py:157-164 | a finished backfill keeps a context exactly when it held no raw; the rows it adds to the vault are triggers, errors and outputs only |
| `BackfillSpec.FinishedStep` | backend/src/workflow_platform/trace_migration.py:187-239 | a step after a finished backfill: untouched if it was stamped; otherwise stamped, with its output projected, exactly when the output is not empty and the vault holds a row for it; a safe output without one stays unstamped; a raw error becomes the marker |
| `BackfillSpec.FinishedInstance` | backend/src/workflow_platform/trace_migration.py:148-185 | an instance after it: trigger and context projected, a raw error the marker, the stamp in force exactly when there is a context |
| `BackfillSpec.CompleteIsUnique` | backend/src/workflow_platform/trace_migration.py:141-240 | the finished store is determined by the original one, rows and vault alike |
| `BackfillSpec.ResumedRunCompletes` | backend/src/workflow_platform/trace_migration.py:141-240 | an interrupted run followed by one that finishes reaches the store of an uninterrupted run |
| `BackfillSpec.InterruptionsDoNotMatter` | backend/src/workflow_platform/trace_migration.py:394-400 | so do any number of interruptions, and every store on the way is that of a partial run of the first |
| `BackfillSpec.CompleteOwesNothing` | backend/src/workflow_platform/trace_migration.py:141-240 | a finished store owes no vault row, and finishing it again changes nothing |
| `Backfill.BackfillInstance` | backend/src/workflow_platform/trace_migration.py:141-240 | under any faults the store is that of a partial run and only the rows of the instance changed; on return the instance and its steps are final, and the result is the number of vault objects put, zero when nothing was owed; without faults it returns exactly when no context or output of the instance it projects raises and none of its triggers and errors is in conflict with the vault |
| `Backfill.BackfillSteps` | backend/src/workflow_platform/trace_migration.py:187-240 | the loop over the steps of an instance, step by step final, stopping at a failed write, an output whose projection raises or a conflict with the vault |
| `Backfill.MigrateOutput` | backend/src/workflow_platform/trace_migration.py:194-226 | an output whose projection raises stops the run; a vaulted row is repaired, a raw one vaulted before it is projected, a safe one left unstamped |
| `Backfill.BackfillAll` | backend/src/workflow_platform/trace_migration.py:394-400 | under any faults a partial run; a run that returns and listed every instance is complete; its result counts the vault objects it put, none when nothing was owed; without faults it returns exactly when no listed row it projects raises and none is in conflict with the vault |
| `AuditMigrationSpec.PartialStaysConsistentDetails` | backend/src/workflow_platform/trace_migration.py:277-391 | an interrupted audit migration can be run again exactly when it could be run at first |
| `AuditMigrationSpec.DetailConflictsPersist` | backend/src/workflow_platform/trace_migration.py:277-391 | entry by entry, a migration neither makes a conflict with the vault nor resolves one |
| `AuditMigrationSpec.AuditPartialTransitive` | backend/src/workflow_platform/trace_migration.py:277-391 | interrupted and resumed migrations compose |
| `AuditMigrationSpec.NoDetailIsLost` | backend/src/workflow_platform/trace_migration.py:309-391 | wherever a migration stops, every detail is what it was, or the vault row under its own identity opens to it, exactly as far as the vault can give such a payload back |
| `AuditMigrationSpec.CandidatesAreTheOwed` | backend/src/workflow_platform/trace_migration.py:309-328 | the candidates are exactly the raw entries of listed instances that name an organisation, each once |
| `AuditMigrationSpec.OrphansCount` | backend/src/workflow_platform/trace_migration.py:309-328 | the count skipped for want of an organisation is the number of raw entries of listed instances that name none |
| `AuditMigrationSpec.AuditCompleteLeavesNone` | backend/src/workflow_platform/trace_migration.py:309-328 | a second pass finds no candidate |
| `AuditMigration.CollectCandidates` | backend/src/workflow_platform/trace_migration.py:309-328 | the collecting loops raise exactly when a listed entry cannot be projected, and otherwise return those candidates, with the entry and organisation of each, count the raw entries whose instance names no organisation, and count no entry without an instance, ever |
| `AuditMigration.MigrateEntry` | backend/src/workflow_platform/trace_migration.py:345-364 | the raw of an entry is durably vaulted before its row is projected, each step keeps the run a partial migration, and without faults it stops exactly at a conflict |
| `AuditMigration.MigrateBatch` | backend/src/workflow_platform/trace_migration.py:339-364 | a batch vaults and projects each of its entries exactly once, in order |
| `AuditMigration.RunBatch` | backend/src/workflow_platform/trace_migration.py:340-391 | a batch followed by its ledger entry, which names exactly the rows of the batch |
| `AuditMigration.BatchesPartition` | backend/src/workflow_platform/trace_migration.py:340-391 | for a positive size the batches laid end to end are exactly the candidates in order |
| `AuditMigration.DryRunCountsBatches` | backend/src/workflow_platform/trace_migration.py:329-341 | the number of batches a dry run announces is the real one exactly when the size is positive |
| `AuditMigration.RunCompletes` | backend/src/workflow_platform/trace_migration.py:340-391 | once the batches cover the candidates, every owed entry is migrated |
| `AuditMigration.MigrateAuditDetails` | backend/src/workflow_platform/trace_migration.py:277-391 | it raises, before any write, exactly when a listed entry cannot be projected; a dry run counts and writes nothing; a real run keeps the store recoverable under any faults and, on return, its events, ledger and counts are those of the batches and no candidate is left; without faults it returns exactly when nothing raises and, for a positive batch size, no candidate is in conflict with the vault |
| `AuditWriting.AuditWriter.OrgFor` | backend/src/workflow_platform/audit_writer.py:91-110 | the owner the instance row names, or a failure, whatever the memo holds; the memo stays truthful and bounded |
| `AuditWriting.AuditWriter.AppendEntry` | backend/src/workflow_platform/audit_writer.py:112-192 | the whole effect of one append on log, vault, faults and trace, failures included |
| `AuditWriting.StoredEntryCarriesTheRequest` | backend/src/workflow_platform/audit_writer.py:144-190 | a call adds at most one entry, which carries actor, action, instance, step and id of the request, its detail or the projection, and a stamp exactly when projection took something; before the flip nothing is vaulted |
| `AuditRuns.OnlyEmptyToolCallsAreSkipped` | backend/src/workflow_platform/trace_vault.py:103-116 | the entries that are stamped although the vault skips their raw are exactly tool calls with an empty detail |
| `AuditRuns.AppendedIsRecoverable` | backend/src/workflow_platform/audit_writer.py:144-190 | a successful append can be recovered (unstamped and equal to its raw, or stamped with an own vault row that re-projects to it) exactly when the vault did not skip it |
| `AuditRuns.InstanceLessRawWritesNothing` | backend/src/workflow_platform/audit_writer.py:163-172 | an entry without an instance that would lose something is refused with the store untouched |
| `AuditRuns.RetryIsOneWrite` | backend/src/workflow_platform/audit_writer.py:112-192 | after any failure, driving the same entry again gives exactly the log and vault one undisturbed call gives |
| `AuditRuns.CallIsLossless` | backend/src/workflow_platform/audit_writer.py:112-192 | a call adds at most its own entry, recoverable, and changes nothing already recorded |
| `AuditRuns.RunIsLossless` | backend/src/workflow_platform/audit_writer.py:112-192 | over every run of appends, failures and retries, each entry the run stored is recoverable for a request of the run |
| `AuditRuns.StampedEntryOpens` | backend/src/workflow_platform/trace_rehydrate.py:414-501 | the vault row of a stamped entry opens, under the own identity of the entry, to its raw detail |
| `Rehydration.RawTraceRehydrator.Begin` | backend/src/workflow_platform/trace_rehydrate.py:247-278 | the attempt is on record, or access is denied |
| `Rehydration.RawTraceRehydrator.Complete` | backend/src/workflow_platform/trace_rehydrate.py:338-348 | one completion with the same request id, its own failure swallowed |
| `Rehydration.RawTraceRehydrator.FetchAndOpen` | backend/src/workflow_platform/trace_rehydrate.py:280-336 | a lookup or an opening that fails is completed before it is reported |
| `Rehydration.RawTraceRehydrator.AuditedRead` | backend/src/workflow_platform/trace_rehydrate.py:350-581 | every access follows the protocol, and its recorded outcome and its result say what was read |
| `Rehydration.RawTraceRehydrator.Verify` | backend/src/workflow_platform/trace_rehydrate.py:393-412 | the verdict on what was read is honest |
| `Rehydration.RawTraceRehydrator.RehydrateStamped` | backend/src/workflow_platform/trace_rehydrate.py:350-501 | without a stamp the stored form and no access at all; with one, an access under the protocol |
| `Rehydration.RawTraceRehydrator.RehydrateTrigger` | backend/src/workflow_platform/trace_rehydrate.py:503-581 | always an access under the protocol |
| `Rehydration.LookupOnlyOnRecord` | backend/src/workflow_platform/trace_rehydrate.py:247-303 | in the trace of the store: no lookup unless the attempt is on record, then exactly the one asked for |
| `Rehydration.SucceededMeansAgreed` | backend/src/workflow_platform/trace_rehydrate.py:80-158 | `succeeded` for a payload from the vault means it re-projects, under the recorded version, to the stored safe form |
| `Rehydration.ReadingTells` | backend/src/workflow_platform/trace_rehydrate.py:280-336 | what an access reads: a failed lookup or opening is never taken for a missing row |
| `Rehydration.OutcomeTellsTheReading` | backend/src/workflow_platform/trace_rehydrate.py:350-581 | every completed access fails closed, and each of the four outcomes is recorded exactly in its cases |
| `Rehydration.OnlyRecordsAgree` | backend/src/workflow_platform/trace_rehydrate.py:80-125 | a vaulted output or detail that is no record never agrees |
| `Rehydration.OtherTriggersProject` | backend/src/workflow_platform/trace_rehydrate.py:127-158 | a vaulted trigger that is a text or a list is projected as the routing keys found in it; any other shape raises |
| `Rehydration.AccessRecordsTell` | backend/src/workflow_platform/trace_rehydrate.py:247-348 | attempt and completion carry one request id; the attempt says for what, whose and which kind, the completion how it went |
| `Rehydration.UncaughtIffReprojectionRaises` | backend/src/workflow_platform/trace_rehydrate.py:503-581 | an exception escapes an access exactly when re-projecting what was read raises: a trigger no key can be looked up in, or a record with a tool call or amount the projector cannot read |
| `Rehydration.CallIsLogged` | backend/src/workflow_platform/audit_writer.py:112-192 | a call with a fresh entry id leaves its entry in the log exactly when it got as far as the append and that was not lost, reports success exactly when nothing went wrong, and logs nothing else |
| `Rehydration.AccessStaysOpenIff` | backend/src/workflow_platform/trace_rehydrate.py:247-348 | after an access the log holds the attempt and no completion exactly when the attempt was appended without its acknowledgement, or the re-projection raised, or the completion was refused or lost |
| `ZeroRaw.VerifyZeroRaw` | backend/src/workflow_platform/trace_migration.py:107-129 | the verifier fails exactly when a scanned column makes the projection raise; otherwise every finding is raw, below the limit no raw column of an instance is missed, and the report certifies exactly the stores below the limit that are clean where the scan reaches; such a store is clean exactly when no entry without an existing instance and no step of a missing one holds raw |
| `ZeroRaw.ScannedIsCleanIff` | backend/src/workflow_platform/trace_migration.py:107-129 | a store is clean exactly when it is where the scan reaches and where it does not |
| `ZeroRaw.UnseenRawIsCertified` | backend/src/workflow_platform/trace_migration.py:107-129 | for every raw detail, a store with one entry of no instance that both migrations are done with, that the scan finds clean, and that holds raw |
| `ZeroRaw.CleanNeverRaises` | backend/src/workflow_platform/trace_migration.py:107-129 | on a clean store the verifier never fails, so failing never hides a clean store |
| `ZeroRaw.ColumnAfter` | backend/src/workflow_platform/trace_migration.py:107-129 | after both migrations a column of the original store, scanned or not, holds raw exactly when it was one they leave alone |
| `ZeroRaw.RaisesAfterwardsIffLeftAlone` | backend/src/workflow_platform/trace_migration.py:107-129 | after both migrations a column makes the verifier fail exactly when it did before and was left alone |
| `ZeroRaw.CleanIffNothingLeftAlone` | backend/src/workflow_platform/trace_migration.py:107-129 | after a finished backfill and audit migration no column holds raw exactly when none did that they leave alone (stamped steps, steps of missing instances, entries without an instance or whose instance names no organisation) and no entry the migration appended does |
| `ZeroRaw.BackfilledOutputReadsBack` | backend/src/workflow_platform/trace_rehydrate.py:350-412 | each output the backfill vaulted reads back as its original and agrees with the stored projection |
| `ZeroRaw.BackfilledTriggerAgreesIffStamped` | backend/src/workflow_platform/trace_migration.py:149-164 | each trigger the backfill vaulted reads back as its original; its rehydration agrees when the context was not empty or the stamp was already the version in force, and otherwise answers that the version is unsupported |
| `ZeroRaw.RepairedOutputAgreesIffSameProjection` | backend/src/workflow_platform/trace_migration.py:194-212 | the vaulted raw of a repaired row, legacy or not, still reads back, and its rehydration succeeds exactly when that raw and the inline output have one projection |
| `ZeroRaw.MigratedDetailReadsBack` | backend/src/workflow_platform/trace_rehydrate.py:414-501 | each migrated audit detail reads back as its original and agrees with the stored one |
| `RawColumns.ErrorIsRawIff` | backend/src/workflow_platform/trace_migration.py:98-104 | an error is raw exactly when it is not empty and no generated marker: when the error position of a step row would not keep it |
| `RawColumns.SafeErrorIsProjected` | backend/src/workflow_platform/trace_migration.py:165-177 | what replaces it is the projection of that position |
| `RawColumns.CleanIffSafe` | backend/src/workflow_platform/trace_migration.py:73-129 | for the projector in force a store is clean exactly when every column is empty or in the safe language of its schema |
| `Ledger.LedgerIsLosslessIff` | backend/src/workflow_platform/trace_projection.py:1910-1924 | a ledger entry loses nothing to projection exactly when its row ids and its digest are tokens and its counts are in bounds |
| `Ledger.LedgerTellsTheBatch` | backend/src/workflow_platform/trace_migration.py:368-382 | a ledger entry names the rows of its batch in order, their number, the batch, the version, and a digest over ids and previous details |
| `Ledger.CleanAfterARunIff` | backend/src/workflow_platform/trace_migration.py:277-391 | after a finished backfill and a finished run of the migration no column holds raw exactly when nothing they leave alone did and every ledger entry of the run is such |
| `Paths.RewrittenPathResolves` | backend/src/workflow_platform/scaffold.py:229-268 | a renamed path resolved against the renamed run gives the value the original gave |
| `Paths.PathPreservedIffSafe` | backend/src/workflow_platform/scaffold.py:229-268 | a path keeps its meaning on every run exactly when it names one step and no dangling id that minting hands out |
| `Paths.UnsafePathChanges` | backend/src/workflow_platform/engine/executor.py:2162-2181 | for any other path, a run on which renaming changes its value |
| `Paths.ResolveReads` | backend/src/workflow_platform/engine/executor.py:2162-2181 | how the engine reads a path: two roots, one name after another through dictionaries, nothing otherwise |
| `Templates.RewritingKeepsTokens` | backend/src/workflow_platform/scaffold.py:364-392 | scanning a rewritten template finds the same literals and placeholders, in order, with only step ids renamed |
| `Templates.RenderingCommutes` | backend/src/workflow_platform/engine/executor.py:2187-2198 | the rewritten template renders, against the renamed run, to the text of the original |
| `Templates.RenderingReads` | backend/src/workflow_platform/engine/executor.py:2187-2198 | a placeholder renders as the text of a scalar its path reads and as nothing otherwise; text without braces renders as itself |
| `Templates.PlaceholderChars` | backend/src/workflow_platform/engine/executor.py:2184 | the characters of a placeholder |
| `Templates.ProseKeepsItsPieces` | backend/src/workflow_platform/scaffold.py:395-413 | what is written for each reference of the scanned prose: all other characters, the delimiters and their order stay |
| `Templates.RewritingKeepsReferences` | backend/src/workflow_platform/scaffold.py:395-413 | where no old id breaks the scan, scanning the rewritten prose finds the same pieces with only step ids renamed |
| `Templates.ScanSurvivesIff` | backend/src/workflow_platform/scaffold.py:395-413 | this holds of every text exactly when no old id breaks the scan: no id without white space, dot and backtick has an opening angle bracket as its first angle bracket |
| `Templates.RenamedBodyKeepsItsTail` | backend/src/workflow_platform/scaffold.py:229-257 | a renamed reference keeps its root and its tail |
| `Conditions.RewritingPreservesEvaluation` | backend/src/workflow_platform/scaffold.py:286-328 | the rewritten expression evaluates on the renamed step outputs to what the original did on the original ones |
| `Conditions.EvaluationReads` | backend/src/workflow_platform/engine/executor.py:1074-1088 | what names, constants, keys and attributes of dictionaries evaluate to |
| `Conditions.ConditionPreserved` | backend/src/workflow_platform/scaffold.py:286-328 | so does the condition as text, for any parser and printer that read back what minting prints, and one that does not parse stays as it is |
| `Conditions.LiteralsUntouched` | backend/src/workflow_platform/scaffold.py:286-328 | every literal keeps its value, even one that spells a step id |
| `Scaffold.MintedIdsAreApart` | backend/src/workflow_platform/scaffold.py:456-458 | minted ids are one to one and made of placeholder characters |
| `Scaffold.MappingIsARenaming` | backend/src/workflow_platform/scaffold.py:449-458 | minting renames simultaneously and one to one, whatever names the draft used |
| `Scaffold.MappingNumbersTheIds` | backend/src/workflow_platform/scaffold.py:449-458 | the step in place i becomes `step_i`, and nothing else is renamed |
| `ScaffoldTheorems.ReferencesAreRenamed` | backend/src/workflow_platform/scaffold.py:473-581 | at every position the engine reads a path (inputs, pins, declared config keys, learned memory, questions) the minted draft holds the renaming of what was there, defaults included, and no reference appears or goes |
| `ScaffoldTheorems.EffectiveReferenceIsRenamed` | backend/src/workflow_platform/scaffold.py:494-504 | what a function reads under a declared key, configured or defaulted, is the renaming of what it read before |
| `ScaffoldTheorems.DeclaredConfigIsRenamed` | backend/src/workflow_platform/scaffold.py:486-504 | key by key what becomes of a dictionary config of a known function: declared references renamed, other values kept, defaults that name a moved step written down |
| `ScaffoldTheorems.AcceptedDraftsAreRenamed` | backend/src/workflow_platform/scaffold.py:445-458 | every draft minting accepts is renamed one to one onto placeholder ids |
| `ScaffoldTheorems.MintingPreservesReferences` | backend/src/workflow_platform/scaffold.py:229-581 | each reference of the minted draft resolves, against the renamed run, to the value the original gave |
| `ScaffoldTheorems.MeaningKeptIffClosed` | backend/src/workflow_platform/scaffold.py:229-581 | when minting moves an id, all references keep their meaning on all runs exactly when the draft is closed |
| `ScaffoldTheorems.MintingPreservesConditions` | backend/src/workflow_platform/scaffold.py:509-525 | each edge condition of the minted draft has, over the renamed step outputs, the value it had |
| `ScaffoldTheorems.MintingPreservesTemplates` | backend/src/workflow_platform/scaffold.py:527-556 | each observation of the minted draft renders, against the renamed run, to the text it rendered to |
| `ScaffoldTheorems.MintingKeepsProse` | backend/src/workflow_platform/scaffold.py:473-490 | goal and system prompt of each step of the minted draft scan, placeholders first, to the pieces of the original with only step ids renamed, for ids that do not break the scan |
| `ScaffoldTheorems.DataIsUntouched` | backend/src/workflow_platform/scaffold.py:460-581 | no block appears or goes, unknown blocks and all other keys of steps, edges, learned memory and questions keep their values, and config gains only defaults that name a moved step |
| `ScaffoldGraph.RepeatedIdsAreRefused` | backend/src/workflow_platform/scaffold.py:449-455 | a draft is refused for its ids exactly when two steps carry the same usable id |
| `ScaffoldGraph.ConfigIsRefusedIff` | backend/src/workflow_platform/scaffold.py:494-504 | minting fails on a `config` exactly when the ids are distinct, the mapping moves one, and some step has a non-empty list or string for a config that does not name a default of its function whose step moves, or a number or true where its function has any default |
| `ScaffoldTheorems.RaisesOnConfigIff` | backend/src/workflow_platform/scaffold.py:494-504 | value by value, which configs of a known function cannot be rewritten; those of an unknown one always can |
| `ScaffoldGraph.ConfigCanBeRefused` | backend/src/workflow_platform/scaffold.py:494-504 | a draft on which it does, for every id that moves and every function whose default names it |
| `ScaffoldGraph.ReadableDraftsMint` | backend/src/workflow_platform/scaffold.py:416-591 | a draft whose configs are absent, empty or dictionaries is only ever refused for its ids |
| `ScaffoldGraph.MintedIdsAreNumbered` | backend/src/workflow_platform/scaffold.py:449-458 | the ids of a minted draft are `step_1`, `step_2`, ... in step order |
| `ScaffoldGraph.MintingTwiceIsMintingOnce` | backend/src/workflow_platform/scaffold.py:445-458 | minting a minted draft changes nothing |
| `ScaffoldGraph.MintedGraphIsTheImage` | backend/src/workflow_platform/scaffold.py:509-525 | the step graph of a minted draft is the renamed graph, in either spelling of edge ends |
| `ScaffoldGraph.MintedGraphIsIsomorphic` | backend/src/workflow_platform/scaffold.py:509-525 | the renaming is one to one on the nodes exactly when no captured name is a node beside the step that captures it, and then the graph is acyclic exactly when it was |
| `ScaffoldGraph.OneToOneIffUncaptured` | backend/src/workflow_platform/scaffold.py:449-458 | the condition for any set of nodes and any renaming minting makes |
| `ScaffoldGraph.CaptureCanCloseACycle` | backend/src/workflow_platform/scaffold.py:509-525 | an edge from a step to the dangling name it is given is acyclic and becomes a loop |
| `ScaffoldLoops.RewriteStepByItems` | backend/src/workflow_platform/scaffold.py:473-504 | the item loop of a step and the defaults written after it |
| `ScaffoldLoops.RewriteEdgeList` | backend/src/workflow_platform/scaffold.py:509-525 | the loop over the edges |
| `ScaffoldLoops.RewriteMemoryItems` | backend/src/workflow_platform/scaffold.py:527-556 | the loop over learned memory |
| `ScaffoldLoops.RewriteQuestionItems` | backend/src/workflow_platform/scaffold.py:563-581 | the loop over questions |
| `ScaffoldLoops.MintPlatformStepIds` | backend/src/workflow_platform/scaffold.py:416-591 | the whole rewriter, loop by loop, returns what the specification the theorems are about returns, errors included |
| `Csv.CsvRecords` | frontend/src/lib/batch.ts:49-91 | the one-pass tokenizer returns the specified records or the unterminated-field error |
| `Csv.FailsIffOddQuotes` | frontend/src/lib/batch.ts:49-91 | tokenising fails exactly when the number of quotes is odd |
| `Csv.OneRecordPerNewlineOutside` | frontend/src/lib/batch.ts:49-91 | a text that tokenises has one record more than it has newlines after an even number of quotes |
| `Csv.PlainTextIsSplit` | frontend/src/lib/batch.ts:49-91 | without quotes and carriage returns, tokenising is splitting into lines, each line at its commas, and trimming each cell |
| `Csv.SplittingJoins` | frontend/src/lib/batch.ts:49-91 | splitting takes out the separators and nothing else |
| `Csv.TrimTakesTheEnds` | frontend/src/lib/batch.ts:55-58 | trimming takes the blanks at both ends and nothing else |
| `Csv.PrintingReadsBack` | frontend/src/lib/batch.ts:49-91 | tokenising inverts quoted printing, for every non-empty list of non-empty records of trimmed cells |
| `Csv.ResultsPrintAndReadBack` | frontend/src/lib/batch.ts:49-91 | every successful result is such a list, so printing it and tokenising again returns it |
| `Csv.CarriageReturnsAreIgnored` | frontend/src/lib/batch.ts:83-86 | outside quotes the two line endings tokenise alike |
| `Batch.ParseCsv` | frontend/src/lib/batch.ts:30-44 | the row loop returns the rows of the specification, with its three errors |
| `Batch.RowReads` | frontend/src/lib/batch.ts:36-43 | a row has exactly the columns of the header, each with the cell of the last column of that name |
| `Batch.KeptAreTheFilled` | frontend/src/lib/batch.ts:30-31 | the records that stay are those with a cell that is not empty, in their order |
| `Batch.JsonInputReads` | frontend/src/lib/batch.ts:6-26 | JSON input is accepted exactly when it is a non-empty array of objects, which are the rows; each refusal has its own reason |
| `Batch.CsvInputIsRefusedIff` | frontend/src/lib/batch.ts:27-36 | CSV input is refused for odd quotes, fewer than two filled records or an empty column name, and for nothing else |
| `Batch.TableReadsBack` | frontend/src/lib/batch.ts:6-46 | a table printed with quoted cells and pasted as batch input comes back as its rows, each cell under its column and missing cells empty |
| `AgentLoop.AgentRun.RunLoop` | backend/src/workflow_platform/agent/agent.py:106-180 | the loop over conversation, call log and usage ends in the state and with the reason of the specification |
| `AgentLoop.AgentRun.ExecuteToolCalls` | backend/src/workflow_platform/agent/agent.py:182-231 | one result per tool use, in order and under its id; the log and the counter grow by exactly those calls |
| `AgentLoop.PinInput` | backend/src/workflow_platform/agent/agent.py:202-212 | the pin loop over the input of one call |
| `AgentTheorems.RunStaysWithinPolicy` | backend/src/workflow_platform/agent/agent.py:106-180 | in every run: converse calls equal counted iterations and reach the limit unless the model or the budget ends the run, no call starts over budget, input and output tokens are those the calls reported, the conversation alternates with one result per tool use under its id, the log holds each call once, the last text is the last the model gave, and the run ends for the reason it reports, never a tool use |
| `AgentTheorems.OverdraftIsOneCall` | backend/src/workflow_platform/agent/agent.py:120-146 | the budget is overdrawn by at most the tokens of the last converse call |
| `AgentTheorems.EveryCallIsPinned` | backend/src/workflow_platform/agent/agent.py:202-226 | each logged call carries every pinned value, keeps the model values elsewhere, lists the pins, and names as overrides exactly the pins the model set otherwise |
| `AgentTheorems.EveryCallAnswers` | backend/src/workflow_platform/agent/agent.py:233-248 | an allowed and registered tool answers for itself, with the logged input and in its place among the calls; denied, unknown and raising tools answer with their own error and no content |
| `AgentTheorems.ResultsTellTheLog` | backend/src/workflow_platform/agent/agent.py:182-231 | each message of results answers the tool uses before it one by one, under their ids, with the logged result, as a success exactly when it is no error |
| `AgentTheorems.UsesAreTheirBlocks` | backend/src/workflow_platform/agent/agent.py:189-193 | the tool uses of a message are those of its blocks, in order |
| `AgentTheorems.PinsAreForced` | backend/src/workflow_platform/agent/agent.py:202-212 | every pinned key ends up with its pinned value, and no other key changes |
| `AgentTheorems.OverridesAreTheDifferences` | backend/src/workflow_platform/agent/agent.py:202-212 | the overrides name exactly the pinned keys for which the input held another value |
| `AgentTheorems.DeniedToolsDoNothing` | backend/src/workflow_platform/agent/agent.py:233-248 | what tools do that are not allowed or not registered cannot change a run |
| `AgentTheorems.OtherStopsAreFinal` | backend/src/workflow_platform/agent/agent.py:256-260 | only the raw reason `tool_use` coerces to a tool use |
| `AgentTheorems.CoercionReadsBack` | backend/src/workflow_platform/agent/agent.py:256-260 | every stop reason is read from its value, and any other text is an error |
| `AgentTheorems.TextIsItsParts` | backend/src/workflow_platform/agent/agent.py:251-253 | the text of a message is that of its blocks, with one line break between each two |
| `RunForm.GetAfterSet` | frontend/src/lib/run-form.ts:20-34 | what was written is read back |
| `RunForm.SetAfterSet` | frontend/src/lib/run-form.ts:20-34 | a second write at the same path overrides the first |
| `RunForm.WrongKindIsReplaced` | frontend/src/lib/run-form.ts:20-34 | a write through a value of the wrong kind starts from an empty container |
| `RunForm.WriteTouchesOneEntry` | frontend/src/lib/run-form.ts:20-34 | a write touches one entry of its container; an array grows only up to it |
| `RunForm.WritingBackIffPresent` | frontend/src/lib/run-form.ts:20-34 | writing back what a path holds changes nothing exactly when the path is present |
| `RunForm.WritesCommuteIffSameKind` | frontend/src/lib/run-form.ts:20-34 | writes at diverging paths commute exactly when the segments they part at are of one kind |
| `RunForm.WriteIsLocal` | frontend/src/lib/run-form.ts:20-34 | a write is not seen at a path that parts from it at a segment of the same kind |
| `RunForm.RemovalUndoesAWriteIffFree` | frontend/src/lib/run-form.ts:36-61 | removing what was just written restores the value exactly when the path named a new key or the end of an array |
| `RunForm.RemovalShifts` | frontend/src/lib/run-form.ts:36-61 | removing an item moves the items behind it one place forward and keeps the rest |
| `RunForm.RemovalOfKey` | frontend/src/lib/run-form.ts:36-61 | a removed key reads as undefined and its neighbours keep their values |
| `RunForm.IndicesAreNames` | frontend/src/lib/run-form.ts:36-61 | a number used on an object is the name that spells it |
| `RunForm.AbsentRemovalLengthens` | frontend/src/lib/run-form.ts:36-61 | removal below an item that is past the end lengthens the array up to it |
| `RunForm.RemovalChangesNothingIff` | frontend/src/lib/run-form.ts:36-61 | removal returns the value it was given exactly when the last segment is absent, a value on the way has no children, or what lies below is present and has nothing to remove |
| `RunForm.RemovalBelowNameMakesAnObject` | frontend/src/lib/run-form.ts:36-61 | removal below a name of an array makes an object of it that holds the items under their indices |

## Left out

- Floats that are infinite or not a number, and recursion so deep that Python stops it.
- Python equality across types: `True == 1 == 1.0`; values are compared structurally here.
- Values outside JSON in a projected record (datetimes, sets, bytes), and the label validators that accept only
  printable text.
- The full tables of schema fields, owners, audit actions and function references: the theorems take any table, and
  the step-output, snapshot, step-row and context schemas are instantiated.
- The text of `json.dumps`: the serialized length of a content is a parameter of the tool-call node.
- SHA-256, AES-GCM, HKDF, nonces, base64 and key installation: the strings before hashing and an ideal cipher.
- The executor, monitoring, API routers, the database behind the repositories, and event publication.
- Reads that fail in backfill and migration: a crash is modelled at every write; only the rehydrator's lookup can fail.
- The update of an instance row the backfill repeats on every run: its content does not change, so "a further run
  writes nothing" is stated for vault objects and for the contents of the store.
- `merge_output`, `merge_error` and `merge_trigger`, timestamps, entry limits of listings other than instances, and
  negative batch sizes or limits.
- `AuditWriting.AuditWriter.OrgFor`: instance rows are never deleted here, so a memo cannot outlive its row.
- Conditions: parsing, printing and the evaluator outside dictionaries are parameters; a key that is also a method
  name of dictionaries (`steps.items`) reads as the key.
- Function names that are not strings but print like one, dictionary order, `extract_json` and the scaffold call.
- A call of the model that raises, malformed content blocks, tools that change the input they are given, and the cap
  on output tokens.
- CSV columns named `__proto__`, and JavaScript numbers, holes and inherited properties in the run form: a hole is
  `Undefined`, indices are natural numbers, objects have own keys only.
- Concurrency between processes and clocks.

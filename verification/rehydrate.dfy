/** Reading raw traces back under the system-access audit: trace_rehydrate.py. */
module Rehydration {
  import opened Wrappers
  import opened Json
  import Projection
  import opened Vault
  import opened Store
  import opened BackfillSpec
  import opened VaultWriter
  import opened AuditMigrationSpec
  import opened AuditWriting

  const WORKLOAD := "engine"
  const ATTEMPTED := "raw_trace_system_access_attempted"
  const COMPLETED := "raw_trace_system_access_completed"

  datatype Verdict = Agrees | Mismatch | Unsupported | Raised

  datatype Outcome = Succeeded | RetrievalFailed | IntegrityFailed | VersionUnsupported
  {
    function Text(): string {
      match this
      case Succeeded => "succeeded"
      case RetrievalFailed => "retrieval_failed"
      case IntegrityFailed => "integrity_failed"
      case VersionUnsupported => "projector_version_unsupported"
    }
  }

  /** What is being read: the three assets project differently, and differ when their row is missing. */
  datatype Asset = StepOutputAsset | DetailAsset(action: string) | TriggerAsset

  /** The keys of a trigger that `key in payload` finds, payload by payload. */
  function RoutingKeysIn(raw: Json): Option<set<string>> {
    match raw
    case Obj(fields) => Some(set k | k in Projection.ROUTING_KEYS && k in fields)
    case Str(s) => Some(set k | k in Projection.ROUTING_KEYS && Contains(s, k))
    case Arr(items) => Some(set k | k in Projection.ROUTING_KEYS && Str(k) in items)
    case _ => None
  }

  /** Projecting what came out of the vault, whatever it is; nothing when that raises. */
  function Reprojection(cfg: Config, asset: Asset, raw: Json): Option<Json> {
    match asset
    case StepOutputAsset =>
      if !raw.Obj? then Some(raw)
      else if cfg.p.outputRaises(raw.fields) then None else Some(Obj(cfg.p.output(raw.fields)))
    case DetailAsset(action) =>
      if !raw.Obj? then Some(raw)
      else if cfg.p.detailRaises(action, raw.fields) then None else Some(Obj(cfg.p.detail(action, raw.fields)))
    case TriggerAsset =>
      if raw.Obj? then Some(Obj(cfg.p.trigger(raw.fields)))
      else match RoutingKeysIn(raw)
        case None => None
        case Some(keys) => Some(Obj(cfg.p.trigger(map k | k in keys :: Null)))
  }

  /** `_version_reproducible` */
  predicate Reproducible(cfg: Config, recorded: Option<string>) {
    recorded == Some(cfg.p.version)
  }

  /** `verify_projection_agreement` and its two siblings: re-project the raw under the recorded version
      and compare with the stored safe form. */
  function Agreement(cfg: Config, asset: Asset, raw: Json, stored: Record, recorded: Option<string>): Verdict {
    if !Reproducible(cfg, recorded) then Unsupported
    else match Reprojection(cfg, asset, raw)
      case None => Raised
      case Some(v) => if v == Obj(stored) then Agrees else Mismatch
  }

  /** Fresh identifiers the rehydrator draws: the request id and the ids of its two audit entries. */
  datatype Draw = Draw(requestId: string, attemptEntry: string, completionEntry: string)

  function AttemptOf(draw: Draw, purpose: string, org: string, instance: string, step: Option<string>,
    kind: Kind): Request {
    Request(ATTEMPTED, "system", WORKLOAD, Some(instance), step,
      map["request_id" := Str(draw.requestId), "workload_identity" := Str(WORKLOAD), "purpose" := Str(purpose),
          "org_id" := Str(org), "kinds" := Arr([Str(kind.Text())])],
      draw.attemptEntry)
  }

  function CompletionOf(draw: Draw, instance: string, outcome: Outcome): Request {
    Request(COMPLETED, "system", WORKLOAD, Some(instance), None,
      map["request_id" := Str(draw.requestId), "outcome" := Str(outcome.Text())], draw.completionEntry)
  }

  function LookedAt(w: World, key: Key): World {
    World(w.db, Rest(w.faults), w.trace + [LookedUp(key)])
  }

  function Found(w: World, key: Key): Result<Option<Row>, StoreError> {
    if NextFault(w.faults).Fine? then Success(if key in w.db.vault then Some(w.db.vault[key]) else None)
      else Failure(Down)
  }

  /** Access denied because it could not be recorded, raw that could not be produced, or an exception of the
      re-projection that nothing catches. */
  datatype AccessError = NotRecorded | RawUnavailable | Uncaught

  /** What was asked for: the record's identity, its stored safe form and its projection stamp. */
  datatype Asked = Asked(asset: Asset, identity: Identity, purpose: string, safe: Record, version: Option<string>)

  /** The world after one audited access that looked up `identity` and recorded `outcome`. */
  function Accessed(cfg: Config, flip: bool, w: World, draw: Draw, asked: Asked, outcome: Outcome): World {
    var id := asked.identity;
    var attempt := AttemptOf(draw, asked.purpose, id.org, id.instance, id.attempt, id.kind);
    var attempted := AppendCall(cfg, flip, w, attempt).0;
    AppendCall(cfg, flip, LookedAt(attempted, id.Address()), CompletionOf(draw, id.instance, outcome)).0
  }

  /** The world in which the lookup happens: the attempt has just been recorded. */
  function AtLookup(cfg: Config, flip: bool, w: World, draw: Draw, asked: Asked): (World, Result<(), WriterError>) {
    var id := asked.identity;
    AppendCall(cfg, flip, w, AttemptOf(draw, asked.purpose, id.org, id.instance, id.attempt, id.kind))
  }

  /** The access protocol. If the attempt could not be recorded there is no lookup and no completion;
      otherwise there is one lookup and then one completion carrying the same request id, unless an
      exception escapes in between. */
  ghost predicate FollowsProtocol(
    cfg: Config, flip: bool, before: World, after: World, draw: Draw, asked: Asked, r: Result<Json, AccessError>,
    outcome: Outcome)
  {
    var (attempted, recorded) := AtLookup(cfg, flip, before, draw, asked);
    if recorded.Failure? then after == attempted && r == Failure(NotRecorded)
    else if r == Failure(Uncaught) then after == LookedAt(attempted, asked.identity.Address())
    else after == Accessed(cfg, flip, before, draw, asked, outcome) && r != Failure(NotRecorded)
  }

  predicate IsLookup(e: Event) {
    e.LookedUp?
  }

  predicate NoLookups(events: seq<Event>) {
    forall i :: 0 <= i < |events| ==> !IsLookup(events[i])
  }

  lemma EntryAppendLooksNothingUp(w: World, entry: Entry) returns (event: Event)
    ensures var (after, outcome) := Appended(w, entry);
      && after.trace == w.trace + [event] && !IsLookup(event)
      && (outcome.Success? ==> FindEntry(after.db.audit, entry.id).Some?)
  {
    event := EntryAppended(entry.id);
    FindEntryAppended(w.db.audit, [entry], entry.id);
  }

  lemma RowPutLooksNothingUp(cfg: Config, w: World, identity: Identity, payload: Json) returns (events: seq<Event>)
    ensures Recorded(cfg, w, identity, payload).0.trace == w.trace + events && NoLookups(events)
  {
    events := if Empty(payload) then [] else [RowPut(identity.Address())];
  }

  /** An append looks nothing up, and when it reports success its entry is on record. */
  lemma AppendsLookNothingUp(cfg: Config, flip: bool, w: World, req: Request) returns (events: seq<Event>)
    ensures var (after, outcome) := AppendCall(cfg, flip, w, req);
      && after.trace == w.trace + events && NoLookups(events)
      && (outcome.Success? ==> FindEntry(after.db.audit, req.entryId).Some?)
  {
    hide Appended, Recorded, FindEntry;
    var entry := EntryOf(cfg, flip, req);
    events := [];
    if flip && cfg.p.detailRaises(req.action, req.detail) {
      return;
    }
    if !flip || !LosesDetail(cfg, req) {
      var event := EntryAppendLooksNothingUp(w, entry);
      events := [event];
    } else if req.instance.Some? && req.instance.value in w.db.instances {
      var identity := DetailIdentity(w.db.instances[req.instance.value].org, req.instance.value, req.entryId);
      events := RowPutLooksNothingUp(cfg, w, identity, Obj(req.detail));
      var (after, recorded) := Recorded(cfg, w, identity, Obj(req.detail));
      if recorded.Success? {
        var event := EntryAppendLooksNothingUp(after, entry);
        events := events + [event];
      }
    }
  }

  /** In the store's own trace: no lookup unless the attempt's entry is on record, then exactly the one
      lookup asked for, and none after it. */
  lemma LookupOnlyOnRecord(
    cfg: Config, flip: bool, before: World, after: World, draw: Draw, asked: Asked, r: Result<Json, AccessError>,
    outcome: Outcome) returns (head: seq<Event>, tail: seq<Event>)
    requires FollowsProtocol(cfg, flip, before, after, draw, asked, r, outcome)
    ensures NoLookups(head) && NoLookups(tail)
    ensures r == Failure(NotRecorded) ==> after.trace == before.trace + head
    ensures r != Failure(NotRecorded) ==>
      && after.trace == before.trace + head + [LookedUp(asked.identity.Address())] + tail
      && FindEntry(AtLookup(cfg, flip, before, draw, asked).0.db.audit, draw.attemptEntry).Some?
  {
    hide AppendCall;
    var id := asked.identity;
    var (attempted, recorded) := AtLookup(cfg, flip, before, draw, asked);
    head := AppendsLookNothingUp(cfg, flip, before,
      AttemptOf(draw, asked.purpose, id.org, id.instance, id.attempt, id.kind));
    tail := [];
    if recorded.Success? && r != Failure(Uncaught) {
      tail := AppendsLookNothingUp(cfg, flip, LookedAt(attempted, id.Address()),
        CompletionOf(draw, id.instance, outcome));
    }
  }

  /** What the lookup produced: nothing readable, no such row, or a row that opened under the identity
      asked for. */
  datatype Reading = Unreadable | Missing | Raw(row: Row, raw: Json)

  function ReadingOf(cfg: Config, found: Result<Option<Row>, StoreError>, identity: Identity): Reading {
    match found
    case Failure(_) => Unreadable
    case Success(None) => Missing
    case Success(Some(row)) =>
      match PayloadOf(cfg.cipher, row, identity)
      case Success(raw) => Raw(row, raw)
      case Failure(_) => Unreadable
  }

  function ReadingAt(cfg: Config, flip: bool, w: World, draw: Draw, asked: Asked): Reading {
    ReadingOf(cfg, Found(AtLookup(cfg, flip, w, draw, asked).0, asked.identity.Address()), asked.identity)
  }

  /** What an access reads: nothing when the lookup fails, nor when the row found does not open; only a lookup that
      succeeds can find that there is no row. */
  lemma ReadingTells(cfg: Config, flip: bool, w: World, draw: Draw, asked: Asked)
    ensures var at, key := AtLookup(cfg, flip, w, draw, asked).0, asked.identity.Address();
      var reading, fine := ReadingAt(cfg, flip, w, draw, asked), NextFault(at.faults).Fine?;
      && (reading.Missing? <==> fine && key !in at.db.vault)
      && (reading.Raw? <==>
            fine && key in at.db.vault && PayloadOf(cfg.cipher, at.db.vault[key], asked.identity).Success?)
      && (reading.Raw? ==>
            && reading.row == at.db.vault[key]
            && PayloadOf(cfg.cipher, at.db.vault[key], asked.identity) == Success(reading.raw))
  {
    hide AtLookup, PayloadOf;
  }

  /** A trigger that was never redacted has nothing in the vault. */
  predicate NeverRedacted(asked: Asked) {
    asked.asset.TriggerAsset? && "_redacted" !in asked.safe
  }

  /** What the recorded outcome and the returned value say about what was read. */
  ghost predicate Honest(cfg: Config, reading: Reading, asked: Asked, r: Result<Json, AccessError>, outcome: Outcome) {
    match reading
    case Unreadable => r == Failure(RawUnavailable) && outcome == RetrievalFailed
    case Missing =>
      if NeverRedacted(asked) then r == Success(Obj(asked.safe)) && outcome == Succeeded
      else r == Failure(RawUnavailable) && outcome == RetrievalFailed
    case Raw(row, raw) =>
      if asked.asset.DetailAsset? && Some(row.version) != asked.version then
        r == Failure(RawUnavailable) && outcome == IntegrityFailed
      else match Agreement(cfg, asked.asset, raw, asked.safe, asked.version)
        case Agrees => outcome == Succeeded && r == Success(Returned(asked, raw))
        case Mismatch => outcome == IntegrityFailed && r == Failure(RawUnavailable)
        case Unsupported => outcome == VersionUnsupported && r == Success(Returned(asked, raw))
        case Raised => r == Failure(Uncaught)
  }

  /** `full if isinstance(full, dict) else safe`; an audit detail is returned whatever it is. */
  function Returned(asked: Asked, raw: Json): Json {
    if raw.Obj? || asked.asset.DetailAsset? then raw else Obj(asked.safe)
  }

  /** "Succeeded" for a payload read from the vault means that it re-projects to the stored safe form, and
      that it is what the caller received; only a trigger that is no record comes back as its safe form. */
  lemma SucceededMeansAgreed(
    cfg: Config, reading: Reading, asked: Asked, r: Result<Json, AccessError>, outcome: Outcome)
    requires Honest(cfg, reading, asked, r, outcome) && reading.Raw? && outcome == Succeeded && r != Failure(Uncaught)
    ensures asked.version == Some(cfg.p.version)
    ensures Reprojection(cfg, asked.asset, reading.raw) == Some(Obj(asked.safe))
    ensures !asked.asset.TriggerAsset? || reading.raw.Obj? ==> reading.raw.Obj? && r == Success(reading.raw)
  {
  }

  /** There is raw to return without the vault: the trigger carries no marker. */
  predicate NeedsNoRaw(asked: Asked) {
    asked.asset.TriggerAsset? && "_redacted" !in asked.safe
  }

  /** The vault row does not belong to the record, or re-projects to something else. */
  predicate Disagrees(cfg: Config, reading: Reading, asked: Asked) {
    && reading.Raw?
    && (|| (asked.asset.DetailAsset? && asked.version != Some(reading.row.version))
        || (asked.version == Some(cfg.p.version) &&
            Reprojection(cfg, asked.asset, reading.raw) != Some(Obj(asked.safe))))
  }

  /** Every access that completes fails closed: what it returns is the raw that was opened, unless that is no record
      or the trigger needed none; and its outcome names the one reason why. */
  lemma OutcomeTellsTheReading(
    cfg: Config, reading: Reading, asked: Asked, r: Result<Json, AccessError>, outcome: Outcome)
    requires Honest(cfg, reading, asked, r, outcome) && r != Failure(Uncaught)
    ensures r.Success? <==> (reading.Missing? && NeedsNoRaw(asked)) || (reading.Raw? && !Disagrees(cfg, reading, asked))
    ensures r.Success? ==>
      r.value == if reading.Raw? && (reading.raw.Obj? || asked.asset.DetailAsset?) then reading.raw else Obj(asked.safe)
    ensures outcome.Text() == "retrieval_failed" <==>
      reading.Unreadable? || (reading.Missing? && !NeedsNoRaw(asked))
    ensures outcome.Text() == "integrity_failed" <==> Disagrees(cfg, reading, asked)
    ensures outcome.Text() == "projector_version_unsupported" <==>
      reading.Raw? && !Disagrees(cfg, reading, asked) && asked.version != Some(cfg.p.version)
    ensures outcome.Text() == "succeeded" <==>
      || (reading.Missing? && NeedsNoRaw(asked))
      || (reading.Raw? && !Disagrees(cfg, reading, asked) && asked.version == Some(cfg.p.version))
  {
    hide Reprojection;
    OutcomeTextsDiffer();
  }

  lemma OutcomeTextsDiffer()
    ensures forall a: Outcome, b: Outcome :: a.Text() == b.Text() ==> a == b
  {
    assert "succeeded"[0] == 's' && "retrieval_failed"[0] == 'r' && "integrity_failed"[0] == 'i';
    assert "projector_version_unsupported"[0] == 'p';
  }

  /** What is no record is compared as it is, so it never agrees as an output or a detail. */
  lemma OnlyRecordsAgree(cfg: Config, asset: Asset, raw: Json, stored: Record, recorded: Option<string>)
    requires !asset.TriggerAsset? && !raw.Obj?
    ensures Agreement(cfg, asset, raw, stored, recorded) ==
      if recorded == Some(cfg.p.version) then Mismatch else Unsupported
  {
  }

  /** A trigger of another shape is projected as what Python's `in` finds in it: a routing key that stands somewhere in
      a text, or among the items of a list; from what has no `in` nothing is projected, that raises. */
  lemma OtherTriggersProject(cfg: Config, raw: Json, k: string)
    requires !raw.Obj?
    ensures Reprojection(cfg, TriggerAsset, raw).Some? <==> raw.Str? || raw.Arr?
    ensures raw.Str? || raw.Arr? ==>
      var keys := RoutingKeysIn(raw).value;
      && Reprojection(cfg, TriggerAsset, raw) == Some(Obj(cfg.p.trigger(map l | l in keys :: Null)))
      && (k in keys <==>
            && k in {"message_id", "thread_id", "id"}
            && if raw.Str? then exists i :: 0 <= i <= |raw.s| && k <= raw.s[i..] else Str(k) in raw.items)
  {
    if raw.Str? {
      ContainsIff(raw.s, k);
    }
  }

  /** The two records of an access: both name its request, its workload and its instance; the attempt says for what,
      whose and which kind, the completion how it went. */
  lemma AccessRecordsTell(
    draw: Draw, purpose: string, org: string, instance: string, step: Option<string>, kind: Kind, outcome: Outcome)
    ensures var begun := AttemptOf(draw, purpose, org, instance, step, kind);
      var done := CompletionOf(draw, instance, outcome);
      && begun.action == "raw_trace_system_access_attempted" && done.action == "raw_trace_system_access_completed"
      && begun.entryId == draw.attemptEntry && done.entryId == draw.completionEntry
      && begun.instance == done.instance == Some(instance) && begun.step == step && done.step.None?
      && begun.actorType == done.actorType == "system" && begun.actorId == done.actorId == "engine"
      && Get(begun.detail, "request_id") == Get(done.detail, "request_id") == Str(draw.requestId)
      && Get(begun.detail, "purpose") == Str(purpose) && Get(begun.detail, "org_id") == Str(org)
      && Get(begun.detail, "kinds") == Arr([Str(kind.Text())])
      && Get(done.detail, "outcome") == Str(outcome.Text())
  {
    assert "request_id"[0] == 'r' && "workload_identity"[0] == 'w' && "purpose"[0] == 'p' && "org_id"[0] == 'o';
    assert "kinds"[0] == 'k' && "outcome"[1] == 'u';
  }

  /** Re-projecting what was read raises: a trigger that no key can be looked up in, or a record with a tool call or an
      amount the projector cannot read. */
  predicate ReprojectionRaises(cfg: Config, reading: Reading, asked: Asked) {
    && reading.Raw? && Reproducible(cfg, asked.version)
    && (asked.asset.DetailAsset? ==> Some(reading.row.version) == asked.version)
    && match asked.asset
       case StepOutputAsset => reading.raw.Obj? && cfg.p.outputRaises(reading.raw.fields)
       case DetailAsset(action) => reading.raw.Obj? && cfg.p.detailRaises(action, reading.raw.fields)
       case TriggerAsset => !reading.raw.Obj? && !reading.raw.Str? && !reading.raw.Arr?
  }

  /** An exception escapes an access exactly when re-projecting what was read raises. */
  lemma UncaughtIffReprojectionRaises(
    cfg: Config, reading: Reading, asked: Asked, r: Result<Json, AccessError>, outcome: Outcome)
    requires Honest(cfg, reading, asked, r, outcome)
    ensures r == Failure(Uncaught) <==> ReprojectionRaises(cfg, reading, asked)
  {
  }

  /** The fault that the append to the log meets, when a call gets that far: nothing was refused before it, and a
      detail that projection takes from was vaulted. */
  function AppendFault(cfg: Config, flip: bool, w: World, req: Request): Option<Fault> {
    if flip && cfg.p.detailRaises(req.action, req.detail) then None
    else if !flip || !LosesDetail(cfg, req) then Some(NextFault(w.faults))
    else if req.instance.None? || req.instance.value !in w.db.instances then None
    else
      var org := w.db.instances[req.instance.value].org;
      var (after, recorded) := Recorded(cfg, w, DetailIdentity(org, req.instance.value, req.entryId), Obj(req.detail));
      if recorded.Failure? then None else Some(NextFault(after.faults))
  }

  ghost predicate Logged(w: World, id: string) {
    FindEntry(w.db.audit, id).Some?
  }

  lemma EntryIsLogged(w: World, entry: Entry)
    requires !Logged(w, entry.id)
    ensures var (after, outcome) := Appended(w, entry);
      && (Logged(after, entry.id) <==> !NextFault(w.faults).Lost?)
      && (outcome.Success? <==> NextFault(w.faults).Fine?)
      && forall id :: id != entry.id ==> (Logged(after, id) <==> Logged(w, id))
  {
    forall id ensures FindEntry(w.db.audit + [entry], id) ==
      if FindEntry(w.db.audit, id).Some? then FindEntry(w.db.audit, id) else FindEntry([entry], id)
    {
      FindEntryAppended(w.db.audit, [entry], id);
    }
    assert forall id :: FindEntry([entry], id) == if id == entry.id then Some(entry) else None;
  }

  lemma RowPutLogsNothing(cfg: Config, w: World, identity: Identity, payload: Json)
    ensures Recorded(cfg, w, identity, payload).0.db.audit == w.db.audit
  {
  }

  /** A call leaves its own entry in the log exactly when its append was not lost, and reports success exactly when
      nothing went wrong. */
  lemma CallIsLogged(cfg: Config, flip: bool, w: World, req: Request)
    requires !Logged(w, req.entryId)
    ensures var (after, outcome) := AppendCall(cfg, flip, w, req); var fault := AppendFault(cfg, flip, w, req);
      && (Logged(after, req.entryId) <==> fault.Some? && !fault.value.Lost?)
      && (outcome.Success? <==> fault == Some(Fine))
      && forall id :: id != req.entryId ==> (Logged(after, id) <==> Logged(w, id))
  {
    hide Appended, Recorded;
    var entry := EntryOf(cfg, flip, req);
    if flip && cfg.p.detailRaises(req.action, req.detail) {
      return;
    }
    if !flip || !LosesDetail(cfg, req) {
      EntryIsLogged(w, entry);
    } else if req.instance.Some? && req.instance.value in w.db.instances {
      var identity := DetailIdentity(w.db.instances[req.instance.value].org, req.instance.value, req.entryId);
      RowPutLogsNothing(cfg, w, identity, Obj(req.detail));
      EntryIsLogged(Recorded(cfg, w, identity, Obj(req.detail)).0, entry);
    }
  }

  /** In the log: the attempt is on record and its completion is not, exactly when the attempt was appended without its
      acknowledgement, when re-projecting what was read raises, or when the completion was refused or lost. */
  lemma AccessStaysOpenIff(
    cfg: Config, flip: bool, before: World, after: World, draw: Draw, asked: Asked, r: Result<Json, AccessError>,
    outcome: Outcome)
    requires FollowsProtocol(cfg, flip, before, after, draw, asked, r, outcome)
    requires r != Failure(NotRecorded) ==> Honest(cfg, ReadingAt(cfg, flip, before, draw, asked), asked, r, outcome)
    requires draw.attemptEntry != draw.completionEntry
    requires !Logged(before, draw.attemptEntry) && !Logged(before, draw.completionEntry)
    ensures var id := asked.identity;
      var attempt := AttemptOf(draw, asked.purpose, id.org, id.instance, id.attempt, id.kind);
      var looked := LookedAt(AtLookup(cfg, flip, before, draw, asked).0, id.Address());
      var begun := AppendFault(cfg, flip, before, attempt);
      var done := AppendFault(cfg, flip, looked, CompletionOf(draw, id.instance, outcome));
      Logged(after, draw.attemptEntry) && !Logged(after, draw.completionEntry) <==>
        || begun == Some(Unacknowledged)
        || (begun == Some(Fine) && ReprojectionRaises(cfg, ReadingAt(cfg, flip, before, draw, asked), asked))
        || (begun == Some(Fine) && (done == None || done == Some(Lost)))
  {
    hide AppendCall, AppendFault, Honest, ReprojectionRaises, ReadingOf;
    var id := asked.identity;
    CallIsLogged(cfg, flip, before, AttemptOf(draw, asked.purpose, id.org, id.instance, id.attempt, id.kind));
    var (attempted, recorded) := AtLookup(cfg, flip, before, draw, asked);
    if recorded.Success? {
      UncaughtIffReprojectionRaises(cfg, ReadingAt(cfg, flip, before, draw, asked), asked, r, outcome);
      CallIsLogged(cfg, flip, LookedAt(attempted, id.Address()), CompletionOf(draw, id.instance, outcome));
    }
  }

  class RawTraceRehydrator {
    const audit: AuditWriter
    const cfg: Config

    constructor (audit: AuditWriter)
      ensures this.audit == audit && this.cfg == audit.vault.cfg
    {
      this.audit := audit;
      this.cfg := audit.vault.cfg;
    }

    ghost predicate Ready()
      reads this, audit, audit.vault, audit.vault.repos
    {
      && cfg == audit.vault.cfg && (audit as object) != audit.vault.repos
      && audit.CacheAgrees(audit.vault.repos.db)
    }

    /** `_begin`: no raw access that is not on record first. */
    method Begin(draw: Draw, asked: Asked) returns (r: Result<(), AccessError>)
      requires Ready()
      modifies audit`orgCache, audit.vault.repos
      ensures Ready()
      ensures var (attempted, recorded) := AtLookup(cfg, audit.flip, old(audit.Now()), draw, asked);
        audit.Now() == attempted && r == if recorded.Success? then Success(()) else Failure(NotRecorded)
    {
      var id := asked.identity;
      var appended := audit.AppendEntry(AttemptOf(draw, asked.purpose, id.org, id.instance, id.attempt, id.kind));
      r := if appended.Success? then Success(()) else Failure(NotRecorded);
    }

    /** `_complete`: the completion is issued once; its own failure is swallowed. */
    method Complete(draw: Draw, instance: string, outcome: Outcome)
      requires Ready()
      modifies audit`orgCache, audit.vault.repos
      ensures Ready()
      ensures audit.Now() == AppendCall(cfg, audit.flip, old(audit.Now()), CompletionOf(draw, instance, outcome)).0
    {
      var _ := audit.AppendEntry(CompletionOf(draw, instance, outcome));
    }

    /** `_fetch_or_completed` and `_opened_or_completed`: a lookup or an opening that fails completes the
        access record before it is reported; a missing row is left to the caller. */
    method FetchAndOpen(draw: Draw, asked: Asked) returns (r: Result<Option<(Row, Json)>, AccessError>)
      requires Ready()
      modifies audit`orgCache, audit.vault.repos
      ensures Ready()
      ensures var key := asked.identity.Address(); var before := old(audit.Now());
        match ReadingOf(cfg, Found(before, key), asked.identity)
        case Unreadable =>
          && audit.Now() == AppendCall(cfg, audit.flip, LookedAt(before, key),
                                       CompletionOf(draw, asked.identity.instance, RetrievalFailed)).0
          && r == Failure(RawUnavailable)
        case Missing => audit.Now() == LookedAt(before, key) && r == Success(None)
        case Raw(row, raw) => audit.Now() == LookedAt(before, key) && r == Success(Some((row, raw)))
    {
      var found := audit.vault.repos.LookUp(asked.identity.Address());
      if found.Failure? {
        Complete(draw, asked.identity.instance, RetrievalFailed);
        return Failure(RawUnavailable);
      }
      if found.value.None? {
        return Success(None);
      }
      var payload := PayloadOf(cfg.cipher, found.value.value, asked.identity);
      if payload.Failure? {
        Complete(draw, asked.identity.instance, RetrievalFailed);
        return Failure(RawUnavailable);
      }
      return Success(Some((found.value.value, payload.value)));
    }

    /** The three `rehydrate_*` methods once raw is required: record, look up, open, verify, complete. */
    method AuditedRead(draw: Draw, asked: Asked) returns (r: Result<Json, AccessError>, ghost outcome: Outcome)
      requires Ready()
      modifies audit`orgCache, audit.vault.repos
      ensures Ready()
      ensures FollowsProtocol(cfg, audit.flip, old(audit.Now()), audit.Now(), draw, asked, r, outcome)
      ensures r != Failure(NotRecorded) ==>
        Honest(cfg, ReadingAt(cfg, audit.flip, old(audit.Now()), draw, asked), asked, r, outcome)
    {
      hide AppendCall, PayloadOf, AttemptOf, CompletionOf;
      outcome := RetrievalFailed;
      var begun := Begin(draw, asked);
      if begun.Failure? {
        return Failure(NotRecorded), outcome;
      }
      var read := FetchAndOpen(draw, asked);
      if read.Failure? {
        return Failure(RawUnavailable), outcome;
      }
      var verified := Verify(asked, read.value);
      outcome := verified.1;
      if verified.0 == Failure(Uncaught) {
        return Failure(Uncaught), outcome;
      }
      Complete(draw, asked.identity.instance, verified.1);
      r := verified.0;
    }

    /** The verdict on what was read, in the order the code takes it: a missing row, the stamps of entry
        and row, then re-projection. */
    function Verify(asked: Asked, read: Option<(Row, Json)>): (verdict: (Result<Json, AccessError>, Outcome))
      ensures verdict.0 != Failure(NotRecorded)
      ensures Honest(cfg, if read.None? then Missing else Raw(read.value.0, read.value.1), asked, verdict.0, verdict.1)
    {
      match read
      case None =>
        if NeverRedacted(asked) then (Success(Obj(asked.safe)), Succeeded)
          else (Failure(RawUnavailable), RetrievalFailed)
      case Some((row, raw)) =>
        if asked.asset.DetailAsset? && Some(row.version) != asked.version then
          (Failure(RawUnavailable), IntegrityFailed)
        else
          match Agreement(cfg, asked.asset, raw, asked.safe, asked.version)
          case Mismatch => (Failure(RawUnavailable), IntegrityFailed)
          case Agrees => (Success(Returned(asked, raw)), Succeeded)
          case Unsupported => (Success(Returned(asked, raw)), VersionUnsupported)
          case Raised => (Failure(Uncaught), RetrievalFailed)
    }

    /** `rehydrate_output` and `rehydrate_audit_detail`: without a stamp nothing was vaulted and the stored
        form is the raw, with no access at all. */
    method RehydrateStamped(draw: Draw, asked: Asked) returns (r: Result<Json, AccessError>, ghost outcome: Outcome)
      requires Ready() && !asked.asset.TriggerAsset?
      modifies audit`orgCache, audit.vault.repos
      ensures Ready()
      ensures asked.version.None? ==> r == Success(Obj(asked.safe)) && audit.Now() == old(audit.Now())
      ensures asked.version.Some? ==>
        && FollowsProtocol(cfg, audit.flip, old(audit.Now()), audit.Now(), draw, asked, r, outcome)
        && (r != Failure(NotRecorded) ==>
              Honest(cfg, ReadingAt(cfg, audit.flip, old(audit.Now()), draw, asked), asked, r, outcome))
    {
      outcome := Succeeded;
      if asked.version.None? {
        return Success(Obj(asked.safe)), outcome;
      }
      r, outcome := AuditedRead(draw, asked);
    }

    /** `rehydrate_trigger`: always under the protocol; the stamp is the instance's. */
    method RehydrateTrigger(draw: Draw, asked: Asked) returns (r: Result<Json, AccessError>, ghost outcome: Outcome)
      requires Ready() && asked.asset.TriggerAsset?
      modifies audit`orgCache, audit.vault.repos
      ensures Ready()
      ensures FollowsProtocol(cfg, audit.flip, old(audit.Now()), audit.Now(), draw, asked, r, outcome)
      ensures r != Failure(NotRecorded) ==>
        Honest(cfg, ReadingAt(cfg, audit.flip, old(audit.Now()), draw, asked), asked, r, outcome)
    {
      r, outcome := AuditedRead(draw, asked);
    }
  }
}

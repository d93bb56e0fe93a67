/** What the audit writer keeps over every run of appends, failures and retries with the flip on. */
module AuditRuns {
  import opened Wrappers
  import opened Json
  import opened Vault
  import opened Store
  import opened Policy
  import opened BackfillSpec
  import opened VaultWriter
  import opened AuditMigrationSpec
  import opened AuditWriting

  /** A stored entry gives back the raw detail of the request it was written for: unstamped it holds that
      detail; stamped it holds the projection, and the row under the entry's own key holds the detail. */
  ghost predicate Recoverable(cfg: Config, db: Database, e: Entry, req: Request) {
    && e == EntryOf(cfg, true, req)
    && if e.version.None? then e.detail == req.detail
       else
         && cfg.p.detail(req.action, req.detail) == e.detail
         && e.instance.Some? && e.instance.value in db.instances
         && var key := OwnIdentity(db, e).Address();
            key in db.vault &&
              SameWrite(db.vault[key], RowOf(cfg.cipher, cfg.p.version, OwnIdentity(db, e), Obj(req.detail)))
  }

  /** Projection takes something from this request, and its detail is empty: `_record` skips it. */
  predicate SkippedByVault(cfg: Config, req: Request) {
    req.detail == map[] && LosesDetail(cfg, req)
  }

  /** Under the projector in force the vault skips exactly the tool calls recorded with an empty detail. */
  lemma OnlyEmptyToolCallsAreSkipped(cfg: Config, policy: AuditProjection.AuditPolicy, req: Request)
    requires policy.flat.Container? && cfg.p == TraceProjector(policy)
    ensures SkippedByVault(cfg, req) <==> req.detail == map[] && req.action == AuditProjection.TOOL_CALL
  {
    EmptyDetailsStayEmpty(policy, req.action);
  }

  /** A successful append is recoverable exactly when the vault did not skip an empty detail that
      projection changes. */
  lemma AppendedIsRecoverable(cfg: Config, w: World, req: Request)
    requires AppendCall(cfg, true, w, req).1.Success?
    requires SkippedByVault(cfg, req) ==>
      (req.instance.Some? && req.instance.value in w.db.instances ==>
        DetailIdentity(w.db.instances[req.instance.value].org, req.instance.value, req.entryId)
          .Address() !in w.db.vault)
    ensures var after := AppendCall(cfg, true, w, req).0.db;
      Recoverable(cfg, after, EntryOf(cfg, true, req), req) <==> !SkippedByVault(cfg, req)
    ensures FindEntry(AppendCall(cfg, true, w, req).0.db.audit, req.entryId) == Some(EntryOf(cfg, true, req))
  {
    var (after, _) := AppendCall(cfg, true, w, req);
    var entry := EntryOf(cfg, true, req);
    FindEntryAppended(w.db.audit, [entry], req.entryId);
    FindEntryFinds(w.db.audit, req.entryId);
    assert FindEntry([entry], req.entryId) == Some(entry);
  }

  /** An entry without an instance from which projection would take something is refused before any write. */
  lemma InstanceLessRawWritesNothing(cfg: Config, w: World, req: Request)
    requires req.instance.None? && LosesDetail(cfg, req)
    ensures var (after, outcome) := AppendCall(cfg, true, w, req);
      after == w && outcome ==
        Failure(if cfg.p.detailRaises(req.action, req.detail) then UnreadableDetail else InstanceLessRaw)
  {
  }

  lemma PutAgain(vault: map<Key, Row>, fault: Fault, key: Key, row: Row)
    ensures var first := Settle(vault, fault, Put(vault, key, row)).0;
      var once, twice := Put(vault, key, row), Put(first, key, row);
      && once.Success? == twice.Success? && (once.Failure? ==> once.error == twice.error && first == vault)
      && (once.Success? ==> once.value.0 == twice.value.0)
  {
  }

  lemma AppendAgain(audit: seq<Entry>, fault: Fault, entry: Entry)
    ensures var first := Settle(audit, fault, Append(audit, entry)).0;
      var once, twice := Append(audit, entry), Append(first, entry);
      && once.Success? == twice.Success? && (once.Failure? ==> once.error == twice.error && first == audit)
      && (once.Success? ==> once.value.0 == twice.value.0)
  {
    FindEntryAppended(audit, [entry], entry.id);
    assert FindEntry([entry], entry.id) == Some(entry);
  }

  lemma RecordedAgain(cfg: Config, w: World, identity: Identity, payload: Json, later: seq<Fault>)
    requires Healthy(later)
    ensures var first := Recorded(cfg, w, identity, payload).0;
      var (once, outcome) := Recorded(cfg, w.(faults := later), identity, payload);
      var (twice, again) := Recorded(cfg, first.(faults := later), identity, payload);
      && twice.db == once.db && again == outcome && twice.faults == once.faults && Healthy(once.faults)
      && first.db.audit == w.db.audit && first.db.instances == w.db.instances
      && (Recorded(cfg, w, identity, payload).1.Success? ==> first.db == once.db && outcome.Success?)
  {
    if !Empty(payload) {
      PutAgain(w.db.vault, NextFault(w.faults), identity.Address(),
        RowOf(cfg.cipher, cfg.p.version, identity, payload));
    }
  }

  lemma AppendedAgain(w: World, entry: Entry, later: seq<Fault>)
    requires Healthy(later)
    ensures var first := Appended(w, entry).0;
      var (once, outcome) := Appended(w.(faults := later), entry);
      var (twice, again) := Appended(first.(faults := later), entry);
      twice.db == once.db && again == outcome && first.db.(audit := w.db.audit) == w.db
  {
    AppendAgain(w.db.audit, NextFault(w.faults), entry);
  }

  /** Driving the same write again after any failure gives what one undisturbed call gives: the same log,
      the same vault, no second row. */
  lemma RetryIsOneWrite(cfg: Config, w: World, req: Request, later: seq<Fault>)
    requires Healthy(later)
    ensures var first := AppendCall(cfg, true, w, req).0;
      var (once, outcome) := AppendCall(cfg, true, w.(faults := later), req);
      var (twice, again) := AppendCall(cfg, true, first.(faults := later), req);
      twice.db == once.db && again == outcome
  {
    hide Appended, Recorded;
    var entry := EntryOf(cfg, true, req);
    if !LosesDetail(cfg, req) {
      AppendedAgain(w, entry, later);
    } else if req.instance.Some? && req.instance.value in w.db.instances {
      RetryAfterVaulting(cfg, w, req, later);
    }
  }

  lemma RetryAfterVaulting(cfg: Config, w: World, req: Request, later: seq<Fault>)
    requires Healthy(later) && LosesDetail(cfg, req) && req.instance.Some? && req.instance.value in w.db.instances
    ensures var first := AppendCall(cfg, true, w, req).0;
      var (once, outcome) := AppendCall(cfg, true, w.(faults := later), req);
      var (twice, again) := AppendCall(cfg, true, first.(faults := later), req);
      twice.db == once.db && again == outcome
  {
    var entry := EntryOf(cfg, true, req);
    var id := DetailIdentity(w.db.instances[req.instance.value].org, req.instance.value, req.entryId);
    var payload := Obj(req.detail);
    var (recorded, outcome) := Recorded(cfg, w, id, payload);
    RecordedAgain(cfg, w, id, payload, later);
    if outcome.Success? {
      AppendedAgain(recorded, entry, later);
      RecordedTwice(cfg, w, id, payload, Appended(recorded, entry).0, later);
    }
  }

  /** Once recorded, recording again changes nothing, whatever was appended in between. */
  lemma RecordedTwice(cfg: Config, w: World, identity: Identity, payload: Json, now: World, later: seq<Fault>)
    requires Healthy(later) && Recorded(cfg, w, identity, payload).1.Success?
    requires now.db.vault == Recorded(cfg, w, identity, payload).0.db.vault
    ensures var (again, outcome) := Recorded(cfg, now.(faults := later), identity, payload);
      again.db == now.db && outcome.Success?
      && again.faults == Recorded(cfg, w.(faults := later), identity, payload).0.faults
  {
  }

  /** A run of appends, retries included, under one schedule of faults. */
  function Run(cfg: Config, w: World, reqs: seq<Request>): World
    decreases |reqs|
  {
    if reqs == [] then w else Run(cfg, AppendCall(cfg, true, w, reqs[0]).0, reqs[1..])
  }

  /** Nothing recorded is ever changed: the log grows at its end, the vault only gains rows. */
  ghost predicate Extends(a: Database, b: Database) {
    && b.instances == a.instances
    && |a.audit| <= |b.audit| && b.audit[..|a.audit|] == a.audit
    && forall key :: key in a.vault ==> key in b.vault && b.vault[key] == a.vault[key]
  }

  lemma RecordedExtends(cfg: Config, w: World, identity: Identity, payload: Json)
    ensures var (after, outcome) := Recorded(cfg, w, identity, payload);
      && Extends(w.db, after.db) && after.db.audit == w.db.audit
      && (WellRecorded(cfg, w.db.vault) ==> WellRecorded(cfg, after.db.vault))
      && (outcome.Success? && !Empty(payload) ==>
           identity.Address() in after.db.vault &&
           SameWrite(after.db.vault[identity.Address()], RowOf(cfg.cipher, cfg.p.version, identity, payload)))
  {
  }

  lemma AppendedExtends(w: World, entry: Entry)
    ensures var after := Appended(w, entry).0;
      && Extends(w.db, after.db) && after.db.vault == w.db.vault
      && (after.db.audit == w.db.audit || after.db.audit == w.db.audit + [entry])
  {
  }

  /** One call, whatever it reports, adds at most the entry of its request, and that entry is recoverable. */
  lemma CallIsLossless(cfg: Config, w: World, req: Request)
    requires !SkippedByVault(cfg, req)
    ensures var after := AppendCall(cfg, true, w, req).0; var entry := EntryOf(cfg, true, req);
      && Extends(w.db, after.db)
      && (WellRecorded(cfg, w.db.vault) ==> WellRecorded(cfg, after.db.vault))
      && (after.db.audit == w.db.audit ||
          (after.db.audit == w.db.audit + [entry] && Recoverable(cfg, after.db, entry, req)))
  {
    hide Appended, Recorded;
    var entry := EntryOf(cfg, true, req);
    if !LosesDetail(cfg, req) {
      AppendedExtends(w, entry);
    } else if req.instance.Some? && req.instance.value in w.db.instances {
      var id := DetailIdentity(w.db.instances[req.instance.value].org, req.instance.value, req.entryId);
      RecordedExtends(cfg, w, id, Obj(req.detail));
      AppendedExtends(Recorded(cfg, w, id, Obj(req.detail)).0, entry);
    }
  }

  lemma RecoverableLater(cfg: Config, a: Database, b: Database, e: Entry, req: Request)
    requires Extends(a, b) && Recoverable(cfg, a, e, req)
    ensures Recoverable(cfg, b, e, req)
  {
  }

  /** Entry `n` of the log is recoverable, and one of the requests wrote it. */
  ghost predicate WrittenBy(cfg: Config, db: Database, n: nat, reqs: seq<Request>)
    requires n < |db.audit|
  {
    exists i :: 0 <= i < |reqs| && Recoverable(cfg, db, db.audit[n], reqs[i])
  }

  /** At rest the log is lossless over every run: whatever failed, was retried or lost its acknowledgement,
      each entry the run stored gives back the raw detail of a request of the run. */
  lemma {:induction false} RunIsLossless(cfg: Config, w: World, reqs: seq<Request>)
    requires forall i :: 0 <= i < |reqs| ==> !SkippedByVault(cfg, reqs[i])
    requires WellRecorded(cfg, w.db.vault)
    ensures var final := Run(cfg, w, reqs).db;
      && Extends(w.db, final) && WellRecorded(cfg, final.vault)
      && forall n :: |w.db.audit| <= n < |final.audit| ==> WrittenBy(cfg, final, n, reqs)
    decreases |reqs|
  {
    if reqs != [] {
      var next := AppendCall(cfg, true, w, reqs[0]).0;
      var final := Run(cfg, w, reqs).db;
      CallIsLossless(cfg, w, reqs[0]);
      RunIsLossless(cfg, next, reqs[1..]);
      ExtendsTwice(w.db, next.db, final);
      forall n | |w.db.audit| <= n < |final.audit| ensures WrittenBy(cfg, final, n, reqs) {
        if n < |next.db.audit| {
          RecoverableLater(cfg, next.db, final, EntryOf(cfg, true, reqs[0]), reqs[0]);
          assert final.audit[n] == final.audit[..|next.db.audit|][n] == EntryOf(cfg, true, reqs[0]);
        } else {
          assert WrittenBy(cfg, final, n, reqs[1..]);
          var i :| 0 <= i < |reqs[1..]| && Recoverable(cfg, final, final.audit[n], reqs[1..][i]);
          assert reqs[1..][i] == reqs[i + 1];
        }
      }
    }
  }

  lemma ExtendsTwice(a: Database, b: Database, c: Database)
    requires Extends(a, b) && Extends(b, c)
    ensures Extends(a, c)
  {
    assert c.audit[..|a.audit|] == c.audit[..|b.audit|][..|a.audit|];
  }

  /** The vault row of a stamped entry opens, under the entry's own identity, to the request's raw detail. */
  lemma StampedEntryOpens(cfg: Config, db: Database, e: Entry, req: Request)
    requires Recoverable(cfg, db, e, req) && e.version.Some?
    requires AsRecorded(cfg.cipher, db.vault[OwnIdentity(db, e).Address()]) && Readable(cfg.cipher, Obj(req.detail))
    ensures PayloadOf(cfg.cipher, db.vault[OwnIdentity(db, e).Address()], OwnIdentity(db, e)) ==
      Success(Obj(req.detail))
  {
  }
}

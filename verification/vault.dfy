/** Vault identities, sealing and rows: trace_vault.py and trace_cipher.py, with ideal encryption and
    the strings that are hashed in place of their hashes. */
module Vault {
  import opened Wrappers
  import opened Json

  type Record = map<string, Json>

  datatype Kind = Output | Trigger | Error | AuditDetail
  {
    function Text(): string {
      match this
      case Output => "output"
      case Trigger => "trigger_payload"
      case Error => "error"
      case AuditDetail => "audit_detail"
    }
  }

  const INSTANCE_ANCHOR := "instance"
  const AUDIT_ANCHOR := "audit"
  const RAW_SCHEMA: nat := 1

  /** The address of a vault object. */
  datatype Key = AttemptKey(org: string, instance: string, anchor: string, kind: Kind)
               | AuditKey(org: string, instance: string, entry: string)

  /** `idempotency_key` before hashing: `step_attempt_id or "instance"`. */
  function KeyFor(org: string, instance: string, attempt: Option<string>, kind: Kind): Key {
    AttemptKey(org, instance, if attempt.Some? && attempt.value != "" then attempt.value else INSTANCE_ANCHOR, kind)
  }

  const NUL: char := '\0'

  function Spell(key: Key): string {
    match key
    case AttemptKey(org, instance, anchor, kind) => org + [NUL] + (instance + [NUL] + (anchor + [NUL] + kind.Text()))
    case AuditKey(org, instance, entry) => org + [NUL] + (instance + [NUL] + (AUDIT_ANCHOR + [NUL] + entry))
  }

  predicate NulFree(key: Key) {
    && NUL !in key.org && NUL !in key.instance
    && (key.AttemptKey? ==> NUL !in key.anchor)
    && (key.AuditKey? ==> NUL !in key.entry)
  }

  lemma {:induction false} FirstSeparator(x: string, y: string, u: string, v: string)
    requires NUL !in x && NUL !in u
    requires x + [NUL] + y == u + [NUL] + v
    ensures x == u && y == v
  {
    var whole := x + [NUL] + y;
    assert whole[|x|] == NUL && whole[|u|] == NUL;
    assert forall i :: 0 <= i < |x| ==> whole[i] == x[i];
    assert forall i :: 0 <= i < |u| ==> whole[i] == u[i];
    assert |x| == |u|;
    assert x == whole[..|x|] == u;
    assert y == whole[|x| + 1..] == v;
  }

  lemma KindTextsDiffer(a: Kind, b: Kind)
    ensures a.Text() == b.Text() ==> a == b
    ensures NUL !in a.Text()
  {
    assert "output"[0] == 'o' && "error"[0] == 'e';
  }

  /** The strings tell addresses apart, except that an attempt called `audit` shares its string with the audit entry
      named after the kind. */
  lemma AddressesCollideOnly(a: Key, b: Key)
    requires NulFree(a) && NulFree(b)
    ensures Spell(a) == Spell(b) <==>
      || a == b
      || (a.AttemptKey? && b.AuditKey? && a.anchor == AUDIT_ANCHOR && b == AuditKey(a.org, a.instance, a.kind.Text()))
      || (b.AttemptKey? && a.AuditKey? && b.anchor == AUDIT_ANCHOR && a == AuditKey(b.org, b.instance, b.kind.Text()))
  {
    if Spell(a) == Spell(b) {
      var (midA, endA) := if a.AttemptKey? then (a.anchor, a.kind.Text()) else (AUDIT_ANCHOR, a.entry);
      var (midB, endB) := if b.AttemptKey? then (b.anchor, b.kind.Text()) else (AUDIT_ANCHOR, b.entry);
      FirstSeparator(a.org, a.instance + [NUL] + (midA + [NUL] + endA),
        b.org, b.instance + [NUL] + (midB + [NUL] + endB));
      FirstSeparator(a.instance, midA + [NUL] + endA, b.instance, midB + [NUL] + endB);
      FirstSeparator(midA, endA, midB, endB);
      if a.AttemptKey? && b.AttemptKey? {
        KindTextsDiffer(a.kind, b.kind);
      }
    }
  }

  /** What the ciphertext is bound to: the associated data, and the organisation whose key seals it. */
  datatype Identity = Identity(
    org: string, instance: string, attempt: Option<string>, kind: Kind, schema: nat, entry: Option<string>)
  {
    function Address(): Key {
      if entry.Some? then AuditKey(org, instance, entry.value) else KeyFor(org, instance, attempt, kind)
    }
  }

  /** The attempt does not set the object apart from those of the instance. */
  predicate AtInstance(attempt: Option<string>) {
    attempt.None? || attempt.value == "" || attempt.value == INSTANCE_ANCHOR
  }

  predicate NoNul(id: Identity) {
    && NUL !in id.org && NUL !in id.instance
    && (id.attempt.Some? ==> NUL !in id.attempt.value)
    && (id.entry.Some? ==> NUL !in id.entry.value)
  }

  /** The strings behind the keys, before they are hashed, are equal exactly for equal components, for attempts that
      are absent, empty or called `instance`, and for an attempt called `audit` and the audit entry named after
      the kind. */
  lemma SpellingsCollideOnly(a: Identity, b: Identity)
    requires NoNul(a) && NoNul(b)
    ensures Spell(a.Address()) == Spell(b.Address()) <==>
      && a.org == b.org && a.instance == b.instance
      && match (a.entry, b.entry)
         case (Some(x), Some(y)) => x == y
         case (None, None) =>
           a.kind == b.kind && (a.attempt == b.attempt || (AtInstance(a.attempt) && AtInstance(b.attempt)))
         case (None, Some(y)) => a.attempt == Some(AUDIT_ANCHOR) && y == a.kind.Text()
         case (Some(x), None) => b.attempt == Some(AUDIT_ANCHOR) && x == b.kind.Text()
  {
    AddressesCollideOnly(a.Address(), b.Address());
    assert |INSTANCE_ANCHOR| != |AUDIT_ANCHOR|;
  }

  /** How the keys are spelled: four parts with a NUL between each two, the third one `instance` for what belongs to no
      attempt and `audit` for an audit entry. */
  lemma KeysAreSpelled(org: string, instance: string, attempt: Option<string>, kind: Kind, schema: nat, entry: string)
    ensures var anchor := if attempt.Some? && attempt.value != "" then attempt.value else "instance";
      var text := match kind
                  case Output => "output"
                  case Trigger => "trigger_payload"
                  case Error => "error"
                  case AuditDetail => "audit_detail";
      Spell(Identity(org, instance, attempt, kind, schema, None).Address()) ==
        org + ['\0'] + instance + ['\0'] + anchor + ['\0'] + text
    ensures Spell(Identity(org, instance, attempt, kind, schema, Some(entry)).Address()) ==
      org + ['\0'] + instance + ['\0'] + "audit" + ['\0'] + entry
  {
    var anchor := if attempt.Some? && attempt.value != "" then attempt.value else "instance";
    JoinsAlike(org, instance, anchor, kind.Text());
    JoinsAlike(org, instance, "audit", entry);
  }

  lemma JoinsAlike(a: string, b: string, c: string, d: string)
    ensures a + [NUL] + (b + [NUL] + (c + [NUL] + d)) == a + [NUL] + b + [NUL] + c + [NUL] + d
  {
  }

  /** `_aad` before it is serialized: the audit entry is named only when there is one. */
  function AssociatedData(id: Identity): map<string, Json> {
    var data := map[
      "org" := Str(id.org),
      "instance" := Str(id.instance),
      "attempt" := if id.attempt.Some? then Str(id.attempt.value) else Null,
      "kind" := Str(id.kind.Text()),
      "schema" := Int(id.schema)];
    if id.entry.Some? then data["audit_entry" := Str(id.entry.value)] else data
  }

  lemma AadKeysDiffer()
    ensures var names := ["org", "instance", "attempt", "kind", "schema", "audit_entry"];
      forall i, j :: 0 <= i < j < 6 ==> names[i] != names[j]
  {
    assert "org"[0] == 'o' && "instance"[0] == 'i' && "attempt"[0] == 'a' && "kind"[0] == 'k' && "schema"[0] == 's';
    assert |"attempt"| != |"audit_entry"|;
  }

  lemma AssociatedDataReads(id: Identity)
    ensures var data := AssociatedData(id);
      && {"org", "instance", "attempt", "kind", "schema"} <= data.Keys
      && data["org"] == Str(id.org) && data["instance"] == Str(id.instance)
      && data["attempt"] == (if id.attempt.Some? then Str(id.attempt.value) else Null)
      && data["kind"] == Str(id.kind.Text()) && data["schema"] == Int(id.schema)
      && Get(data, "audit_entry") == (if id.entry.Some? then Str(id.entry.value) else Null)
  {
    AadKeysDiffer();
  }

  /** The associated data tells every identity from every other. */
  lemma AssociatedDataBinds(a: Identity, b: Identity)
    ensures AssociatedData(a) == AssociatedData(b) <==> a == b
  {
    hide AssociatedData;
    AssociatedDataReads(a);
    AssociatedDataReads(b);
    if AssociatedData(a) == AssociatedData(b) {
      KindTextsDiffer(a.kind, b.kind);
    }
  }

  /** A stored payload: plain JSON, or an ideal ciphertext that opens only under the organisation's key it
      was sealed with and the associated data it was bound to. */
  datatype Stored = Clear(json: Json) | Sealed(master: nat, org: string, aad: map<string, Json>, plain: Json)

  function Seal(master: nat, identity: Identity, plain: Json): Stored {
    Sealed(master, identity.org, AssociatedData(identity), plain)
  }

  const ALGORITHM := "AESGCM-HKDF-1"

  /** `is_sealed_payload`: decided from the stored value alone. */
  predicate IsSealed(payload: Stored) {
    payload.Sealed? || (payload.json.Obj? && Get(payload.json.fields, "alg") == Str(ALGORITHM))
  }

  function Open(master: nat, payload: Stored, identity: Identity): Option<Json> {
    if payload.Sealed? && payload.master == master && payload.org == identity.org &&
      payload.aad == AssociatedData(identity)
    then Some(payload.plain) else None
  }

  datatype RowState = Reserved | StoredOnly | Referenced | Committed | Aborted

  datatype Row = Row(
    identity: Identity, state: RowState, version: string, payload: Stored, commitment: Option<Json>)

  /** The content a fingerprint compares: the commitment to the plaintext, or the stored payload of a row that was
      written before there were commitments. The digest of a payload is never the text of another. */
  datatype Content = Digest(plain: Json) | Text(payload: Stored)

  function ContentOf(row: Row): Content {
    match row.commitment
    case Some(plain) => Digest(plain)
    case None => Text(row.payload)
  }

  /** `vault_fingerprint`: identity and content. */
  predicate SameWrite(a: Row, b: Row) {
    a.identity == b.identity && a.version == b.version && ContentOf(a) == ContentOf(b)
  }

  /** The row `RawTraceVault._record` puts. */
  function RowOf(cipher: Option<nat>, version: string, identity: Identity, payload: Json): Row {
    Row(identity, Committed, version,
        if cipher.Some? then Seal(cipher.value, identity, payload) else Clear(payload), Some(payload))
  }

  datatype Unavailable = IdentityMismatch | NotCommitted | UnsupportedSchema | NoKey | Downgraded | Undecryptable

  /** `RawTraceRehydrator._payload_of`: the raw content, bound to the identity the caller asked for. */
  function PayloadOf(cipher: Option<nat>, row: Row, expected: Identity): Result<Json, Unavailable> {
    var want := expected.(schema := RAW_SCHEMA);
    if row.identity.(schema := RAW_SCHEMA) != want then Failure(IdentityMismatch)
    else if row.state != Committed then Failure(NotCommitted)
    else if row.identity.schema != RAW_SCHEMA then Failure(UnsupportedSchema)
    else if IsSealed(row.payload) && cipher.None? then Failure(NoKey)
    else if cipher.Some? then
      if !IsSealed(row.payload) then Failure(Downgraded)
      else match Open(cipher.value, row.payload, want)
        case Some(plain) => Success(plain)
        case None => Failure(Undecryptable)
    else Success(row.payload.json)
  }

  /** Under encryption a row yields a payload exactly when it is committed, names the identity asked for, and holds that
      very payload sealed for it under the key in force: plaintext is refused. */
  lemma SealedOpensIff(master: nat, row: Row, expected: Identity, payload: Json)
    requires expected.schema == 1
    ensures PayloadOf(Some(master), row, expected) == Success(payload) <==>
      && row.identity == expected && row.state == Committed
      && row.payload == Seal(master, expected, payload)
  {
    hide AssociatedData;
  }

  /** Without a key it yields the stored plaintext, and an envelope never. */
  lemma ClearOpensIff(row: Row, expected: Identity, payload: Json)
    requires expected.schema == 1
    ensures PayloadOf(None, row, expected) == Success(payload) <==>
      && row.identity == expected && row.state == Committed
      && row.payload == Clear(payload)
      && !(payload.Obj? && "alg" in payload.fields && payload.fields["alg"] == Str("AESGCM-HKDF-1"))
  {
  }

  /** The row is as `_record` wrote it under the cipher in force, or a plaintext row from before there were
      commitments. */
  predicate AsRecorded(cipher: Option<nat>, row: Row) {
    match row.commitment
    case Some(plain) => row == RowOf(cipher, row.version, row.identity, plain)
    case None => row.payload.Clear?
  }

  /** A plaintext payload that is not shaped like a sealed envelope. */
  predicate Readable(cipher: Option<nat>, payload: Json) {
    cipher.Some? || !IsSealed(Clear(payload))
  }

  /** Reading back what was recorded gives the payload exactly when it could not be taken for an envelope. */
  lemma RecordedReadsBack(cipher: Option<nat>, version: string, identity: Identity, payload: Json)
    requires identity.schema == RAW_SCHEMA
    ensures PayloadOf(cipher, RowOf(cipher, version, identity, payload), identity) == Success(payload) <==>
      Readable(cipher, payload)
  {
  }

  /** The fingerprint of a row without a commitment is its payload, and that of a new row never is: what was written
      before there were commitments is the same write as nothing `_record` writes. */
  lemma LegacyRowIsNeverTheSameWrite(
    cipher: Option<nat>, row: Row, version: string, identity: Identity, payload: Json)
    requires row.identity == identity && row.version == version && row.payload == Clear(payload)
    ensures SameWrite(row, RowOf(cipher, version, identity, payload)) <==> row.commitment == Some(payload)
  {
  }

  /** A vault that took a write, or already held the same, gives the payload back. */
  lemma SameWriteReadsBack(cipher: Option<nat>, row: Row, version: string, identity: Identity, payload: Json)
    requires AsRecorded(cipher, row) && SameWrite(row, RowOf(cipher, version, identity, payload))
    requires identity.schema == RAW_SCHEMA
    ensures PayloadOf(cipher, row, identity) == Success(payload) <==> Readable(cipher, payload)
  {
    RecordedReadsBack(cipher, version, identity, payload);
  }

  /** With encryption on, a row yields raw content only for the identity its ciphertext was sealed under,
      however its columns were rewritten; and what it yields is what was sealed. */
  lemma RelabelledRowNeverOpens(master: nat, row: Row, expected: Identity, value: Json, sealedAs: Identity, plain: Json)
    requires expected.schema == RAW_SCHEMA && row.payload == Seal(master, sealedAs, plain)
    requires PayloadOf(Some(master), row, expected) == Success(value)
    ensures sealedAs == expected && row.identity == expected && value == plain
  {
    hide AssociatedData;
    AssociatedDataBinds(sealedAs, expected);
  }

  /** A row holding another row's ciphertext opens neither under its own identity nor under the other's. */
  lemma SubstitutionNeverOpens(master: nat, a: Identity, b: Identity, pa: Json, pb: Json, version: string)
    requires a != b && a.schema == b.schema == RAW_SCHEMA
    ensures var rowA := RowOf(Some(master), version, a, pa); var rowB := RowOf(Some(master), version, b, pb);
      && PayloadOf(Some(master), rowA.(payload := rowB.payload), a).Failure?
      && PayloadOf(Some(master), rowA.(payload := rowB.payload), b).Failure?
  {
    hide AssociatedData;
    AssociatedDataBinds(a, b);
  }
}

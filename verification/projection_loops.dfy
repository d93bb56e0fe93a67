/** The loops of trace_projection.py, proved against the functions of the other modules. */
module ProjectionLoops {
  import opened Wrappers
  import opened Json
  import opened Validators
  import opened ToolCall
  import opened Projection
  import opened ProjectionTheorems
  import opened AuditProjection

  /** Python's `AttributeError` and `TypeError` on a tool call that cannot be read, or its `OverflowError` on an
      amount; and the refusal of an asset kind no schema is declared for. */
  datatype ProjectionError = Unreadable | UnknownKind

  /** `_project`, filling `out` and the `withheld` flag entry by entry; it raises exactly when some
      visited tool call or amount cannot be read. */
  method ProjectValue(node: Node, v: Json, vocab: Vocabulary) returns (r: Result<Json, ProjectionError>)
    ensures r == if Raises(node, v) then Failure(Unreadable) else Success(Project(node, v, vocab))
    decreases v, 1
  {
    if v.Null? {
      return Success(Null);
    }
    match node {
      case Undeclared =>
        return Success(Str(REDACTED_FIELD));
      case Leaf(validate, _) =>
        if node.Overflows(v) {
          return Failure(Unreadable);
        }
        return Success(if validate(v) then v else Str(REDACTED_FIELD));
      case TriggerPayload =>
        return Success(if v.Obj? then Obj(TriggerRouting(v.fields)) else Str(REDACTED_FIELD));
      case ToolCalls(dumped) =>
        if !v.Arr? {
          return Success(Str(REDACTED_FIELD));
        }
        r := ProjectCalls(v.items, dumped);
      case Listing(item) =>
        if !v.Arr? {
          return Success(Str(REDACTED_FIELD));
        }
        r := ProjectItems(item, v, vocab);
      case Container(_, _, _, _, _) =>
        if !v.Obj? {
          return Success(Str(REDACTED_FIELD));
        }
        r := ProjectObject(node, v, vocab);
    }
  }

  /** `safe_trigger_payload` without its loop over the three routing keys. */
  function TriggerRouting(payload: map<string, Json>): (safe: map<string, Json>)
    ensures safe == SafeTriggerPayload(payload)
  {
    var safe := map["_redacted" := Str(REDACTED_TRIGGER)];
    var safe := if "message_id" in payload then safe["message_id" := Str(REDACTED_FIELD)] else safe;
    var safe := if "thread_id" in payload then safe["thread_id" := Str(REDACTED_FIELD)] else safe;
    if "id" in payload then safe["id" := Str(REDACTED_FIELD)] else safe
  }

  method ProjectCalls(calls: seq<Json>, dumped: Json -> nat) returns (r: Result<Json, ProjectionError>)
    ensures var node := ToolCalls(dumped);
      r == if Raises(node, Arr(calls)) then Failure(Unreadable) else Success(Project(node, Arr(calls), map[]))
  {
    var out: seq<Json> := [];
    for i := 0 to |calls|
      invariant out == seq(i, j requires 0 <= j < i => ProjectCall(calls[j], dumped))
      invariant forall j :: 0 <= j < i && calls[j].Obj? ==> !Malformed(calls[j].fields)
    {
      if calls[i].Obj? && Malformed(calls[i].fields) {
        assert Arr(calls).items[i] == calls[i];
        return Failure(Unreadable);
      }
      out := out + [ProjectCall(calls[i], dumped)];
    }
    return Success(Arr(out));
  }

  method ProjectItems(item: Node, v: Json, vocab: Vocabulary) returns (r: Result<Json, ProjectionError>)
    requires v.Arr?
    ensures var node := Listing(item);
      r == if Raises(node, v) then Failure(Unreadable) else Success(Project(node, v, vocab))
    decreases v, 0
  {
    var out: seq<Json> := [];
    for i := 0 to |v.items|
      invariant |out| == i
      invariant forall j :: 0 <= j < i ==> out[j] == Project(item, v.items[j], vocab)
      invariant forall j :: 0 <= j < i ==> !Raises(item, v.items[j])
    {
      var projected := ProjectValue(item, v.items[i], vocab);
      if projected.Failure? {
        return projected;
      }
      out := out + [projected.value];
    }
    assert Arr(out) == Project(Listing(item), v, vocab);
    return Success(Arr(out));
  }

  method ProjectObject(node: Node, v: Json, vocab: Vocabulary) returns (r: Result<Json, ProjectionError>)
    requires node.Container? && v.Obj?
    ensures r == if Raises(node, v) then Failure(Unreadable) else Success(Project(node, v, vocab))
    decreases v, 0
  {
    var out: map<string, Json> := map[];
    var withheld := false;
    var todo := v.fields.Keys;
    while todo != {}
      invariant todo <= v.fields.Keys
      invariant out == EmittedSoFar(node, v.fields, vocab, v.fields.Keys - todo)
      invariant withheld == WithheldSoFar(node, v.fields, vocab, v.fields.Keys - todo)
      invariant !RaisesSoFar(node, v.fields, v.fields.Keys - todo)
      decreases |todo|
    {
      var k :| k in todo;
      var entry := ProjectField(node, k, v.fields[k], vocab);
      if entry.Failure? {
        assert Raises(node, v);
        return Failure(entry.error);
      }
      ghost var before := v.fields.Keys - todo;
      todo := todo - {k};
      assert v.fields.Keys - todo == before + {k};
      OneMoreEntry(node, v.fields, vocab, before, k);
      match entry.value {
        case Emit(value) => out := out[k := value];
        case Withhold => withheld := true;
        case Skip =>
      }
    }
    assert v.fields.Keys - todo == v.fields.Keys;
    AllEntries(node, v.fields, vocab);
    if withheld {
      out := out[WITHHELD := Bool(true)];
    }
    return Success(Obj(out));
  }

  predicate EntryRaises(node: Node, k: string, v: Json)
    requires node.Container?
  {
    var slot := SlotOf(node, k, map[]);
    slot.At? && Raises(slot.node, v)
  }

  /** The body of the object loop: where one key goes. */
  method ProjectField(node: Node, k: string, value: Json, vocab: Vocabulary) returns (r: Result<Entry, ProjectionError>)
    requires node.Container?
    ensures r == if EntryRaises(node, k, value) then Failure(Unreadable)
                 else Success(ProjectEntry(node, k, value, vocab))
    decreases value, 2
  {
    var child := Undeclared;
    if k == WITHHELD_LEGACY {
      return Success(if value.Null? then Skip else Withhold);
    } else if k == WITHHELD {
      return Success(if value == Bool(true) then Emit(value) else Withhold);
    } else if k in node.children {
      if node.WithholdsChild(k) {
        return Success(Withhold);
      }
      child := node.children[k];
    } else if !SafeKey(k) {
      return Success(Withhold);
    } else if !node.wildcard.Undeclared? && node.platformKeys {
      child := node.wildcard;
    } else if node.stepOutput && k in vocab && VocabMember(vocab[k], value) {
      return Success(Emit(value));
    } else {
      return Success(Withhold);
    }
    var projected := ProjectValue(child, value, vocab);
    if projected.Failure? {
      return Failure(projected.error);
    }
    return Success(Emit(projected.value));
  }

  ghost function EmittedSoFar(node: Node, fields: map<string, Json>, vocab: Vocabulary,
    done: set<string>): map<string, Json>
    requires node.Container? && done <= fields.Keys
  {
    map k | k in done && ProjectEntry(node, k, fields[k], vocab).Emit? :: ProjectEntry(node, k, fields[k], vocab).value
  }

  ghost predicate WithheldSoFar(node: Node, fields: map<string, Json>, vocab: Vocabulary, done: set<string>)
    requires node.Container? && done <= fields.Keys
  {
    exists k :: k in done && ProjectEntry(node, k, fields[k], vocab).Withhold?
  }

  ghost predicate RaisesSoFar(node: Node, fields: map<string, Json>, done: set<string>)
    requires node.Container? && done <= fields.Keys
  {
    exists k :: k in done && EntryRaises(node, k, fields[k])
  }

  lemma OneMoreEntry(node: Node, fields: map<string, Json>, vocab: Vocabulary, done: set<string>, k: string)
    requires node.Container? && done <= fields.Keys && k in fields
    ensures var entry := ProjectEntry(node, k, fields[k], vocab);
      && EmittedSoFar(node, fields, vocab, done + {k}) ==
           (if entry.Emit? then EmittedSoFar(node, fields, vocab, done)[k := entry.value]
            else EmittedSoFar(node, fields, vocab, done) - {k})
      && (k !in done && !entry.Emit? ==>
           EmittedSoFar(node, fields, vocab, done + {k}) == EmittedSoFar(node, fields, vocab, done))
      && (WithheldSoFar(node, fields, vocab, done + {k}) <==>
        WithheldSoFar(node, fields, vocab, done) || entry.Withhold?)
      && (RaisesSoFar(node, fields, done + {k}) <==> RaisesSoFar(node, fields, done) || EntryRaises(node, k, fields[k]))
  {
  }

  lemma AllEntries(node: Node, fields: map<string, Json>, vocab: Vocabulary)
    requires node.Container?
    ensures Project(node, Obj(fields), vocab) ==
      Obj(Flagged(EmittedSoFar(node, fields, vocab, fields.Keys), WithheldSoFar(node, fields, vocab, fields.Keys)))
    ensures Raises(node, Obj(fields)) <==> RaisesSoFar(node, fields, fields.Keys)
  {
    assert EmittedSoFar(node, fields, vocab, fields.Keys) ==
      map k | k in fields && ProjectEntry(node, k, fields[k], vocab).Emit? ::
        ProjectEntry(node, k, fields[k], vocab).value;
  }

  /** `_project_by_rules` */
  method ProjectDetailByRules(detail: map<string, Json>, rules: Rules)
    returns (r: Result<map<string, Json>, ProjectionError>)
    ensures r == if RuleRaisesSoFar(detail, rules, detail.Keys) then Failure(Unreadable)
                 else Success(ProjectByRules(detail, rules))
  {
    var out: map<string, Json> := map[];
    var withheld := false;
    var todo := detail.Keys;
    while todo != {}
      invariant todo <= detail.Keys
      invariant out == DisclosedSoFar(detail, rules, detail.Keys - todo)
      invariant withheld == UndisclosedSoFar(rules, detail.Keys - todo)
      invariant !RuleRaisesSoFar(detail, rules, detail.Keys - todo)
      decreases |todo|
    {
      var key :| key in todo;
      ghost var before := detail.Keys - todo;
      todo := todo - {key};
      assert detail.Keys - todo == before + {key};
      OneMoreRule(detail, rules, before, key);
      if !(key in rules && rules[key].disclose) {
        withheld := true;
      } else {
        var projected := ProjectValue(rules[key].node, detail[key], map[]);
        if projected.Failure? {
          assert key in detail.Keys;
          return Failure(projected.error);
        }
        if projected.value != detail[key] {
          out := out[key := projected.value];
        } else {
          out := out[key := detail[key]];
        }
      }
    }
    assert detail.Keys - todo == detail.Keys;
    AllRules(detail, rules);
    if withheld {
      out := out[WITHHELD := Bool(true)];
    }
    return Success(out);
  }

  ghost function DisclosedSoFar(detail: map<string, Json>, rules: Rules, done: set<string>): map<string, Json>
    requires done <= detail.Keys
  {
    map k | k in done && Disclosed(rules, k) :: Project(rules[k].node, detail[k], map[])
  }

  ghost predicate UndisclosedSoFar(rules: Rules, done: set<string>) {
    exists k :: k in done && !Disclosed(rules, k)
  }

  /** Some disclosed field holds a tool call or an amount that cannot be read. */
  ghost predicate RuleRaisesSoFar(detail: map<string, Json>, rules: Rules, done: set<string>)
    requires done <= detail.Keys
  {
    exists k :: k in done && Disclosed(rules, k) && Raises(rules[k].node, detail[k])
  }

  lemma OneMoreRule(detail: map<string, Json>, rules: Rules, done: set<string>, k: string)
    requires done <= detail.Keys && k in detail
    ensures Disclosed(rules, k) ==>
      DisclosedSoFar(detail, rules, done + {k}) ==
        DisclosedSoFar(detail, rules, done)[k := Project(rules[k].node, detail[k], map[])]
    ensures !Disclosed(rules, k) ==> DisclosedSoFar(detail, rules, done + {k}) == DisclosedSoFar(detail, rules, done)
    ensures UndisclosedSoFar(rules, done + {k}) <==> UndisclosedSoFar(rules, done) || !Disclosed(rules, k)
    ensures RuleRaisesSoFar(detail, rules, done + {k}) <==>
      RuleRaisesSoFar(detail, rules, done) || (Disclosed(rules, k) && Raises(rules[k].node, detail[k]))
  {
  }

  lemma AllRules(detail: map<string, Json>, rules: Rules)
    ensures ProjectByRules(detail, rules) ==
      Flagged(DisclosedSoFar(detail, rules, detail.Keys), UndisclosedSoFar(rules, detail.Keys))
  {
    assert DisclosedSoFar(detail, rules, detail.Keys) ==
      map k | k in detail && Disclosed(rules, k) :: Project(rules[k].node, detail[k], map[]);
  }

  const RESERVED_FIELDS: set<string> :=
    {WITHHELD, WITHHELD_LEGACY, "_redacted", "projector_version", "projection_schema_version"}

  /** The members of a declared value list that are short tokens. */
  function Members(values: Json): set<string> {
    if values.Arr? then set j | j in values.items && ShortToken(j) :: j.s else {}
  }

  /** A declaration the projector accepts. */
  predicate Acceptable(name: string, values: Json) {
    && SafeKey(name) && name !in RESERVED_FIELDS
    && values.Arr? && Members(values) != {} && |Members(values)| <= MAX_VOCAB_VALUES
  }

  /** The accepted part of the first `n` entries of a declaration. */
  function Normalized(declared: seq<(string, Json)>, n: nat): Vocabulary
    requires n <= |declared|
  {
    if n == 0 then map[]
    else
      var (name, values) := declared[n - 1];
      var rest := Normalized(declared, n - 1);
      if Acceptable(name, values) then rest[name := Members(values)] else rest
  }

  predicate DistinctNames(declared: seq<(string, Json)>) {
    forall i, j :: 0 <= i < j < |declared| ==> declared[i].0 != declared[j].0
  }

  lemma {:induction false} NormalizedIsBounded(declared: seq<(string, Json)>, n: nat)
    requires n <= |declared|
    ensures |Normalized(declared, n)| <= n
    ensures forall k :: k in Normalized(declared, n) ==> exists i :: 0 <= i < n && declared[i].0 == k
  {
    if n > 0 {
      NormalizedIsBounded(declared, n - 1);
      var (name, values) := declared[n - 1];
      var rest := Normalized(declared, n - 1);
      assert rest[name := Members(values)].Keys == rest.Keys + {name};
    }
  }

  /** Each accepted entry releases exactly its own tokens under its own name; a rejected one releases nothing. */
  lemma {:induction false} NormalizedIsTheAcceptablePart(declared: seq<(string, Json)>, n: nat, i: nat)
    requires i < n <= |declared| && DistinctNames(declared)
    ensures var out := Normalized(declared, n); var (name, values) := declared[i];
      && (name in out <==> Acceptable(name, values))
      && (name in out ==> out[name] == Members(values))
  {
    hide Acceptable, Members;
    if i < n - 1 {
      NormalizedIsTheAcceptablePart(declared, n - 1, i);
      assert declared[i].0 != declared[n - 1].0;
    } else {
      NormalizedIsBounded(declared, n - 1);
    }
  }

  /** What a normalized vocabulary releases is a short token, never under a reserved or hostile name. */
  lemma {:induction false} NormalizedReleasesTokens(declared: seq<(string, Json)>, n: nat, k: string, s: string)
    requires n <= |declared|
    requires k in Normalized(declared, n) && s in Normalized(declared, n)[k]
    ensures TokenText(s) && SafeKey(k) && k !in RESERVED_FIELDS
  {
    if !(Acceptable(declared[n - 1].0, declared[n - 1].1) && k == declared[n - 1].0) {
      NormalizedReleasesTokens(declared, n - 1, k, s);
    }
  }

  /** How many entries of a declaration are read at all. */
  function Consulted(declared: seq<(string, Json)>): nat {
    if |declared| < MAX_VOCAB_FIELDS then |declared| else MAX_VOCAB_FIELDS
  }

  /** The words of a declared list: its short tokens, each once. */
  function Words(values: Json): set<string> {
    if values.Arr? then set v | v in values.items && v.Str? && TokenText(v.s) :: v.s else {}
  }

  /** What a declaration releases: of its first eight entries those under a token that is none of the five names of the
      projector, with a list of at least one and at most 32 words, and then exactly these words. */
  lemma ReleasedIff(declared: seq<(string, Json)>, i: nat)
    requires i < |declared| && DistinctNames(declared)
    ensures var out := Normalized(declared, Consulted(declared)); var (name, values) := declared[i];
      && (name in out <==>
            && i < 8 && TokenText(name) && 1 <= |Words(values)| <= 32
            && name !in {"_withheld_keys", "_withheld_key_count", "_redacted", "projector_version",
                         "projection_schema_version"})
      && (name in out ==> out[name] == Words(values))
  {
    hide Acceptable, Members, Words, Normalized;
    var (name, values) := declared[i];
    AcceptableIff(name, values);
    if i < Consulted(declared) {
      NormalizedIsTheAcceptablePart(declared, Consulted(declared), i);
    } else {
      NormalizedIsBounded(declared, Consulted(declared));
    }
  }

  lemma AcceptableIff(name: string, values: Json)
    ensures Acceptable(name, values) <==>
      && TokenText(name) && 1 <= |Words(values)| <= 32
      && name !in {"_withheld_keys", "_withheld_key_count", "_redacted", "projector_version",
                   "projection_schema_version"}
    ensures Words(values) == Members(values)
  {
    hide TokenText;
    WordsAreMembers(values);
  }

  lemma WordsAreMembers(values: Json)
    ensures Words(values) == Members(values)
    ensures Words(values) != {} <==> |Words(values)| >= 1
  {
  }

  /** `_normalize_vocabulary` on the items of a declaration, in order: whatever is malformed or beyond
      the eighth entry is dropped. */
  method NormalizeVocabulary(declared: seq<(string, Json)>) returns (out: Vocabulary)
    ensures out == Normalized(declared, Consulted(declared))
  {
    out := map[];
    var last := Consulted(declared);
    for i := 0 to last
      invariant out == Normalized(declared, i)
    {
      var (name, values) := declared[i];
      if !SafeKey(name) || name in RESERVED_FIELDS || !values.Arr? {
        continue;
      }
      var members := Members(values);
      if members == {} || |members| > MAX_VOCAB_VALUES {
        continue;
      }
      out := out[name := members];
    }
  }

  /** `redact_tool_data`: a raw reader sees everything, an undeclared asset kind is refused, and any
      other reader gets the projection under the kind's schema and the normalized vocabulary. */
  method RedactToolData(schemas: map<string, Node>, v: Json, admin: bool, kind: string, declared: seq<(string, Json)>)
    returns (r: Result<Json, ProjectionError>, ghost vocab: Vocabulary)
    ensures admin || !v.Obj? ==> r == Success(v)
    ensures !admin && v.Obj? && kind in schemas ==> vocab == Normalized(declared, Consulted(declared))
    ensures !admin && v.Obj? ==>
      (kind !in schemas ==> r == Failure(UnknownKind)) &&
      (kind in schemas ==>
         && r == (if Raises(schemas[kind], v) then Failure(Unreadable) else Success(Project(schemas[kind], v, vocab)))
         && (Fits(schemas[kind], v) && !Raises(schemas[kind], v) ==> r.Success? && Safe(schemas[kind], r.value, vocab))
         && (r.Success? && !HasMarker(r.value) ==> (r.value == v <==> !LosesNullCount(schemas[kind], v, vocab))))
  {
    vocab := map[];
    if admin || !v.Obj? {
      return Success(v), vocab;
    }
    if kind !in schemas {
      return Failure(UnknownKind), vocab;
    }
    var released := NormalizeVocabulary(declared);
    vocab := released;
    r := ProjectValue(schemas[kind], v, released);
    if r.Success? {
      LandsIffFits(schemas[kind], v, released);
      if !HasMarker(r.value) {
        MarkerFreeIsUnchanged(schemas[kind], v, released);
      }
    }
  }
}

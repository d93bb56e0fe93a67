/** What the projection guarantees: it lands in the safe language, leaves exactly that language alone,
    and signals every loss. */
module ProjectionTheorems {
  import opened Wrappers
  import opened Json
  import opened Validators
  import opened ToolCall
  import opened Projection

  /** `out` is the projection of the object `fields`, key by key. */
  ghost predicate EntriesOf(node: Node, fields: map<string, Json>, vocab: Vocabulary, out: map<string, Json>)
    requires node.Container?
  {
    && (forall k :: k in out && k != WITHHELD ==>
          k in fields && ProjectEntry(node, k, fields[k], vocab) == Emit(out[k]))
    && (forall k :: k in fields && ProjectEntry(node, k, fields[k], vocab).Emit? ==> k in out)
    && (WITHHELD in out ==> out[WITHHELD] == Bool(true))
    && (WITHHELD in out <==>
          WITHHELD in fields || exists k :: k in fields && ProjectEntry(node, k, fields[k], vocab).Withhold?)
  }

  lemma FieldsOf(node: Node, fields: map<string, Json>, vocab: Vocabulary)
    requires node.Container?
    ensures Project(node, Obj(fields), vocab).Obj?
    ensures EntriesOf(node, fields, vocab, Project(node, Obj(fields), vocab).fields)
  {
  }

  /** The schema shows the key: a declared child that is not withheld, or under a safe name an entry of a platform
      wildcard or a value of the released vocabulary. */
  predicate Shown(node: Node, k: string, v: Json, vocab: Vocabulary)
    requires node.Container?
  {
    if k in node.children then !(k in node.owners && node.owners[k] == Business && k != "parse_ok")
    else if node.platformKeys && !node.wildcard.Undeclared? then TokenText(k)
    else TokenText(k) && node.stepOutput && k in vocab && VocabMember(vocab[k], v)
  }

  /** What a projected object keeps: exactly the shown keys, a child or a wildcard entry as its own projection and a
      released value as it is; and the flag says exactly whether some other key was there. */
  lemma ObjectKeepsExactly(node: Node, fields: map<string, Json>, vocab: Vocabulary)
    requires node.Container?
    ensures Project(node, Obj(fields), vocab).Obj?
    ensures var out := Project(node, Obj(fields), vocab).fields;
      && (forall k :: k != "_withheld_keys" && k != "_withheld_key_count" ==>
            (k in out <==> k in fields && Shown(node, k, fields[k], vocab)))
      && (forall k :: k in out && k != "_withheld_keys" ==>
            out[k] == if k in node.children then Project(node.children[k], fields[k], vocab)
                      else if node.platformKeys && !node.wildcard.Undeclared? then
                        Project(node.wildcard, fields[k], vocab)
                      else fields[k])
      && "_withheld_key_count" !in out
      && ("_withheld_keys" in out <==>
            || "_withheld_keys" in fields
            || ("_withheld_key_count" in fields && !fields["_withheld_key_count"].Null?)
            || exists k :: k in fields && k != "_withheld_keys" && k != "_withheld_key_count" && k !in out)
      && ("_withheld_keys" in out ==> out["_withheld_keys"] == Bool(true))
  {
    hide Project;
    FieldsOf(node, fields, vocab);
    var out := Project(node, Obj(fields), vocab).fields;
    assert |WITHHELD| != |WITHHELD_LEGACY|;
    forall k | k in fields && k != WITHHELD && k != WITHHELD_LEGACY
      ensures k in out <==> Shown(node, k, fields[k], vocab)
      ensures k !in out <==> ProjectEntry(node, k, fields[k], vocab).Withhold?
    {
    }
  }

  /** A projected list keeps its length and its order, each item the projection of the item in its place. */
  lemma ListKeepsItems(item: Node, items: seq<Json>, vocab: Vocabulary)
    ensures var out := Project(Listing(item), Arr(items), vocab);
      && out.Arr? && |out.items| == |items|
      && forall i :: 0 <= i < |items| ==> out.items[i] == Project(item, items[i], vocab)
  {
  }

  /** So does a list of tool calls: each becomes its own record, and what is no record a marker. */
  lemma CallsKeepTheirPlaces(dumped: Json -> nat, calls: seq<Json>, vocab: Vocabulary)
    ensures var out := Project(ToolCalls(dumped), Arr(calls), vocab);
      && out.Arr? && |out.items| == |calls|
      && forall i :: 0 <= i < |calls| ==>
           out.items[i] ==
             if calls[i].Obj? then Obj(SafeToolCall(calls[i].fields, None, dumped)) else Str(REDACTED_FIELD)
  {
  }

  /** Projection reaches the safe language of the position exactly when every tool-call content it
      visited is below the size limit. */
  lemma {:induction false} LandsIffFits(node: Node, v: Json, vocab: Vocabulary)
    ensures Safe(node, Project(node, v, vocab), vocab) <==> Fits(node, v)
    decreases v, 0
  {
    match node
    case ToolCalls(dumped) =>
      if v.Arr? {
        var out := Project(node, v, vocab);
        forall i | 0 <= i < |v.items|
          ensures out.items[i] == Str(REDACTED_FIELD) || (out.items[i].Obj? && SafeCall(out.items[i].fields, None))
            <==> (v.items[i].Obj? ==> CallFits(v.items[i].fields, dumped))
        {
          if v.items[i].Obj? {
            CallLandsIffFits(v.items[i].fields, None, dumped);
          }
        }
      }
    case Listing(item) =>
      if v.Arr? {
        var out := Project(node, v, vocab);
        forall i | 0 <= i < |v.items|
          ensures Safe(item, out.items[i], vocab) <==> Fits(item, v.items[i])
        {
          LandsIffFits(item, v.items[i], vocab);
        }
      }
    case Container(_, _, _, _, _) =>
      if v.Obj? {
        FieldsOf(node, v.fields, vocab);
        var out := Project(node, v, vocab).fields;
        forall k | k in v.fields
          ensures k in out && k != WITHHELD ==>
            (SafeEntry(node, k, out[k], vocab) <==>
             (SlotOf(node, k, map[]).At? ==> Fits(SlotOf(node, k, map[]).node, v.fields[k])))
          ensures !SlotOf(node, k, map[]).At? || k in out
        {
          EntryLandsIffFits(node, k, v.fields[k], vocab);
        }
      }
    case _ =>
  }

  lemma {:induction false} EntryLandsIffFits(node: Node, k: string, v: Json, vocab: Vocabulary)
    requires node.Container?
    ensures var e := ProjectEntry(node, k, v, vocab); var slot := SlotOf(node, k, map[]);
      && (e.Emit? ==> (SafeEntry(node, k, e.value, vocab) <==> (slot.At? ==> Fits(slot.node, v))))
      && (slot.At? ==> e.Emit?)
    decreases v, 1
  {
    var slot := SlotOf(node, k, map[]);
    if slot.At? {
      LandsIffFits(slot.node, v, vocab);
    }
  }

  /** A value is left exactly as it is when, and only when, it is in the safe language. */
  lemma {:induction false} FixedIffSafe(node: Node, v: Json, vocab: Vocabulary)
    ensures Project(node, v, vocab) == v <==> Safe(node, v, vocab)
    decreases v, 0
  {
    match node
    case TriggerPayload =>
      if v.Obj? {
        TriggerFixedIffSafe(v.fields);
      }
    case ToolCalls(dumped) =>
      if v.Arr? {
        var out := Project(node, v, vocab);
        forall i | 0 <= i < |v.items|
          ensures out.items[i] == v.items[i] <==>
            v.items[i] == Str(REDACTED_FIELD) || (v.items[i].Obj? && SafeCall(v.items[i].fields, None))
        {
          if v.items[i].Obj? {
            CallFixedIffSafe(v.items[i].fields, None, dumped);
          }
        }
        assert out == v <==> forall i :: 0 <= i < |v.items| ==> out.items[i] == v.items[i];
      }
    case Listing(item) =>
      if v.Arr? {
        var out := Project(node, v, vocab);
        forall i | 0 <= i < |v.items|
          ensures out.items[i] == v.items[i] <==> Safe(item, v.items[i], vocab)
        {
          FixedIffSafe(item, v.items[i], vocab);
        }
        assert out == v <==> forall i :: 0 <= i < |v.items| ==> out.items[i] == v.items[i];
      }
    case Container(_, _, _, _, _) =>
      if v.Obj? {
        forall k | k in v.fields
          ensures ProjectEntry(node, k, v.fields[k], vocab) == Emit(v.fields[k]) <==>
            SafeEntry(node, k, v.fields[k], vocab)
        {
          EntryFixedIffSafe(node, k, v.fields[k], vocab);
        }
        ContainerFixed(node, v.fields, vocab);
      }
    case _ =>
  }

  lemma {:induction false} EntryFixedIffSafe(node: Node, k: string, v: Json, vocab: Vocabulary)
    requires node.Container?
    ensures ProjectEntry(node, k, v, vocab) == Emit(v) <==> SafeEntry(node, k, v, vocab)
    decreases v, 1
  {
    var slot := SlotOf(node, k, vocab);
    if slot.At? {
      FixedIffSafe(slot.node, v, vocab);
    }
  }

  lemma TriggerFixedIffSafe(fields: map<string, Json>)
    ensures SafeTriggerPayload(fields) == fields <==> SafeTrigger(fields)
  {
    var out := SafeTriggerPayload(fields);
    if SafeTrigger(fields) {
      assert out.Keys == fields.Keys;
    } else if out == fields {
      assert false;
    }
  }

  /** An object is unchanged exactly when each of its entries is emitted unchanged. */
  lemma ContainerFixed(node: Node, fields: map<string, Json>, vocab: Vocabulary)
    requires node.Container?
    ensures Project(node, Obj(fields), vocab) == Obj(fields) <==>
      forall k :: k in fields ==> ProjectEntry(node, k, fields[k], vocab) == Emit(fields[k])
  {
    FieldsOf(node, fields, vocab);
    var out := Project(node, Obj(fields), vocab).fields;
    if forall k :: k in fields ==> ProjectEntry(node, k, fields[k], vocab) == Emit(fields[k]) {
      assert out.Keys == fields.Keys;
    }
  }

  /** Projecting twice is projecting once, exactly when the visited tool-call contents are in bounds. */
  lemma IdempotentIffFits(node: Node, v: Json, vocab: Vocabulary)
    ensures Project(node, Project(node, v, vocab), vocab) == Project(node, v, vocab) <==> Fits(node, v)
  {
    LandsIffFits(node, v, vocab);
    FixedIffSafe(node, Project(node, v, vocab), vocab);
  }

  /** A null under the round-5 count key, on a path the projection visits: the one loss it does not signal. */
  predicate LosesNullCount(node: Node, v: Json, vocab: Vocabulary)
    decreases v, 0
  {
    match node
    case Listing(item) => v.Arr? && exists i :: 0 <= i < |v.items| && LosesNullCount(item, v.items[i], vocab)
    case Container(_, _, _, _, _) =>
      v.Obj? && exists k :: k in v.fields && LosesEntry(SlotOf(node, k, vocab), v.fields[k], vocab)
    case _ => false
  }

  predicate LosesEntry(slot: Slot, v: Json, vocab: Vocabulary)
    decreases v, 1
  {
    match slot
    case LegacyFlag => v.Null?
    case At(n) => LosesNullCount(n, v, vocab)
    case _ => false
  }

  /** Nothing is withheld silently: a projection that carries no redaction marker equals its input,
      unless a null legacy count was dropped, and then it does not. */
  lemma {:induction false} MarkerFreeIsUnchanged(node: Node, v: Json, vocab: Vocabulary)
    requires !HasMarker(Project(node, v, vocab))
    ensures Project(node, v, vocab) == v <==> !LosesNullCount(node, v, vocab)
    decreases v, 0
  {
    match node
    case ToolCalls(dumped) =>
      if v.Arr? {
        var out := Project(node, v, vocab);
        forall i | 0 <= i < |v.items|
          ensures HasMarker(out.items[i])
        {
          if v.items[i].Obj? {
            RenderReads(CallOf(v.items[i].fields, None, dumped));
          }
        }
        assert out.items == v.items;
      }
    case Listing(item) =>
      if v.Arr? {
        var out := Project(node, v, vocab);
        forall i | 0 <= i < |v.items|
          ensures out.items[i] == v.items[i] <==> !LosesNullCount(item, v.items[i], vocab)
        {
          assert !HasMarker(out.items[i]);
          MarkerFreeIsUnchanged(item, v.items[i], vocab);
        }
        assert out == v <==> forall i :: 0 <= i < |v.items| ==> out.items[i] == v.items[i];
      }
    case Container(_, _, _, _, _) =>
      if v.Obj? {
        FieldsOf(node, v.fields, vocab);
        ContainerFixed(node, v.fields, vocab);
        var out := Project(node, v, vocab).fields;
        assert WITHHELD !in out;
        forall k | k in v.fields
          ensures ProjectEntry(node, k, v.fields[k], vocab) == Emit(v.fields[k]) <==>
            !LosesEntry(SlotOf(node, k, vocab), v.fields[k], vocab)
        {
          var slot := SlotOf(node, k, vocab);
          assert !ProjectEntry(node, k, v.fields[k], vocab).Withhold?;
          if slot.At? {
            assert !HasMarker(out[k]);
            MarkerFreeIsUnchanged(slot.node, v.fields[k], vocab);
          }
        }
      }
    case _ =>
  }

  /** A value of the safe language never makes the projection raise. */
  lemma {:induction false} SafeNeverRaises(node: Node, v: Json, vocab: Vocabulary)
    requires Safe(node, v, vocab)
    ensures !Raises(node, v)
    decreases v
  {
    match node
    case ToolCalls(_) =>
      if v.Arr? {
        forall i | 0 <= i < |v.items| && v.items[i].Obj?
          ensures !Malformed(v.items[i].fields)
        {
          SafeKeysAreProjected(v.items[i].fields);
        }
      }
    case Listing(item) =>
      if v.Arr? {
        forall i | 0 <= i < |v.items| ensures !Raises(item, v.items[i]) {
          SafeNeverRaises(item, v.items[i], vocab);
        }
      }
    case Container(_, _, _, _, _) =>
      if v.Obj? {
        forall k | k in v.fields && SlotOf(node, k, map[]).At?
          ensures !Raises(SlotOf(node, k, map[]).node, v.fields[k])
        {
          assert SafeEntry(node, k, v.fields[k], vocab);
          SafeNeverRaises(SlotOf(node, k, map[]).node, v.fields[k], vocab);
        }
      }
    case _ =>
  }

  /** The claim that the projector is total fails: a tool call whose result is a string raises. */
  lemma ProjectionIsNotTotal(dumped: Json -> nat)
    ensures Raises(ToolCalls(dumped), Arr([Obj(map["result" := Str("x")])]))
  {
    var call := Obj(map["result" := Str("x")]);
    assert Malformed(call.fields);
    assert Arr([call]).items[0] == call;
  }
}

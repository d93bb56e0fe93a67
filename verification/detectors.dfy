/** The two redaction detectors, and released vocabularies. */
module Detectors {
  import opened Wrappers
  import opened Json
  import opened Validators
  import opened ToolCall
  import opened Projection
  import opened ProjectionTheorems

  predicate StartsRedacted(s: string) {
    REDACTED_PREFIX <= s
  }

  /** `_output_projected` of trace_rehydrate.py */
  predicate OutputProjected(v: Json) {
    match v
    case Str(s) => StartsRedacted(s)
    case Obj(fields) =>
      "_redacted" in fields || WithheldMarker(fields) || exists k :: k in fields && OutputProjected(fields[k])
    case Arr(items) => exists i :: 0 <= i < |items| && OutputProjected(items[i])
    case _ => false
  }

  /** Both detectors know an object by its own keys: by `_redacted`, by a flag that is true, by a positive count of the
      older form; and otherwise look into its values. */
  lemma ObjectsAreDetectedBy(fields: map<string, Json>)
    ensures var own :=
        || "_redacted" in fields
        || ("_withheld_keys" in fields && fields["_withheld_keys"] == Bool(true))
        || ("_withheld_key_count" in fields && fields["_withheld_key_count"].Int?
            && fields["_withheld_key_count"].n >= 1);
      && (HasMarker(Obj(fields)) <==> own || exists v :: v in fields.Values && HasMarker(v))
      && (OutputProjected(Obj(fields)) <==> own || exists v :: v in fields.Values && OutputProjected(v))
  {
    forall k | k in fields ensures fields[k] in fields.Values {
    }
  }

  /** No leaf of the schema lets a value through on which the two detectors disagree, except under
      `_redacted`, where both answer from the key alone. */
  ghost predicate Agreeable(node: Node) {
    match node
    case Leaf(_, _) => forall v :: node.Accepts(v) ==> HasMarker(v) == OutputProjected(v)
    case Listing(item) => Agreeable(item)
    case Container(children, wildcard, _, _, _) =>
      Agreeable(wildcard) && forall k :: k in children && k != "_redacted" ==> Agreeable(children[k])
    case _ => true
  }

  /** The values a normalized vocabulary releases are short tokens. */
  ghost predicate TokenVocabulary(vocab: Vocabulary) {
    forall k, s :: k in vocab && s in vocab[k] ==> TokenText(s)
  }

  lemma VocabularyValuesAreUnmarked(allowed: set<string>, v: Json)
    requires forall s :: s in allowed ==> TokenText(s)
    requires VocabMember(allowed, v)
    ensures !HasMarker(v) && !OutputProjected(v)
  {
    forall s | s in allowed ensures s !in GENERATED_MARKERS && !StartsRedacted(s) {
      TokenIsNoMarker(s);
      assert REDACTED_PREFIX[0] == '[';
    }
  }

  lemma RedactedFieldIsMarked()
    ensures HasMarker(Str(REDACTED_FIELD)) && OutputProjected(Str(REDACTED_FIELD))
  {
  }

  /** The completeness check and the rehydrator agree on every projection under an agreeable schema. */
  lemma {:induction false} DetectorsAgree(node: Node, v: Json, vocab: Vocabulary)
    requires Agreeable(node) && TokenVocabulary(vocab)
    ensures HasMarker(Project(node, v, vocab)) == OutputProjected(Project(node, v, vocab))
    decreases v
  {
    RedactedFieldIsMarked();
    var out := Project(node, v, vocab);
    match node
    case ToolCalls(dumped) =>
      if v.Arr? {
        forall i | 0 <= i < |v.items| ensures HasMarker(out.items[i]) && OutputProjected(out.items[i]) {
          if v.items[i].Obj? {
            RenderReads(CallOf(v.items[i].fields, None, dumped));
          }
        }
      }
    case Listing(item) =>
      if v.Arr? {
        forall i | 0 <= i < |v.items| ensures HasMarker(out.items[i]) == OutputProjected(out.items[i]) {
          DetectorsAgree(item, v.items[i], vocab);
        }
      }
    case Container(_, _, _, _, _) =>
      if v.Obj? {
        FieldsOf(node, v.fields, vocab);
        forall k | k in v.fields && k != "_redacted" && SlotOf(node, k, vocab).At?
          ensures var n := SlotOf(node, k, vocab).node;
            HasMarker(Project(n, v.fields[k], vocab)) == OutputProjected(Project(n, v.fields[k], vocab))
        {
          DetectorsAgree(SlotOf(node, k, vocab).node, v.fields[k], vocab);
        }
        forall k | k in out.fields && k != "_redacted" && k != WITHHELD
          ensures HasMarker(out.fields[k]) == OutputProjected(out.fields[k])
        {
          EntryAgrees(node, k, v.fields[k], vocab);
        }
      }
    case _ =>
  }

  lemma EntryAgrees(node: Node, k: string, v: Json, vocab: Vocabulary)
    requires node.Container? && TokenVocabulary(vocab)
    requires SlotOf(node, k, vocab).At? ==>
      var n := SlotOf(node, k, vocab).node;
      HasMarker(Project(n, v, vocab)) == OutputProjected(Project(n, v, vocab))
    requires ProjectEntry(node, k, v, vocab).Emit?
    ensures var e := ProjectEntry(node, k, v, vocab); HasMarker(e.value) == OutputProjected(e.value)
  {
    if SlotOf(node, k, vocab).Released? {
      VocabularyValuesAreUnmarked(vocab[k], v);
    }
  }

  /** A string only the rehydrator's detector takes for a marker: it starts like one. */
  predicate Forged(s: string) {
    StartsRedacted(s) && s !in GENERATED_MARKERS
  }

  /** A string only the completeness check takes for a marker. */
  predicate Unprefixed(s: string) {
    s in GENERATED_MARKERS && !StartsRedacted(s)
  }

  /** Some string of the value satisfies the predicate. */
  predicate Holds(v: Json, p: string -> bool) {
    match v
    case Str(s) => p(s)
    case Obj(fields) => exists k :: k in fields && Holds(fields[k], p)
    case Arr(items) => exists i :: 0 <= i < |items| && Holds(items[i], p)
    case _ => false
  }

  const FORGED: string -> bool := s => Forged(s)
  const UNPREFIXED: string -> bool := s => Unprefixed(s)

  /** On any value whatsoever the detectors differ exactly when one of them finds nothing and the other finds a string
      only it knows. */
  lemma {:induction false} DetectorsDifferIff(v: Json)
    ensures OutputProjected(v) && !HasMarker(v) <==> !HasMarker(v) && Holds(v, FORGED)
    ensures HasMarker(v) && !OutputProjected(v) <==> !OutputProjected(v) && Holds(v, UNPREFIXED)
  {
    match v
    case Obj(fields) =>
      forall k | k in fields
        ensures OutputProjected(fields[k]) && !HasMarker(fields[k]) <==>
          !HasMarker(fields[k]) && Holds(fields[k], FORGED)
        ensures HasMarker(fields[k]) && !OutputProjected(fields[k]) <==>
          !OutputProjected(fields[k]) && Holds(fields[k], UNPREFIXED)
      {
        DetectorsDifferIff(fields[k]);
      }
    case Arr(items) =>
      forall i | 0 <= i < |items|
        ensures OutputProjected(items[i]) && !HasMarker(items[i]) <==>
          !HasMarker(items[i]) && Holds(items[i], FORGED)
        ensures HasMarker(items[i]) && !OutputProjected(items[i]) <==>
          !OutputProjected(items[i]) && Holds(items[i], UNPREFIXED)
      {
        DetectorsDifferIff(items[i]);
      }
    case _ =>
  }

  /** No leaf of the schema lets a marker through that only the completeness check knows, except under `_redacted`. */
  ghost predicate Prefixed(node: Node) {
    match node
    case Leaf(_, _) => forall v :: node.Accepts(v) && HasMarker(v) ==> OutputProjected(v)
    case Listing(item) => Prefixed(item)
    case Container(children, wildcard, _, _, _) =>
      Prefixed(wildcard) && forall k :: k in children && k != "_redacted" ==> Prefixed(children[k])
    case _ => true
  }

  /** Then whatever the completeness check finds in a projection, the rehydrator finds too. */
  lemma {:induction false} MarkersAreProjected(node: Node, v: Json)
    requires Prefixed(node)
    ensures HasMarker(Project(node, v, map[])) ==> OutputProjected(Project(node, v, map[]))
    decreases v
  {
    RedactedFieldIsMarked();
    var out := Project(node, v, map[]);
    match node
    case ToolCalls(_) =>
      DetectorsAgree(node, v, map[]);
    case Listing(item) =>
      if v.Arr? {
        forall i | 0 <= i < |v.items| ensures HasMarker(out.items[i]) ==> OutputProjected(out.items[i]) {
          MarkersAreProjected(item, v.items[i]);
        }
      }
    case Container(_, _, _, _, _) =>
      if v.Obj? {
        FieldsOf(node, v.fields, map[]);
        forall k | k in out.fields && k != "_redacted" && k != WITHHELD
          ensures HasMarker(out.fields[k]) ==> OutputProjected(out.fields[k])
        {
          var slot := SlotOf(node, k, map[]);
          assert slot.At?;
          MarkersAreProjected(slot.node, v.fields[k]);
        }
      }
    case _ =>
  }

  /** Every child but one is agreeable. */
  ghost predicate AgreeableBut(node: Node, m: string)
    requires node.Container?
  {
    Agreeable(node.wildcard) && forall k :: k in node.children && k != "_redacted" && k != m ==>
      Agreeable(node.children[k])
  }

  lemma OthersAgree(node: Node, fields: map<string, Json>, vocab: Vocabulary, m: string, k: string)
    requires node.Container? && AgreeableBut(node, m) && TokenVocabulary(vocab)
    requires k in Project(node, Obj(fields), vocab).fields && k != m && k != "_redacted"
    ensures var out := Project(node, Obj(fields), vocab).fields; HasMarker(out[k]) == OutputProjected(out[k])
  {
    hide HasMarker, OutputProjected, Agreeable, Project;
    FieldsOf(node, fields, vocab);
    if k == WITHHELD {
      FlagIsNoMarker();
    } else {
      var slot := SlotOf(node, k, vocab);
      if slot.At? {
        DetectorsAgree(slot.node, fields[k], vocab);
      }
      EntryAgrees(node, k, fields[k], vocab);
    }
  }

  lemma FlagIsNoMarker()
    ensures HasMarker(Bool(true)) == OutputProjected(Bool(true))
  {
  }

  /** An object is detected by its own keys, or by one of its values. */
  lemma DetectedThrough(out: map<string, Json>, m: string)
    requires m != "_redacted" && m != WITHHELD && m != WITHHELD_LEGACY
    ensures HasMarker(Obj(out)) <==> HasMarker(Obj(out - {m})) || (m in out && HasMarker(out[m]))
    ensures OutputProjected(Obj(out)) <==> OutputProjected(Obj(out - {m})) || (m in out && OutputProjected(out[m]))
  {
    var rest := out - {m};
    assert Get(rest, WITHHELD) == Get(out, WITHHELD) && Get(rest, WITHHELD_LEGACY) == Get(out, WITHHELD_LEGACY);
    assert forall k :: k in rest <==> k in out && k != m;
  }

  /** Without that child the detectors agree on a projection. */
  lemma RestAgrees(node: Node, fields: map<string, Json>, vocab: Vocabulary, m: string)
    requires node.Container? && AgreeableBut(node, m) && TokenVocabulary(vocab)
    ensures var rest := Project(node, Obj(fields), vocab).fields - {m};
      HasMarker(Obj(rest)) == OutputProjected(Obj(rest))
  {
    hide Project, AgreeableBut, TokenVocabulary;
    FieldsOf(node, fields, vocab);
    var out := Project(node, Obj(fields), vocab).fields;
    forall k | k in out - {m} && k != "_redacted" ensures HasMarker(out[k]) == OutputProjected(out[k]) {
      OthersAgree(node, fields, vocab, m, k);
    }
    SameDetection(out - {m});
  }

  /** The detectors differ on a projection exactly when the one child that is not agreeable is a marker only one of
      them knows, and nothing else in it is detected. */
  lemma DetectorsDifferOnlyAt(node: Node, fields: map<string, Json>, vocab: Vocabulary, m: string)
    requires node.Container? && AgreeableBut(node, m) && TokenVocabulary(vocab)
    requires m != "_redacted" && m != WITHHELD && m != WITHHELD_LEGACY
    requires var out := Project(node, Obj(fields), vocab).fields; m in out && OutputProjected(out[m]) ==>
      HasMarker(out[m])
    ensures var out := Project(node, Obj(fields), vocab).fields;
      HasMarker(Obj(out)) != OutputProjected(Obj(out)) <==>
        && m in out && HasMarker(out[m]) && !OutputProjected(out[m])
        && !OutputProjected(Obj(out - {m}))
  {
    hide Project, AgreeableBut, TokenVocabulary;
    FieldsOf(node, fields, vocab);
    var out := Project(node, Obj(fields), vocab).fields;
    DetectedThrough(out, m);
    RestAgrees(node, fields, vocab, m);
  }

  lemma SameDetection(out: map<string, Json>)
    requires forall k :: k in out && k != "_redacted" ==> HasMarker(out[k]) == OutputProjected(out[k])
    ensures HasMarker(Obj(out)) == OutputProjected(Obj(out))
  {
  }

  /** Releasing a vocabulary loses nothing: projecting again without it gives what projecting without
      it at once would have given, exactly when the visited tool-call contents are in bounds. */
  lemma {:induction false} VocabularyComposes(node: Node, v: Json, vocab: Vocabulary)
    ensures Project(node, Project(node, v, vocab), map[]) == Project(node, v, map[]) <==> Fits(node, v)
    decreases v
  {
    match node
    case Listing(item) =>
      if v.Arr? {
        var once, twice := Project(node, v, map[]), Project(node, Project(node, v, vocab), map[]);
        forall i | 0 <= i < |v.items| ensures twice.items[i] == once.items[i] <==> Fits(item, v.items[i]) {
          VocabularyComposes(item, v.items[i], vocab);
        }
        assert twice == once <==> forall i :: 0 <= i < |v.items| ==> twice.items[i] == once.items[i];
      }
    case Container(_, _, _, _, _) =>
      if v.Obj? {
        forall k | k in v.fields
          ensures ChildComposes(node, k, v.fields[k], vocab) <==>
            (SlotOf(node, k, map[]).At? ==> Fits(SlotOf(node, k, map[]).node, v.fields[k]))
        {
          if SlotOf(node, k, map[]).At? {
            VocabularyComposes(SlotOf(node, k, map[]).node, v.fields[k], vocab);
          }
        }
        var released := Project(node, v, vocab).fields;
        FieldsOf(node, v.fields, vocab);
        FieldsOf(node, v.fields, map[]);
        FieldsOf(node, released, map[]);
        ContainerComposes(node, v.fields, vocab, released,
          Project(node, v, map[]).fields, Project(node, Obj(released), map[]).fields);
      }
    case _ =>
      IdempotentIffFits(node, v, map[]);
  }

  /** The child at `k` composes. */
  ghost predicate ChildComposes(node: Node, k: string, v: Json, vocab: Vocabulary)
    requires node.Container?
  {
    var slot := SlotOf(node, k, map[]);
    slot.At? ==> Project(slot.node, Project(slot.node, v, vocab), map[]) == Project(slot.node, v, map[])
  }

  /** A key disappears from the vocabulary-free view whether or not the vocabulary had released it. */
  lemma EntryComposes(node: Node, k: string, v: Json, vocab: Vocabulary)
    requires node.Container?
    ensures var bare, wide := ProjectEntry(node, k, v, map[]), ProjectEntry(node, k, v, vocab);
      && (wide.Withhold? ==> bare.Withhold?)
      && (bare.Emit? ==> wide.Emit?)
      && (bare.Withhold? && !wide.Withhold? ==>
           wide.Emit? && node.stepOutput && k in vocab && k !in node.children && VocabMember(vocab[k], wide.value))
      && (wide.Emit? ==>
           var again := ProjectEntry(node, k, wide.value, map[]);
           && again.Emit? == bare.Emit? && again.Withhold? == bare.Withhold?
           && (bare.Emit? ==> (again.value == bare.value <==> ChildComposes(node, k, v, vocab))))
      && (!wide.Emit? ==> ChildComposes(node, k, v, vocab))
      && (!bare.Emit? ==> ChildComposes(node, k, v, vocab))
  {
  }

  lemma ContainerComposes(
    node: Node, fields: map<string, Json>, vocab: Vocabulary,
    released: map<string, Json>, once: map<string, Json>, twice: map<string, Json>)
    requires node.Container?
    requires EntriesOf(node, fields, vocab, released)
    requires EntriesOf(node, fields, map[], once)
    requires EntriesOf(node, released, map[], twice)
    ensures once == twice <==> forall k :: k in fields ==> ChildComposes(node, k, fields[k], vocab)
  {
    FlagComposes(node, fields, vocab, released, once, twice);
    forall k | k != WITHHELD
      ensures k in once <==> k in twice
      ensures k in once ==> (once[k] == twice[k] <==> ChildComposes(node, k, fields[k], vocab))
      ensures k in fields && k !in once ==> ChildComposes(node, k, fields[k], vocab)
    {
      if k in fields {
        EntryComposes(node, k, fields[k], vocab);
      }
    }
    assert once.Keys == twice.Keys;
    assert once == twice <==> forall k :: k in once ==> once[k] == twice[k];
  }

  lemma FlagComposes(
    node: Node, fields: map<string, Json>, vocab: Vocabulary,
    released: map<string, Json>, once: map<string, Json>, twice: map<string, Json>)
    requires node.Container?
    requires EntriesOf(node, fields, vocab, released)
    requires EntriesOf(node, fields, map[], once)
    requires EntriesOf(node, released, map[], twice)
    ensures WITHHELD in once <==> WITHHELD in twice
  {
    if WITHHELD !in fields {
      if k :| k in fields && ProjectEntry(node, k, fields[k], map[]).Withhold? {
        EntryComposes(node, k, fields[k], vocab);
      } else {
        forall k | k in released ensures k != WITHHELD && !ProjectEntry(node, k, released[k], map[]).Withhold? {
          if k in fields {
            EntryComposes(node, k, fields[k], vocab);
          } else {
            var r :| r in fields && ProjectEntry(node, r, fields[r], vocab).Withhold?;
            EntryComposes(node, r, fields[r], vocab);
          }
        }
      }
    }
  }

  /** Two projections of one record that differ at released fields of step outputs, and in the flags
      those fields account for, and nowhere else. */
  predicate DiffersOnlyReleased(node: Node, wide: Json, bare: Json, vocab: Vocabulary)
    decreases wide
  {
    || wide == bare
    || (node.Listing? && wide.Arr? && bare.Arr? && |wide.items| == |bare.items| &&
        forall i :: 0 <= i < |wide.items| ==> DiffersOnlyReleased(node.item, wide.items[i], bare.items[i], vocab))
    || (node.Container? && wide.Obj? && bare.Obj? && KeysDifferOnlyReleased(node, wide.fields, bare.fields, vocab) &&
        forall k :: k in wide.fields && k in bare.fields && wide.fields[k] != bare.fields[k] ==>
          var slot := SlotOf(node, k, map[]);
          slot.At? && DiffersOnlyReleased(slot.node, wide.fields[k], bare.fields[k], vocab))
  }

  /** Only released values are missing from the second object, and only their flag from the first. */
  predicate KeysDifferOnlyReleased(node: Node, wide: map<string, Json>, bare: map<string, Json>, vocab: Vocabulary)
    requires node.Container?
  {
    && (forall k :: k in bare && k !in wide ==>
          k == WITHHELD && node.stepOutput && exists r :: r in wide && r in vocab && r !in bare)
    && (forall k :: k in wide && k !in bare ==>
          node.stepOutput && k in vocab && k !in node.children && VocabMember(vocab[k], wide[k]))
  }

  lemma {:induction false} VocabularyReleasesOnlyItsFields(node: Node, v: Json, vocab: Vocabulary)
    ensures DiffersOnlyReleased(node, Project(node, v, vocab), Project(node, v, map[]), vocab)
    decreases v
  {
    var wide, bare := Project(node, v, vocab), Project(node, v, map[]);
    match node
    case Listing(item) =>
      if v.Arr? {
        forall i | 0 <= i < |v.items| ensures DiffersOnlyReleased(item, wide.items[i], bare.items[i], vocab) {
          VocabularyReleasesOnlyItsFields(item, v.items[i], vocab);
        }
      }
    case Container(_, _, _, _, _) =>
      if v.Obj? {
        FieldsOf(node, v.fields, vocab);
        FieldsOf(node, v.fields, map[]);
        forall k | k in v.fields && SlotOf(node, k, map[]).At?
          ensures var n := SlotOf(node, k, map[]).node;
            DiffersOnlyReleased(n, Project(n, v.fields[k], vocab), Project(n, v.fields[k], map[]), vocab)
        {
          VocabularyReleasesOnlyItsFields(SlotOf(node, k, map[]).node, v.fields[k], vocab);
        }
        ContainerDiffers(node, v.fields, vocab, wide.fields, bare.fields);
      }
    case _ =>
  }

  lemma ContainerDiffers(
    node: Node, fields: map<string, Json>, vocab: Vocabulary, wide: map<string, Json>, bare: map<string, Json>)
    requires node.Container?
    requires EntriesOf(node, fields, vocab, wide)
    requires EntriesOf(node, fields, map[], bare)
    requires forall k :: k in fields && SlotOf(node, k, map[]).At? ==>
      var n := SlotOf(node, k, map[]).node;
      DiffersOnlyReleased(n, Project(n, fields[k], vocab), Project(n, fields[k], map[]), vocab)
    ensures DiffersOnlyReleased(node, Obj(wide), Obj(bare), vocab)
  {
    KeysDiffer(node, fields, vocab, wide, bare);
    forall k | k in wide && k in bare && wide[k] != bare[k]
      ensures SlotOf(node, k, map[]).At? && DiffersOnlyReleased(SlotOf(node, k, map[]).node, wide[k], bare[k], vocab)
    {
      SharedEntry(node, k, fields[k], vocab);
    }
  }

  lemma SharedEntry(node: Node, k: string, v: Json, vocab: Vocabulary)
    requires node.Container?
    ensures var bare, wide := ProjectEntry(node, k, v, map[]), ProjectEntry(node, k, v, vocab);
      var slot := SlotOf(node, k, map[]);
      bare.Emit? && wide.Emit? && bare != wide ==>
        slot.At? && wide.value == Project(slot.node, v, vocab) && bare.value == Project(slot.node, v, map[])
  {
  }

  lemma KeysDiffer(
    node: Node, fields: map<string, Json>, vocab: Vocabulary, wide: map<string, Json>, bare: map<string, Json>)
    requires node.Container?
    requires EntriesOf(node, fields, vocab, wide)
    requires EntriesOf(node, fields, map[], bare)
    ensures KeysDifferOnlyReleased(node, wide, bare, vocab)
  {
    FlagsDiffer(node, fields, vocab, wide, bare);
    forall k | k in bare && k !in wide
      ensures k == WITHHELD && node.stepOutput && exists r :: r in wide && r in vocab && r !in bare
    {
      if k != WITHHELD {
        EntryComposes(node, k, fields[k], vocab);
      }
    }
    forall k | k in wide && k !in bare
      ensures node.stepOutput && k in vocab && k !in node.children && VocabMember(vocab[k], wide[k])
    {
      EntryComposes(node, k, fields[k], vocab);
    }
  }

  lemma FlagsDiffer(
    node: Node, fields: map<string, Json>, vocab: Vocabulary, wide: map<string, Json>, bare: map<string, Json>)
    requires node.Container?
    requires EntriesOf(node, fields, vocab, wide)
    requires EntriesOf(node, fields, map[], bare)
    ensures WITHHELD in wide ==> WITHHELD in bare
    ensures WITHHELD in bare && WITHHELD !in wide ==>
      node.stepOutput && exists r :: r in wide && r in vocab && r !in bare
  {
    if WITHHELD in wide && WITHHELD !in fields {
      var r :| r in fields && ProjectEntry(node, r, fields[r], vocab).Withhold?;
      EntryComposes(node, r, fields[r], vocab);
    }
    if WITHHELD in bare && WITHHELD !in wide {
      var r :| r in fields && ProjectEntry(node, r, fields[r], map[]).Withhold?;
      EntryComposes(node, r, fields[r], vocab);
      assert r in wide && r in vocab && r !in bare;
    }
  }
}

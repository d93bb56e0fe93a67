/** `_project` of trace_projection.py: the schema-driven, default-deny projection of a JSON value. */
module Projection {
  import opened Wrappers
  import opened Json
  import opened Validators
  import opened ToolCall

  const WITHHELD := "_withheld_keys"
  const WITHHELD_LEGACY := "_withheld_key_count"
  const RELEASED_BUSINESS: set<string> := {"parse_ok"}
  const ROUTING_KEYS: set<string> := {"message_id", "thread_id", "id"}

  datatype Owner = Engine | Config | Business | ProjectionOwned

  /** A schema node. `Undeclared` is the source's `None`; `overflows` says on which integers the validator of a
      leaf raises; `ToolCalls` carries the serialized length of a call's content; `stepOutput` marks the one node
      a released vocabulary applies to. */
  datatype Node =
    | Undeclared
    | Leaf(validate: Json -> bool, overflows: int -> bool)
    | TriggerPayload
    | ToolCalls(dumped: Json -> nat)
    | Listing(item: Node)
    | Container(
        children: map<string, Node>,
        wildcard: Node,
        platformKeys: bool,
        owners: map<string, Owner>,
        stepOutput: bool)
  {
    /** The validator raises instead of answering: it converts an integer too large for a float. */
    predicate Overflows(v: Json)
      requires Leaf?
    {
      v.Int? && overflows(v.n)
    }

    predicate Accepts(v: Json)
      requires Leaf?
    {
      !Overflows(v) && validate(v)
    }

    predicate WithholdsChild(k: string)
      requires Container?
    {
      k in owners && owners[k] == Business && k !in RELEASED_BUSINESS
    }
  }

  type Vocabulary = map<string, set<string>>

  /** What the schema says about one key of a container. */
  datatype Slot = LegacyFlag | Flag | At(node: Node) | Released(allowed: set<string>) | Closed

  function SlotOf(node: Node, k: string, vocab: Vocabulary): Slot
    requires node.Container?
  {
    if k == WITHHELD_LEGACY then LegacyFlag
    else if k == WITHHELD then Flag
    else if k in node.children then (if node.WithholdsChild(k) then Closed else At(node.children[k]))
    else if !SafeKey(k) then Closed
    else if !node.wildcard.Undeclared? && node.platformKeys then At(node.wildcard)
    else if node.stepOutput && k in vocab then Released(vocab[k])
    else Closed
  }

  /** One entry of a container: emitted, dropped with the withheld flag raised, or dropped in silence. */
  datatype Entry = Emit(value: Json) | Withhold | Skip

  function ProjectEntry(node: Node, k: string, v: Json, vocab: Vocabulary): Entry
    requires node.Container?
    decreases v, 2
  {
    match SlotOf(node, k, vocab)
    case LegacyFlag => if v.Null? then Skip else Withhold
    case Flag => if v == Bool(true) then Emit(v) else Withhold
    case At(n) => Emit(Project(n, v, vocab))
    case Released(allowed) => if VocabMember(allowed, v) then Emit(v) else Withhold
    case Closed => Withhold
  }

  function SafeTriggerPayload(payload: map<string, Json>): map<string, Json> {
    map k | k in {"_redacted"} + ROUTING_KEYS * payload.Keys ::
      Str(if k == "_redacted" then REDACTED_TRIGGER else REDACTED_FIELD)
  }

  function ProjectCall(c: Json, dumped: Json -> nat): Json {
    if c.Obj? then Obj(SafeToolCall(c.fields, None, dumped)) else Str(REDACTED_FIELD)
  }

  function Flagged(fields: map<string, Json>, withheld: bool): map<string, Json> {
    if withheld then fields[WITHHELD := Bool(true)] else fields
  }

  function Project(node: Node, v: Json, vocab: Vocabulary): Json
    decreases v, 1
  {
    if v.Null? then Null
    else match node
      case Undeclared => Str(REDACTED_FIELD)
      case Leaf(_, _) => if node.Accepts(v) then v else Str(REDACTED_FIELD)
      case TriggerPayload => if v.Obj? then Obj(SafeTriggerPayload(v.fields)) else Str(REDACTED_FIELD)
      case ToolCalls(dumped) =>
        if v.Arr? then Arr(seq(|v.items|, i requires 0 <= i < |v.items| => ProjectCall(v.items[i], dumped)))
        else Str(REDACTED_FIELD)
      case Listing(item) =>
        if v.Arr? then Arr(seq(|v.items|, i requires 0 <= i < |v.items| => Project(item, v.items[i], vocab)))
        else Str(REDACTED_FIELD)
      case Container(_, _, _, _, _) =>
        if v.Obj? then
          var kept := map k | k in v.fields && ProjectEntry(node, k, v.fields[k], vocab).Emit? ::
            ProjectEntry(node, k, v.fields[k], vocab).value;
          Obj(Flagged(kept, exists k :: k in v.fields && ProjectEntry(node, k, v.fields[k], vocab).Withhold?))
        else Str(REDACTED_FIELD)
  }

  /** On a path the projection visits, a tool call has a result or an input the code cannot read, or a leaf
      holds an integer its validator cannot convert: projecting the value then raises. */
  predicate Raises(node: Node, v: Json)
    decreases v
  {
    match node
    case Leaf(_, _) => node.Overflows(v)
    case ToolCalls(_) => v.Arr? && exists i :: 0 <= i < |v.items| && v.items[i].Obj? && Malformed(v.items[i].fields)
    case Listing(item) => v.Arr? && exists i :: 0 <= i < |v.items| && Raises(item, v.items[i])
    case Container(_, _, _, _, _) =>
      v.Obj? &&
      exists k :: k in v.fields && SlotOf(node, k, map[]).At? && Raises(SlotOf(node, k, map[]).node, v.fields[k])
    case _ => false
  }

  /** Every tool call the projection visits has a content below the size limit. */
  predicate Fits(node: Node, v: Json)
    decreases v
  {
    match node
    case ToolCalls(dumped) =>
      v.Arr? ==> forall i :: 0 <= i < |v.items| && v.items[i].Obj? ==> CallFits(v.items[i].fields, dumped)
    case Listing(item) => v.Arr? ==> forall i :: 0 <= i < |v.items| ==> Fits(item, v.items[i])
    case Container(_, _, _, _, _) =>
      v.Obj? ==> forall k :: k in v.fields ==>
        var slot := SlotOf(node, k, map[]); slot.At? ==> Fits(slot.node, v.fields[k])
    case _ => true
  }

  predicate SafeTrigger(fields: map<string, Json>) {
    && "_redacted" in fields && fields["_redacted"] == Str(REDACTED_TRIGGER)
    && forall k :: k in fields && k != "_redacted" ==> k in ROUTING_KEYS && fields[k] == Str(REDACTED_FIELD)
  }

  /** The language of values a reader without a grant may see at a schema position. */
  predicate Safe(node: Node, v: Json, vocab: Vocabulary)
    decreases v, 1
  {
    || v.Null?
    || v == Str(REDACTED_FIELD)
    || match node
       case Undeclared => false
       case Leaf(_, _) => node.Accepts(v)
       case TriggerPayload => v.Obj? && SafeTrigger(v.fields)
       case ToolCalls(_) =>
         v.Arr? && forall i :: 0 <= i < |v.items| ==>
           v.items[i] == Str(REDACTED_FIELD) || (v.items[i].Obj? && SafeCall(v.items[i].fields, None))
       case Listing(item) => v.Arr? && forall i :: 0 <= i < |v.items| ==> Safe(item, v.items[i], vocab)
       case Container(_, _, _, _, _) =>
         v.Obj? && forall k :: k in v.fields ==> SafeEntry(node, k, v.fields[k], vocab)
  }

  /** A visible entry is the withheld flag, a disclosed declared child, a token-named entry under a
      platform wildcard, or a value of a released vocabulary. */
  predicate SafeEntry(node: Node, k: string, v: Json, vocab: Vocabulary)
    requires node.Container?
    decreases v, 2
  {
    || (k == WITHHELD && v == Bool(true))
    || (k != WITHHELD && k != WITHHELD_LEGACY &&
        if k in node.children then
          (k in node.owners && node.owners[k] == Business ==> k in RELEASED_BUSINESS)
          && Safe(node.children[k], v, vocab)
        else if node.platformKeys && !node.wildcard.Undeclared? then
          SafeKey(k) && Safe(node.wildcard, v, vocab)
        else
          SafeKey(k) && node.stepOutput && k in vocab && VocabMember(vocab[k], v))
  }

  /** `has_redaction_marker` */
  predicate HasMarker(v: Json) {
    match v
    case Str(s) => s in GENERATED_MARKERS
    case Obj(fields) => "_redacted" in fields || WithheldMarker(fields) ||
      (exists k :: k in fields && HasMarker(fields[k]))
    case Arr(items) => exists i :: 0 <= i < |items| && HasMarker(items[i])
    case _ => false
  }

  /** `is_withheld_marker`, on an object */
  predicate WithheldMarker(fields: map<string, Json>) {
    || Get(fields, WITHHELD) == Bool(true)
    || (Get(fields, WITHHELD_LEGACY).Int? && Get(fields, WITHHELD_LEGACY).n > 0)
  }
}

/** What minting keeps: references, conditions, templates, the step graph and everything that is data. */
module ScaffoldTheorems {
  import opened Wrappers
  import opened Json
  import opened Paths
  import opened Templates
  import opened Conditions
  import opened Scaffold

  /** The renaming a draft is minted with; empty when its `steps` is not a list. */
  function DraftMapping(raw: Fields): Mapping {
    if Get(raw, STEPS).Arr? then
      var ids := Originals(raw[STEPS].items, |raw[STEPS].items|);
      MappingOf(ids, |ids|)
    else map[]
  }

  function FieldAt(v: Option<Json>, k: string): Option<Json> {
    if v.Some? && v.value.Obj? && k in v.value.fields then Some(v.value.fields[k]) else None
  }

  function ItemAt(v: Option<Json>, n: nat): Option<Json> {
    if v.Some? && v.value.Arr? && n < |v.value.items| then Some(v.value.items[n]) else None
  }

  /** Every place of a definition where the engine reads a context path. */
  datatype Position =
    | InputAt(step: nat, n: nat)
    | PinAt(step: nat, key: string)
    | ConfigAt(step: nat, key: string)
    | QueryFrom
    | DateFrom(n: nat)
    | RefFrom(n: nat)
    | CandidateFrom
    | SuggestInput(n: nat)

  function StepAt(def: Fields, i: nat): Option<Json> {
    ItemAt(FieldAt(Some(Obj(def)), STEPS), i)
  }

  /** The reference a function reads under one of its declared keys: what is configured, else its default. */
  function EffectiveReference(env: Environment, step: Option<Json>, k: string): Option<Json> {
    if step.None? || !step.value.Obj? then None
    else
      var decl, config := DeclarationOf(env, step.value.fields), Get(step.value.fields, CONFIG);
      if k !in decl.fields || (config.Truthy() && !config.Obj?) then None
      else if k in ConfigOf(step.value.fields) then Some(ConfigOf(step.value.fields)[k])
      else if k in decl.defaults then Some(Str(decl.defaults[k]))
      else None
  }

  function ObservationAt(def: Fields, n: nat): Option<Json> {
    ItemAt(FieldAt(FieldAt(Some(Obj(def)), LEARNED_MEMORY), OBSERVATIONS), n)
  }

  function ReferenceAt(env: Environment, def: Fields, pos: Position): Option<Json> {
    match pos
    case InputAt(i, n) => ItemAt(FieldAt(StepAt(def, i), INPUTS), n)
    case PinAt(i, k) => FieldAt(FieldAt(StepAt(def, i), PIN_PARAMS), k)
    case ConfigAt(i, k) => EffectiveReference(env, StepAt(def, i), k)
    case QueryFrom => FieldAt(FieldAt(FieldAt(Some(Obj(def)), LEARNED_MEMORY), RECALL), QUERY_FROM)
    case DateFrom(n) => FieldAt(ObservationAt(def, n), DATE_FROM)
    case RefFrom(n) => FieldAt(ObservationAt(def, n), REF_FROM)
    case CandidateFrom => FieldAt(FieldAt(Some(Obj(def)), QUESTIONS), CANDIDATE_FROM)
    case SuggestInput(n) => ItemAt(FieldAt(FieldAt(FieldAt(Some(Obj(def)), QUESTIONS), SUGGEST), INPUTS), n)
  }

  function RenameReference(r: Option<Json>, mapping: Mapping): Option<Json> {
    match r
    case None => None
    case Some(v) => Some(PathValue(v, mapping))
  }

  /** A renaming that moves nothing leaves every reference as it is. */
  lemma IdentityKeepsPaths(path: string, mapping: Mapping)
    requires IsIdentity(mapping)
    ensures RewritePath(path, mapping) == path
  {
    PartitionJoins(path);
    PartitionJoins(Partition(path).2);
  }

  lemma {:induction false} StepsAreRewrittenOneByOne(env: Environment, steps: seq<Json>, mapping: Mapping, n: nat)
    requires n <= |steps|
    ensures var r := RewriteSteps(env, steps, mapping, n);
      r.Success? ==> |r.value| == n && forall i :: 0 <= i < n ==>
        RewriteStep(env, steps[i], mapping) == Success(r.value[i])
  {
    hide RewriteStep;
    if n > 0 {
      StepsAreRewrittenOneByOne(env, steps, mapping, n - 1);
    }
  }

  /** A draft that mints is returned as it is when the renaming moves nothing, and rebuilt block by block otherwise. */
  lemma MintedDraft(env: Environment, raw: Fields, out: Fields) returns (steps: seq<Json>)
    requires Mint(env, raw) == Success(out)
    ensures IsIdentity(DraftMapping(raw)) ==> out == raw
    ensures !IsIdentity(DraftMapping(raw)) ==>
      && Get(raw, STEPS).Arr?
      && out == Rebuild(env, raw, steps, DraftMapping(raw))
      && RewriteSteps(env, raw[STEPS].items, DraftMapping(raw), |raw[STEPS].items|) == Success(steps)
  {
    hide RewriteSteps, Rebuild, Originals, MappingOf;
    steps := [];
    if !IsIdentity(DraftMapping(raw)) {
      steps := RewriteSteps(env, raw[STEPS].items, DraftMapping(raw), |raw[STEPS].items|).value;
    }
  }

  /** The blocks of a rebuilt draft. */
  lemma BlocksOf(env: Environment, raw: Fields, steps: seq<Json>, mapping: Mapping)
    requires Get(raw, STEPS).Arr?
    ensures var out := Rebuild(env, raw, steps, mapping);
      && out.Keys == raw.Keys
      && out[STEPS] == Arr(steps)
      && (EDGES in raw ==> out[EDGES] == RewriteEdges(env.syntax, raw[EDGES], mapping))
      && (LEARNED_MEMORY in raw ==> out[LEARNED_MEMORY] == RewriteMemory(raw[LEARNED_MEMORY], mapping))
      && (QUESTIONS in raw ==> out[QUESTIONS] == RewriteQuestions(raw[QUESTIONS], mapping))
      && (forall k :: k in raw && k !in {STEPS, EDGES, LEARNED_MEMORY, QUESTIONS} ==> out[k] == raw[k])
  {
    hide RewriteEdges, RewriteMemory, RewriteQuestions;
    var s, e, l, q := STEPS, EDGES, LEARNED_MEMORY, QUESTIONS;
    assert s[0] == 's' && e[0] == 'e' && l[0] == 'l' && q[0] == 'q';
  }

  /** The fields of a rewritten step that hold references. */
  lemma StepFieldsOf(env: Environment, step: Fields, mapping: Mapping, out: Json)
    requires RewriteStep(env, Obj(step), mapping) == Success(out)
    ensures out.Obj? && out.fields.Keys - {CONFIG} == step.Keys - {CONFIG}
    ensures forall k :: k in step && k != CONFIG ==>
      out.fields[k] == RewriteStepField(DeclarationOf(env, step), k, step[k], mapping)
    ensures DeclarationOf(env, out.fields) == DeclarationOf(env, step)
  {
    hide RewriteStepField, Pending, ConfigRaises;
    var f, c := FUNCTION, CONFIG;
    assert f[0] == 'f' && c[0] == 'c';
    FunctionIsData(DeclarationOf(env, step), Get(step, FUNCTION), mapping);
  }

  lemma FunctionIsData(decl: Declaration, v: Json, mapping: Mapping)
    ensures RewriteStepField(decl, FUNCTION, v, mapping) == v
  {
    var f, i, n, p, c, g, s := FUNCTION, ID, INPUTS, PIN_PARAMS, CONFIG, GOAL, SYSTEM_PROMPT;
    assert f[0] == 'f' && i[0] == 'i' && n[0] == 'i' && p[0] == 'p' && c[0] == 'c' && g[0] == 'g' && s[0] == 's';
  }

  lemma InputsAreRenamed(env: Environment, step: Json, mapping: Mapping, out: Json, n: nat)
    requires RewriteStep(env, step, mapping) == Success(out)
    ensures ItemAt(FieldAt(Some(out), INPUTS), n) == RenameReference(ItemAt(FieldAt(Some(step), INPUTS), n), mapping)
  {
    hide PathValue, ConfigRaises, Pending;
    if step.Obj? {
      StepFieldsOf(env, step.fields, mapping, out);
      var i, d, c := INPUTS, ID, CONFIG;
      assert i[1] == 'n' && d[1] == 'd' && c[0] == 'c';
    }
  }

  lemma PinsAreRenamed(env: Environment, step: Json, mapping: Mapping, out: Json, k: string)
    requires RewriteStep(env, step, mapping) == Success(out)
    ensures FieldAt(FieldAt(Some(out), PIN_PARAMS), k) ==
      RenameReference(FieldAt(FieldAt(Some(step), PIN_PARAMS), k), mapping)
  {
    hide PathValue, ConfigRaises, Pending;
    if step.Obj? {
      StepFieldsOf(env, step.fields, mapping, out);
      var p, i, d, c := PIN_PARAMS, INPUTS, ID, CONFIG;
      assert p[0] == 'p' && i[0] == 'i' && d[0] == 'i' && c[0] == 'c';
    }
  }

  /** The `config` of a rewritten step, when it is read at all: what was configured, key by key, and the defaults
      that had to be written down. */
  lemma ConfigOfRewritten(env: Environment, step: Fields, mapping: Mapping, out: Json)
    requires RewriteStep(env, Obj(step), mapping) == Success(out)
    ensures out.Obj?
    ensures (Get(out.fields, CONFIG).Truthy() && !Get(out.fields, CONFIG).Obj?) <==>
      (Get(step, CONFIG).Truthy() && !Get(step, CONFIG).Obj?)
    ensures !(Get(step, CONFIG).Truthy() && !Get(step, CONFIG).Obj?) ==>
      var decl, old_, new_ := DeclarationOf(env, step), ConfigOf(step), ConfigOf(out.fields);
      && new_.Keys == old_.Keys + Pending(decl, old_, mapping).Keys
      && (forall k :: k in old_ ==> new_[k] == if k in decl.fields then PathValue(old_[k], mapping) else old_[k])
      && (forall k :: k in Pending(decl, old_, mapping) ==> new_[k] == Pending(decl, old_, mapping)[k])
  {
  }

  /** The reference a function reads under a declared key is renamed, whether it was configured or a default. */
  lemma EffectiveReferenceIsRenamed(env: Environment, step: Json, mapping: Mapping, out: Json, k: string)
    requires RewriteStep(env, step, mapping) == Success(out)
    ensures EffectiveReference(env, Some(out), k) == RenameReference(EffectiveReference(env, Some(step), k), mapping)
  {
    hide RewriteStep;
    if step.Obj? {
      StepFieldsOf(env, step.fields, mapping, out);
      ConfigOfRewritten(env, step.fields, mapping, out);
    } else {
      NonStepIsData(env, step, mapping);
    }
  }

  lemma NonStepIsData(env: Environment, step: Json, mapping: Mapping)
    requires !step.Obj?
    ensures RewriteStep(env, step, mapping) == Success(step)
  {
  }

  lemma MemoryReferencesAreRenamed(v: Json, mapping: Mapping, n: nat)
    ensures var out := RewriteMemory(v, mapping);
      && FieldAt(FieldAt(Some(out), RECALL), QUERY_FROM) ==
        RenameReference(FieldAt(FieldAt(Some(v), RECALL), QUERY_FROM), mapping)
      && var before, after := ItemAt(FieldAt(Some(v), OBSERVATIONS), n), ItemAt(FieldAt(Some(out), OBSERVATIONS), n);
         && before.Some? == after.Some?
         && (before.Some? ==> after.value == RewriteObservation(before.value, mapping))
  {
    hide PathValue, RewriteObservation;
    var r, o := RECALL, OBSERVATIONS;
    assert r[0] == 'r' && o[0] == 'o';
  }

  lemma ObservationIsRenamed(o: Json, mapping: Mapping)
    ensures var out := RewriteObservation(o, mapping);
      && FieldAt(Some(out), DATE_FROM) == RenameReference(FieldAt(Some(o), DATE_FROM), mapping)
      && FieldAt(Some(out), REF_FROM) == RenameReference(FieldAt(Some(o), REF_FROM), mapping)
      && (FieldAt(Some(o), TEXT).Some? && FieldAt(Some(o), TEXT).value.Str? ==>
            FieldAt(Some(out), TEXT) == Some(Str(RewriteTemplate(FieldAt(Some(o), TEXT).value.s, mapping))))
  {
    hide PathValue, RewriteTemplate;
    var t, d, r := TEXT, DATE_FROM, REF_FROM;
    assert t[0] == 't' && d[0] == 'd' && r[0] == 'r';
  }

  lemma QuestionReferencesAreRenamed(v: Json, mapping: Mapping, n: nat)
    ensures var out := RewriteQuestions(v, mapping);
      && FieldAt(Some(out), CANDIDATE_FROM) == RenameReference(FieldAt(Some(v), CANDIDATE_FROM), mapping)
      && ItemAt(FieldAt(FieldAt(Some(out), SUGGEST), INPUTS), n) ==
           RenameReference(ItemAt(FieldAt(FieldAt(Some(v), SUGGEST), INPUTS), n), mapping)
  {
    hide PathValue;
    var c, s := CANDIDATE_FROM, SUGGEST;
    assert c[0] == 'c' && s[0] == 's';
  }

  /** A step of a minted draft is the rewritten step at the same place. */
  lemma StepOfMinted(env: Environment, raw: Fields, steps: seq<Json>, mapping: Mapping, i: nat)
    requires Get(raw, STEPS).Arr? && RewriteSteps(env, raw[STEPS].items, mapping, |raw[STEPS].items|) == Success(steps)
    ensures var out := Rebuild(env, raw, steps, mapping);
      && StepAt(out, i).Some? == StepAt(raw, i).Some?
      && (StepAt(raw, i).Some? ==> RewriteStep(env, StepAt(raw, i).value, mapping) == Success(StepAt(out, i).value))
  {
    hide RewriteStep;
    StepsAreRewrittenOneByOne(env, raw[STEPS].items, mapping, |raw[STEPS].items|);
    BlocksOf(env, raw, steps, mapping);
  }

  /** Minting renames the reference at every position the engine reads, configured or defaulted, and adds none. */
  lemma ReferencesAreRenamed(env: Environment, raw: Fields, out: Fields, pos: Position)
    requires Mint(env, raw) == Success(out)
    ensures ReferenceAt(env, out, pos) == RenameReference(ReferenceAt(env, raw, pos), DraftMapping(raw))
  {
    hide Mint, RewriteStep, RewriteSteps, Rebuild, DraftMapping, EffectiveReference, RewriteMemory, RewriteQuestions,
      RewriteObservation, PathValue;
    var steps := MintedDraft(env, raw, out);
    var mapping := DraftMapping(raw);
    if IsIdentity(mapping) {
      IdentityKeepsReferences(ReferenceAt(env, raw, pos), mapping);
    } else {
      RebuiltReferences(env, raw, steps, mapping, pos);
    }
  }

  lemma IdentityKeepsReferences(r: Option<Json>, mapping: Mapping)
    requires IsIdentity(mapping)
    ensures RenameReference(r, mapping) == r
  {
    if r.Some? && r.value.Str? {
      IdentityKeepsPaths(r.value.s, mapping);
    }
  }

  lemma RebuiltReferences(env: Environment, raw: Fields, steps: seq<Json>, mapping: Mapping, pos: Position)
    requires Get(raw, STEPS).Arr? && RewriteSteps(env, raw[STEPS].items, mapping, |raw[STEPS].items|) == Success(steps)
    ensures ReferenceAt(env, Rebuild(env, raw, steps, mapping), pos) ==
      RenameReference(ReferenceAt(env, raw, pos), mapping)
  {
    hide RewriteStep, RewriteSteps, Rebuild, EffectiveReference, RewriteMemory, RewriteQuestions, RewriteObservation,
      PathValue;
    var out := Rebuild(env, raw, steps, mapping);
    BlocksOf(env, raw, steps, mapping);
    match pos
    case InputAt(i, n) =>
      StepOfMinted(env, raw, steps, mapping, i);
      if StepAt(raw, i).Some? {
        InputsAreRenamed(env, StepAt(raw, i).value, mapping, StepAt(out, i).value, n);
      }
    case PinAt(i, k) =>
      StepOfMinted(env, raw, steps, mapping, i);
      if StepAt(raw, i).Some? {
        PinsAreRenamed(env, StepAt(raw, i).value, mapping, StepAt(out, i).value, k);
      }
    case ConfigAt(i, k) =>
      StepOfMinted(env, raw, steps, mapping, i);
      if StepAt(raw, i).Some? {
        EffectiveReferenceIsRenamed(env, StepAt(raw, i).value, mapping, StepAt(out, i).value, k);
      } else {
        NoStepNoReference(env, k);
      }
    case QueryFrom => MemoryReferencesAreRenamed(Get(raw, LEARNED_MEMORY), mapping, 0);
    case DateFrom(n) =>
      MemoryReferencesAreRenamed(Get(raw, LEARNED_MEMORY), mapping, n);
      if ObservationAt(raw, n).Some? { ObservationIsRenamed(ObservationAt(raw, n).value, mapping); }
    case RefFrom(n) =>
      MemoryReferencesAreRenamed(Get(raw, LEARNED_MEMORY), mapping, n);
      if ObservationAt(raw, n).Some? { ObservationIsRenamed(ObservationAt(raw, n).value, mapping); }
    case CandidateFrom => QuestionReferencesAreRenamed(Get(raw, QUESTIONS), mapping, 0);
    case SuggestInput(n) => QuestionReferencesAreRenamed(Get(raw, QUESTIONS), mapping, n);
  }

  lemma NoStepNoReference(env: Environment, k: string)
    ensures EffectiveReference(env, None, k) == None
  {
  }

  /** Minting renames simultaneously: one to one, onto placeholder ids, on every draft it accepts. */
  lemma AcceptedDraftsAreRenamed(env: Environment, raw: Fields)
    requires Mint(env, raw).Success?
    ensures Renaming(DraftMapping(raw)) && PlaceholderIds(DraftMapping(raw))
  {
    hide MappingOf, Originals, RewriteSteps, Rebuild, Renaming, PlaceholderIds;
    if Get(raw, STEPS).Arr? {
      MappingIsARenaming(Originals(raw[STEPS].items, |raw[STEPS].items|));
    } else {
      MappingIsARenaming([]);
      assert MappingOf([], 0) == map[] by { NothingToMap(); }
    }
  }

  lemma NothingToMap()
    ensures MappingOf([], 0) == map[]
  {
  }

  /** What a reference gives in a run; a value that is no path stands for itself. */
  function Meaning(ctx: Context, r: Option<Json>): Option<Json> {
    if r.Some? && r.value.Str? then Some(Resolve(ctx, r.value.s)) else r
  }

  ghost predicate SafeReference(r: Option<Json>, mapping: Mapping) {
    r.Some? && r.value.Str? ==> ReferencesSafely(r.value.s, mapping)
  }

  /** Minting preserves reference meaning: each reference of the minted draft, resolved against the renamed run,
      gives the value the original gave. */
  lemma MintingPreservesReferences(env: Environment, raw: Fields, out: Fields, pos: Position, ctx: Context)
    requires Mint(env, raw) == Success(out) && ctx.steps.Keys <= DraftMapping(raw).Keys
    requires SafeReference(ReferenceAt(env, raw, pos), DraftMapping(raw))
    ensures Renaming(DraftMapping(raw))
    ensures Meaning(RenameContext(ctx, DraftMapping(raw)), ReferenceAt(env, out, pos)) ==
      Meaning(ctx, ReferenceAt(env, raw, pos))
  {
    hide Mint, DraftMapping, ReferenceAt, Resolve, RewritePath, Renaming, RenameContext, ReferencesSafely;
    AcceptedDraftsAreRenamed(env, raw);
    ReferencesAreRenamed(env, raw, out, pos);
    var r := ReferenceAt(env, raw, pos);
    if r.Some? && r.value.Str? {
      RewrittenPathResolves(r.value.s, DraftMapping(raw), ctx);
    }
  }

  /** A draft all of whose references keep their meaning on every run. */
  ghost predicate MeaningKept(env: Environment, raw: Fields, out: Fields, mapping: Mapping)
    requires Renaming(mapping)
  {
    forall pos: Position, ctx: Context :: ctx.steps.Keys <= mapping.Keys ==>
      Meaning(RenameContext(ctx, mapping), ReferenceAt(env, out, pos)) == Meaning(ctx, ReferenceAt(env, raw, pos))
  }

  /** When minting moves an id, it keeps the meaning of all references exactly when each names one step and no
      dangling id that minting hands to another step. */
  lemma MeaningKeptIffClosed(env: Environment, raw: Fields, out: Fields)
    requires Mint(env, raw) == Success(out) && !IsIdentity(DraftMapping(raw))
    ensures Renaming(DraftMapping(raw))
    ensures MeaningKept(env, raw, out, DraftMapping(raw)) <==>
      forall pos: Position :: SafeReference(ReferenceAt(env, raw, pos), DraftMapping(raw))
  {
    hide Mint, DraftMapping, ReferenceAt, Resolve, RewritePath, Renaming, RenameContext, ReferencesSafely;
    AcceptedDraftsAreRenamed(env, raw);
    var mapping := DraftMapping(raw);
    if MeaningKept(env, raw, out, mapping) {
      forall pos: Position ensures SafeReference(ReferenceAt(env, raw, pos), mapping) {
        KeptMeansSafe(env, raw, out, pos);
      }
    } else {
      var pos: Position, ctx: Context :| ctx.steps.Keys <= mapping.Keys &&
        Meaning(RenameContext(ctx, mapping), ReferenceAt(env, out, pos)) != Meaning(ctx, ReferenceAt(env, raw, pos));
      if SafeReference(ReferenceAt(env, raw, pos), mapping) {
        MintingPreservesReferences(env, raw, out, pos, ctx);
      }
    }
  }

  lemma KeptMeansSafe(env: Environment, raw: Fields, out: Fields, pos: Position)
    requires Mint(env, raw) == Success(out) && !IsIdentity(DraftMapping(raw)) && Renaming(DraftMapping(raw))
    requires MeaningKept(env, raw, out, DraftMapping(raw))
    ensures SafeReference(ReferenceAt(env, raw, pos), DraftMapping(raw))
  {
    hide Mint, DraftMapping, ReferenceAt, Resolve, RewritePath, Renaming, RenameContext, ReferencesSafely;
    var mapping, r := DraftMapping(raw), ReferenceAt(env, raw, pos);
    if r.Some? && r.value.Str? && !ReferencesSafely(r.value.s, mapping) {
      ReferencesAreRenamed(env, raw, out, pos);
      var ctx := UnsafePathChanges(r.value.s, mapping);
    }
  }

  function EdgeAt(def: Fields, i: nat): Option<Json> {
    ItemAt(FieldAt(Some(Obj(def)), EDGES), i)
  }

  /** The condition text of an edge, when it has one. */
  function ConditionAt(def: Fields, i: nat): Option<string> {
    var c := FieldAt(EdgeAt(def, i), CONDITION);
    if c.Some? && c.value.Str? then Some(c.value.s) else None
  }

  lemma EdgesOfMinted(env: Environment, raw: Fields, out: Fields, i: nat)
    requires Mint(env, raw) == Success(out) && !IsIdentity(DraftMapping(raw))
    ensures EdgeAt(out, i) == match EdgeAt(raw, i)
      case None => None
      case Some(e) => Some(RewriteEdge(env.syntax, e, DraftMapping(raw)))
  {
    hide Mint, RewriteSteps, Rebuild, DraftMapping, RewriteEdge;
    var steps := MintedDraft(env, raw, out);
    BlocksOf(env, raw, steps, DraftMapping(raw));
  }

  lemma EdgeConditionIsRewritten(syntax: Syntax, e: Json, mapping: Mapping)
    requires e.Obj? && CONDITION in e.fields && e.fields[CONDITION].Str?
    ensures FieldAt(Some(RewriteEdge(syntax, e, mapping)), CONDITION) ==
      Some(Str(RewriteCondition(syntax, e.fields[CONDITION].s, mapping)))
  {
    hide RewriteCondition;
    var c := CONDITION;
    assert c[0] == 'c' && c !in ENDPOINT_KEYS;
  }

  lemma IdentityKeepsNames(names: Names, mapping: Mapping)
    requires Renaming(mapping) && IsIdentity(mapping) && names.steps.Keys <= mapping.Keys
    ensures RenameNames(names, mapping) == names
  {
    assert RenameSteps(names.steps, mapping) == names.steps;
  }

  /** Minting preserves conditions: each edge of the minted draft, evaluated over the renamed step outputs, has
      the truth value it had. */
  lemma MintingPreservesConditions(env: Environment, raw: Fields, out: Fields, i: nat, sem: Semantics, names: Names)
    requires Lawful(env.syntax, DraftMapping(raw)) && Mint(env, raw) == Success(out)
    requires names.steps.Keys <= DraftMapping(raw).Keys
    requires ConditionAt(raw, i).Some?
    requires var e := env.syntax.parse(ConditionAt(raw, i).value); e.Some? ==> Guarded(e.value, DraftMapping(raw))
    ensures Renaming(DraftMapping(raw)) && ConditionAt(out, i).Some?
    ensures EvalText(env.syntax, sem, ConditionAt(out, i).value, RenameNames(names, DraftMapping(raw))) ==
      EvalText(env.syntax, sem, ConditionAt(raw, i).value, names)
  {
    hide Mint, DraftMapping, Renaming, RenameNames, EvalText, RewriteEdge, RewriteCondition, Guarded, Lawful;
    AcceptedDraftsAreRenamed(env, raw);
    var mapping := DraftMapping(raw);
    if IsIdentity(mapping) {
      var _ := MintedDraft(env, raw, out);
      IdentityKeepsNames(names, mapping);
    } else {
      EdgesOfMinted(env, raw, out, i);
      EdgeConditionIsRewritten(env.syntax, EdgeAt(raw, i).value, mapping);
      ConditionPreserved(env.syntax, sem, ConditionAt(raw, i).value, mapping, names);
    }
  }

  /** The template text of an observation, when it has one. */
  function TemplateAt(def: Fields, n: nat): Option<string> {
    var t := FieldAt(ObservationAt(def, n), TEXT);
    if t.Some? && t.value.Str? then Some(t.value.s) else None
  }

  lemma TemplateIsRewritten(env: Environment, raw: Fields, out: Fields, n: nat)
    requires Mint(env, raw) == Success(out) && !IsIdentity(DraftMapping(raw)) && TemplateAt(raw, n).Some?
    ensures TemplateAt(out, n) == Some(RewriteTemplate(TemplateAt(raw, n).value, DraftMapping(raw)))
  {
    hide Mint, RewriteSteps, Rebuild, DraftMapping, RewriteMemory, RewriteObservation, RewriteTemplate;
    var steps := MintedDraft(env, raw, out);
    BlocksOf(env, raw, steps, DraftMapping(raw));
    MemoryReferencesAreRenamed(raw[LEARNED_MEMORY], DraftMapping(raw), n);
    ObservationIsRenamed(ObservationAt(raw, n).value, DraftMapping(raw));
  }

  lemma IdentityKeepsContext(ctx: Context, mapping: Mapping)
    requires Renaming(mapping) && IsIdentity(mapping) && ctx.steps.Keys <= mapping.Keys
    ensures RenameContext(ctx, mapping) == ctx
  {
    assert RenameSteps(ctx.steps, mapping) == ctx.steps;
  }

  /** Each observation of the minted draft renders, against the renamed run, to the text it rendered to. */
  lemma MintingPreservesTemplates(env: Environment, raw: Fields, out: Fields, n: nat, ctx: Context,
    text: Json -> string)
    requires Mint(env, raw) == Success(out) && ctx.steps.Keys <= DraftMapping(raw).Keys && TemplateAt(raw, n).Some?
    requires HolesReferenceSafely(Scan(TemplateAt(raw, n).value), DraftMapping(raw))
    ensures Renaming(DraftMapping(raw)) && TemplateAt(out, n).Some?
    ensures Render(Scan(TemplateAt(out, n).value), RenameContext(ctx, DraftMapping(raw)), text) ==
      Render(Scan(TemplateAt(raw, n).value), ctx, text)
  {
    hide Mint, DraftMapping, Renaming, RenameContext, Render, Scan, TemplateAt, RewriteTemplate, HolesReferenceSafely,
      PlaceholderIds;
    AcceptedDraftsAreRenamed(env, raw);
    var mapping := DraftMapping(raw);
    if IsIdentity(mapping) {
      var _ := MintedDraft(env, raw, out);
      IdentityKeepsContext(ctx, mapping);
    } else {
      TemplateIsRewritten(env, raw, out, n);
      RenderingCommutes(TemplateAt(raw, n).value, mapping, ctx, text);
    }
  }

  /** The agent-facing text of a step, under `goal` or `system_prompt`. */
  function ProseAt(def: Fields, i: nat, k: string): Option<string> {
    var t := FieldAt(StepAt(def, i), k);
    if t.Some? && t.value.Str? then Some(t.value.s) else None
  }

  lemma StepProseIsRewritten(env: Environment, step: Json, mapping: Mapping, out: Json, k: string)
    requires (k == GOAL || k == SYSTEM_PROMPT) && RewriteStep(env, step, mapping) == Success(out)
    requires step.Obj? && k in step.fields && step.fields[k].Str?
    ensures FieldAt(Some(out), k) == Some(Str(RewriteProse(step.fields[k].s, mapping)))
  {
    hide RewriteProse, RewriteStep;
    StepFieldsOf(env, step.fields, mapping, out);
    var g, s, i, n, p, c := GOAL, SYSTEM_PROMPT, ID, INPUTS, PIN_PARAMS, CONFIG;
    assert g[0] == 'g' && s[0] == 's' && i[0] == 'i' && n[0] == 'i' && p[0] == 'p' && c[0] == 'c';
    assert k in out.fields by {
      assert k in step.fields.Keys - {CONFIG};
    }
  }

  /** Minting keeps agent-facing prose: its placeholders are renamed first, as in a template, and then scanning the
      minted text finds the same characters and the same delimited references with only step ids renamed. */
  lemma MintingKeepsProse(env: Environment, raw: Fields, out: Fields, i: nat, k: string)
    requires Mint(env, raw) == Success(out) && (k == GOAL || k == SYSTEM_PROMPT) && ProseAt(raw, i, k).Some?
    ensures ProseAt(out, i, k).Some?
    ensures IsIdentity(DraftMapping(raw)) ==> ProseAt(out, i, k) == ProseAt(raw, i, k)
    ensures !IsIdentity(DraftMapping(raw)) && ScanSafe(DraftMapping(raw)) ==>
      Pieces(ProseAt(out, i, k).value) ==
        RenamePieces(Pieces(RewriteTemplate(ProseAt(raw, i, k).value, DraftMapping(raw))), DraftMapping(raw))
  {
    hide Mint, RewriteStep, RewriteSteps, Rebuild, DraftMapping, RewriteTemplate, RewriteDelimited, Pieces,
      RenamePieces,
      ScanSafe, PlaceholderIds, Renaming, IsIdentity;
    var steps := MintedDraft(env, raw, out);
    var mapping := DraftMapping(raw);
    AcceptedDraftsAreRenamed(env, raw);
    if !IsIdentity(mapping) {
      StepOfMinted(env, raw, steps, mapping, i);
      StepProseIsRewritten(env, StepAt(raw, i).value, mapping, StepAt(out, i).value, k);
      if ScanSafe(mapping) {
        RewritingKeepsReferences(RewriteTemplate(ProseAt(raw, i, k).value, mapping), mapping);
      }
    }
  }

  /** The step keys minting looks into; every other key is data. */
  const REWRITTEN_KEYS: set<string> := {ID, INPUTS, PIN_PARAMS, CONFIG, GOAL, SYSTEM_PROMPT}

  lemma OtherStepKeysAreData(decl: Declaration, k: string, v: Json, mapping: Mapping)
    requires k !in REWRITTEN_KEYS
    ensures RewriteStepField(decl, k, v, mapping) == v
  {
  }

  /** A step of a minted draft holds the same data as the step it came from: the keys are the same, except that a
      `config` may appear; the config keys the function does not read keep their values; and the keys that appear
      there are the defaults that name a moved step. */
  ghost predicate SameData(env: Environment, before: Json, after: Json, mapping: Mapping) {
    if !before.Obj? then after == before
    else
      && after.Obj?
      && after.fields.Keys - {CONFIG} == before.fields.Keys - {CONFIG}
      && (forall k :: k in before.fields && k !in REWRITTEN_KEYS ==>
        k in after.fields && after.fields[k] == before.fields[k])
      && SameConfigData(DeclarationOf(env, before.fields), ConfigOf(before.fields), ConfigOf(after.fields), mapping)
  }

  ghost predicate SameConfigData(decl: Declaration, before: Fields, after: Fields, mapping: Mapping) {
    && (forall k :: k in before && k !in decl.fields ==> k in after && after[k] == before[k])
    && (forall k :: k in after && k !in before ==>
          k in decl.defaults && RewritePath(decl.defaults[k], mapping) != decl.defaults[k])
  }

  lemma StepKeepsItsData(env: Environment, step: Json, mapping: Mapping, out: Json)
    requires RewriteStep(env, step, mapping) == Success(out)
    ensures SameData(env, step, out, mapping)
  {
    hide RewriteStep, RewriteStepField, DeclarationOf;
    if step.Obj? {
      StepFieldsOf(env, step.fields, mapping, out);
      ConfigOfRewritten(env, step.fields, mapping, out);
      forall k | k in step.fields && k !in REWRITTEN_KEYS ensures k in out.fields && out.fields[k] == step.fields[k] {
        assert CONFIG in REWRITTEN_KEYS && k in step.fields.Keys - {CONFIG};
        OtherStepKeysAreData(DeclarationOf(env, step.fields), k, step.fields[k], mapping);
      }
    } else {
      NonStepIsData(env, step, mapping);
    }
  }

  lemma UnmovedStepKeepsItsData(env: Environment, step: Json, mapping: Mapping)
    ensures SameData(env, step, step, mapping)
  {
  }

  /** The same value but for the given keys of an object. */
  ghost predicate SameExcept(before: Json, after: Json, keys: set<string>) {
    if !before.Obj? then after == before
    else
      && after.Obj? && after.fields.Keys == before.fields.Keys
      && forall k :: k in before.fields && k !in keys ==> after.fields[k] == before.fields[k]
  }

  /** The same list but for the given keys of its objects; anything but a list is the same. */
  ghost predicate SameItemsExcept(before: Json, after: Json, keys: set<string>) {
    if !before.Arr? then after == before
    else
      && after.Arr? && |after.items| == |before.items|
      && forall i :: 0 <= i < |before.items| ==> SameExcept(before.items[i], after.items[i], keys)
  }

  lemma EdgesKeepTheirData(syntax: Syntax, v: Json, mapping: Mapping)
    ensures SameItemsExcept(v, RewriteEdges(syntax, v, mapping), ENDPOINT_KEYS + {CONDITION})
  {
    hide RewriteCondition, Renamed;
  }

  lemma MemoryKeepsItsData(v: Json, mapping: Mapping)
    ensures var out := RewriteMemory(v, mapping);
      && SameExcept(v, out, {RECALL, OBSERVATIONS})
      && (v.Obj? && RECALL in v.fields ==> SameExcept(v.fields[RECALL], out.fields[RECALL], {QUERY_FROM}))
      && (v.Obj? && OBSERVATIONS in v.fields ==>
            SameItemsExcept(v.fields[OBSERVATIONS], out.fields[OBSERVATIONS], {DATE_FROM, REF_FROM, TEXT}))
  {
    hide PathValue, RewriteTemplate;
    var r, o := RECALL, OBSERVATIONS;
    assert r[0] == 'r' && o[0] == 'o';
  }

  lemma QuestionsKeepTheirData(v: Json, mapping: Mapping)
    ensures var out := RewriteQuestions(v, mapping);
      && SameExcept(v, out, {CANDIDATE_FROM, SUGGEST})
      && (v.Obj? && SUGGEST in v.fields ==> SameExcept(v.fields[SUGGEST], out.fields[SUGGEST], {INPUTS}))
  {
    hide PathValue, PathValues;
    var c, s := CANDIDATE_FROM, SUGGEST;
    assert c[0] == 'c' && s[0] == 's';
  }

  /** Edges, learned memory and questions hold the same data, but for the positions that hold step ids, paths,
      conditions and templates. */
  ghost predicate SameBlocks(raw: Fields, out: Fields) {
    && (EDGES in raw ==> EDGES in out && SameItemsExcept(raw[EDGES], out[EDGES], ENDPOINT_KEYS + {CONDITION}))
    && (LEARNED_MEMORY in raw ==>
          && LEARNED_MEMORY in out
          && SameExcept(raw[LEARNED_MEMORY], out[LEARNED_MEMORY], {RECALL, OBSERVATIONS})
          && var before, after := Some(raw[LEARNED_MEMORY]), Some(out[LEARNED_MEMORY]);
             SameWithin(FieldAt(before, RECALL), FieldAt(after, RECALL), {QUERY_FROM})
             && SameListWithin(FieldAt(before, OBSERVATIONS), FieldAt(after, OBSERVATIONS),
               {DATE_FROM, REF_FROM, TEXT}))
    && (QUESTIONS in raw ==>
          && QUESTIONS in out
          && SameExcept(raw[QUESTIONS], out[QUESTIONS], {CANDIDATE_FROM, SUGGEST})
          && SameWithin(FieldAt(Some(raw[QUESTIONS]), SUGGEST), FieldAt(Some(out[QUESTIONS]), SUGGEST), {INPUTS}))
  }

  ghost predicate SameWithin(before: Option<Json>, after: Option<Json>, keys: set<string>) {
    before.Some? ==> after.Some? && SameExcept(before.value, after.value, keys)
  }

  ghost predicate SameListWithin(before: Option<Json>, after: Option<Json>, keys: set<string>) {
    before.Some? ==> after.Some? && SameItemsExcept(before.value, after.value, keys)
  }

  lemma UnmovedBlocksAreTheSame(raw: Fields)
    ensures SameBlocks(raw, raw)
  {
  }

  lemma RebuiltBlocksAreTheSame(env: Environment, raw: Fields, steps: seq<Json>, mapping: Mapping)
    requires Get(raw, STEPS).Arr?
    ensures SameBlocks(raw, Rebuild(env, raw, steps, mapping))
  {
    hide Rebuild, RewriteEdges, RewriteMemory, RewriteQuestions, SameItemsExcept;
    BlocksOf(env, raw, steps, mapping);
    EdgesKeepTheirData(env.syntax, Get(raw, EDGES), mapping);
    MemoryKeepsItsData(Get(raw, LEARNED_MEMORY), mapping);
    QuestionsKeepTheirData(Get(raw, QUESTIONS), mapping);
  }

  /** Minting leaves data alone: no block appears or goes, blocks it does not know are returned as they are, and
      every step keeps its data. */
  lemma DataIsUntouched(env: Environment, raw: Fields, out: Fields)
    requires Mint(env, raw) == Success(out)
    ensures out.Keys == raw.Keys
    ensures forall k :: k in raw && k !in {STEPS, EDGES, LEARNED_MEMORY, QUESTIONS} ==> out[k] == raw[k]
    ensures forall i: nat :: StepAt(out, i).Some? == StepAt(raw, i).Some?
    ensures forall i: nat :: StepAt(raw, i).Some? ==>
      SameData(env, StepAt(raw, i).value, StepAt(out, i).value, DraftMapping(raw))
    ensures SameBlocks(raw, out)
  {
    hide Mint, RewriteSteps, RewriteStep, Rebuild, DraftMapping, SameData, SameBlocks, IsIdentity, StepAt;
    var steps := MintedDraft(env, raw, out);
    var mapping := DraftMapping(raw);
    if IsIdentity(mapping) {
      UnmovedBlocksAreTheSame(raw);
      forall i: nat | StepAt(raw, i).Some? ensures SameData(env, StepAt(raw, i).value, StepAt(out, i).value, mapping) {
        UnmovedStepKeepsItsData(env, StepAt(raw, i).value, mapping);
      }
    } else {
      BlocksOf(env, raw, steps, mapping);
      RebuiltBlocksAreTheSame(env, raw, steps, mapping);
      forall i: nat
        ensures StepAt(out, i).Some? == StepAt(raw, i).Some?
        ensures StepAt(raw, i).Some? ==> SameData(env, StepAt(raw, i).value, StepAt(out, i).value, mapping)
      {
        StepOfMinted(env, raw, steps, mapping, i);
        if StepAt(raw, i).Some? {
          StepKeepsItsData(env, StepAt(raw, i).value, mapping, StepAt(out, i).value);
        }
      }
    }
  }

  lemma ConfigKeepsItsShape(decl: Declaration, v: Json, mapping: Mapping)
    ensures var out := RewriteStepField(decl, CONFIG, v, mapping); out.Obj? == v.Obj? && (!v.Obj? ==> out == v)
  {
    var c, i, g, s := CONFIG, ID, GOAL, SYSTEM_PROMPT;
    assert c[0] == 'c' && i[0] == 'i' && g[0] == 'g' && s[0] == 's';
  }

  /** Writing down the defaults of the step raises: its `config` is a non-empty list or string that does not name a
      default of its function whose step moves, or a number or true where the function has any default at all. */
  predicate RaisesOnConfig(env: Environment, step: Json, mapping: Mapping) {
    step.Obj? && ConfigRaises(DeclarationOf(env, step.fields), Get(step.fields, CONFIG), mapping)
  }

  /** Which configs cannot be rewritten, for a step of a known function: a non-empty string or list that does not name
      some default whose step moves, or a number or true when there is a default at all. */
  lemma RaisesOnConfigIff(env: Environment, step: Fields, f: string, mapping: Mapping)
    requires Get(step, FUNCTION) == Str(f)
    ensures f !in env.functions ==> !RaisesOnConfig(env, Obj(step), mapping)
    ensures f in env.functions ==>
      var defaults := env.functions[f].defaults;
      RaisesOnConfig(env, Obj(step), mapping) <==>
        match Get(step, CONFIG)
        case Str(s) =>
          && s != ""
          && exists k :: k in defaults && RewritePath(defaults[k], mapping) != defaults[k]
               && forall i :: 0 <= i <= |s| ==> !(k <= s[i..])
        case Arr(items) =>
          && items != []
          && exists k :: k in defaults && RewritePath(defaults[k], mapping) != defaults[k] && Str(k) !in items
        case Int(n) => n != 0 && defaults != map[]
        case Real(x) => x != 0.0 && defaults != map[]
        case Bool(b) => b && defaults != map[]
        case _ => false
  {
    hide RewritePath, Contains;
    match Get(step, CONFIG)
    case Str(s) =>
      forall k ensures Contains(s, k) <==> exists i :: 0 <= i <= |s| && k <= s[i..] {
        ContainsIff(s, k);
      }
    case _ =>
  }

  /** What becomes of a dictionary config, key by key: a reference its function declares is renamed, any other value
      stays, and a default that names a moved step is written down under a key that is not configured. */
  lemma DeclaredConfigIsRenamed(env: Environment, step: Fields, f: string, mapping: Mapping, out: Json, k: string)
    requires RewriteStep(env, Obj(step), mapping) == Success(out)
    requires Get(step, FUNCTION) == Str(f) && f in env.functions && Get(step, CONFIG).Obj?
    ensures out.Obj? && Get(out.fields, CONFIG).Obj?
    ensures var before, after, decl := Get(step, CONFIG).fields, Get(out.fields, CONFIG).fields, env.functions[f];
      if k in before then
        && k in after
        && after[k] == if k in decl.fields && before[k].Str? then Str(RewritePath(before[k].s, mapping)) else before[k]
      else if k in decl.defaults && RewritePath(decl.defaults[k], mapping) != decl.defaults[k] then
        k in after && after[k] == Str(RewritePath(decl.defaults[k], mapping))
      else k !in after
  {
    hide RewritePath;
    var c, i, g, s, n := CONFIG, ID, GOAL, SYSTEM_PROMPT, INPUTS;
    assert c[0] == 'c' && i[0] == 'i' && g[0] == 'g' && s[0] == 's' && n[0] == 'i' && PIN_PARAMS[0] == 'p';
    var decl := env.functions[f];
    var fields := RewriteStepFields(env, step, mapping);
    assert fields[CONFIG] == RewriteStepField(decl, CONFIG, step[CONFIG], mapping);
  }

  lemma StepFailsIff(env: Environment, step: Json, mapping: Mapping)
    ensures RaisesOnConfig(env, step, mapping) ==> RewriteStep(env, step, mapping) == Failure(MalformedConfig)
    ensures !RaisesOnConfig(env, step, mapping) ==> RewriteStep(env, step, mapping).Success?
  {
    hide RewriteStepField, Pending;
    if step.Obj? {
      ConfigKeepsItsShape(DeclarationOf(env, step.fields), Get(step.fields, CONFIG), mapping);
    }
  }

  lemma {:induction false} StepsFailIff(env: Environment, steps: seq<Json>, mapping: Mapping, n: nat)
    requires n <= |steps|
    ensures var r := RewriteSteps(env, steps, mapping, n);
      if exists i :: 0 <= i < n && RaisesOnConfig(env, steps[i], mapping) then r == Failure(MalformedConfig)
        else r.Success?
  {
    hide RewriteStep, RaisesOnConfig;
    if n > 0 {
      StepsFailIff(env, steps, mapping, n - 1);
      StepFailsIff(env, steps[n - 1], mapping);
    }
  }
}

/** `mint_platform_step_ids` of scaffold.py: replace model-chosen step ids everywhere a draft refers to them. */
module Scaffold {
  import opened Wrappers
  import opened Json
  import opened Numerals
  import opened Paths
  import opened Templates
  import opened Conditions

  type Fields = map<string, Json>

  /** What one function reads as references, and the defaults its body defines. */
  datatype Declaration = Declaration(fields: set<string>, defaults: map<string, string>)

  datatype Environment = Environment(functions: map<string, Declaration>, syntax: Syntax)

  datatype ScaffoldError = RepeatedIds | MalformedConfig

  function Minted(n: nat): string {
    "step_" + Decimal(n)
  }

  /** Minted ids are one to one, and made of placeholder characters without a dot. */
  lemma MintedIdsAreApart(a: nat, b: nat)
    ensures Minted(a) == Minted(b) ==> a == b
    ensures Minted(a) != "" && PathText(Minted(a)) && '.' !in Minted(a)
  {
    DecimalReadsBack(a);
    DecimalReadsBack(b);
    assert Minted(a)[5..] == Decimal(a) && Minted(b)[5..] == Decimal(b);
    var prefix := "step_";
    assert prefix[0] == 's' && prefix[1] == 't' && prefix[2] == 'e' && prefix[3] == 'p' && prefix[4] == '_';
    forall i | 0 <= i < |Minted(a)| ensures PathChar(Minted(a)[i]) && Minted(a)[i] != '.' {
      if i >= 5 {
        assert Minted(a)[i] == Decimal(a)[i - 5];
      } else {
        assert Minted(a)[i] == prefix[i];
      }
    }
  }

  const ID := "id"
  const FUNCTION := "function"
  const INPUTS := "inputs"
  const PIN_PARAMS := "pin_params"
  const CONFIG := "config"
  const GOAL := "goal"
  const SYSTEM_PROMPT := "system_prompt"
  const EDGES := "edges"
  const CONDITION := "condition"
  const ENDPOINT_KEYS: set<string> := {"from", "to", "source", "target"}
  const LEARNED_MEMORY := "learned_memory"
  const RECALL := "recall"
  const QUERY_FROM := "query_from"
  const OBSERVATIONS := "observations"
  const DATE_FROM := "date_from"
  const REF_FROM := "ref_from"
  const TEXT := "text"
  const QUESTIONS := "questions"
  const CANDIDATE_FROM := "candidate_from"
  const SUGGEST := "suggest"

  /** The usable step ids of a draft, in order. */
  function Originals(steps: seq<Json>, n: nat): seq<string>
    requires n <= |steps|
  {
    if n == 0 then [] else Originals(steps, n - 1) + (if HasId(steps[n - 1]) then [IdOf(steps[n - 1])] else [])
  }

  predicate HasId(step: Json) {
    step.Obj? && ID in step.fields && step.fields[ID].Str? && step.fields[ID].s != ""
  }

  function IdOf(step: Json): string
    requires HasId(step)
  {
    step.fields[ID].s
  }

  predicate Distinct(ids: seq<string>) {
    forall i, j :: 0 <= i < j < |ids| ==> ids[i] != ids[j]
  }

  /** `{old: f"step_{i}" for i, old in enumerate(originals, 1)}` */
  function MappingOf(ids: seq<string>, n: nat): Mapping
    requires n <= |ids|
  {
    if n == 0 then map[] else MappingOf(ids, n - 1)[ids[n - 1] := Minted(n)]
  }

  predicate IsIdentity(mapping: Mapping) {
    forall a :: a in mapping ==> mapping[a] == a
  }

  lemma {:induction false} MappingNumbersTheIds(ids: seq<string>, n: nat)
    requires n <= |ids| && Distinct(ids)
    ensures var m := MappingOf(ids, n);
      && (forall i :: 0 <= i < n ==> ids[i] in m && m[ids[i]] == Minted(i + 1))
      && (forall a :: a in m ==> exists i :: 0 <= i < n && ids[i] == a)
  {
    if n > 0 {
      MappingNumbersTheIds(ids, n - 1);
    }
  }

  /** Minting renames simultaneously and one to one, whatever names the draft already used. */
  lemma MappingIsARenaming(ids: seq<string>)
    requires Distinct(ids)
    ensures var m := MappingOf(ids, |ids|); Renaming(m) && PlaceholderIds(m)
  {
    hide MappingOf, Minted, PathText, Distinct;
    var m := MappingOf(ids, |ids|);
    MappingNumbersTheIds(ids, |ids|);
    forall a | a in m ensures m[a] != "" && PathText(m[a]) && '.' !in m[a] {
      var i :| 0 <= i < |ids| && ids[i] == a;
      MintedIdsAreApart(i + 1, i + 1);
    }
    forall a, b | a in m && b in m && m[a] == m[b] ensures a == b {
      var i :| 0 <= i < |ids| && ids[i] == a;
      var j :| 0 <= j < |ids| && ids[j] == b;
      MintedIdsAreApart(i + 1, j + 1);
    }
  }

  function Renamed(id: string, mapping: Mapping): string {
    if id in mapping then mapping[id] else id
  }

  /** A value known to be a context path. */
  function PathValue(v: Json, mapping: Mapping): Json {
    if v.Str? then Str(RewritePath(v.s, mapping)) else v
  }

  function PathValues(items: seq<Json>, mapping: Mapping): seq<Json> {
    seq(|items|, i requires 0 <= i < |items| => PathValue(items[i], mapping))
  }

  function DeclarationOf(env: Environment, step: Fields): Declaration {
    var f := Get(step, FUNCTION);
    if f.Str? && f.s in env.functions then env.functions[f.s] else Declaration({}, map[])
  }

  function RewriteStepField(decl: Declaration, k: string, v: Json, mapping: Mapping): Json {
    if k == ID && v.Str? then Str(Renamed(v.s, mapping))
    else if k == INPUTS && v.Arr? then Arr(PathValues(v.items, mapping))
    else if k == PIN_PARAMS && v.Obj? then Obj(map p | p in v.fields :: PathValue(v.fields[p], mapping))
    else if k == CONFIG && v.Obj? then
      Obj(map c | c in v.fields :: if c in decl.fields then PathValue(v.fields[c], mapping) else v.fields[c])
    else if (k == GOAL || k == SYSTEM_PROMPT) && v.Str? then Str(RewriteProse(v.s, mapping))
    else v
  }

  /** `out_s.get("config") or {}`, when that is a dictionary. */
  function ConfigOf(step: Fields): Fields {
    var config := Get(step, CONFIG);
    if config.Obj? then config.fields else map[]
  }

  /** The defaults that name a moved step and are not configured. */
  function Pending(decl: Declaration, config: Fields, mapping: Mapping): Fields {
    map k | k in decl.defaults && k !in config && RewritePath(decl.defaults[k], mapping) != decl.defaults[k] ::
      Str(RewritePath(decl.defaults[k], mapping))
  }

  /** A `config` that is neither a dictionary nor empty: `k not in config` or `{**config}` raises. */
  predicate ConfigRaises(decl: Declaration, config: Json, mapping: Mapping) {
    config.Truthy() && !config.Obj? &&
    match config
    case Arr(items) =>
      exists k :: k in decl.defaults && Str(k) !in items && RewritePath(decl.defaults[k], mapping) != decl.defaults[k]
    case Str(s) =>
      exists k :: k in decl.defaults && !Contains(s, k) && RewritePath(decl.defaults[k], mapping) != decl.defaults[k]
    case _ => decl.defaults != map[]
  }

  function RewriteStepFields(env: Environment, step: Fields, mapping: Mapping): Fields {
    var decl := DeclarationOf(env, step);
    map k | k in step :: RewriteStepField(decl, k, step[k], mapping)
  }

  function RewriteStep(env: Environment, step: Json, mapping: Mapping): Result<Json, ScaffoldError> {
    if !step.Obj? then Success(step)
    else
      var decl := DeclarationOf(env, step.fields);
      var out := RewriteStepFields(env, step.fields, mapping);
      if ConfigRaises(decl, Get(out, CONFIG), mapping) then Failure(MalformedConfig)
      else
        var pending := Pending(decl, ConfigOf(out), mapping);
        Success(Obj(if pending == map[] || (Get(out, CONFIG).Truthy() && !Get(out, CONFIG).Obj?) then out
                    else out[CONFIG := Obj(ConfigOf(out) + pending)]))
  }

  function RewriteSteps(env: Environment, steps: seq<Json>, mapping: Mapping, n: nat): Result<seq<Json>, ScaffoldError>
    requires n <= |steps|
  {
    if n == 0 then Success([])
    else match RewriteSteps(env, steps, mapping, n - 1)
      case Failure(e) => Failure(e)
      case Success(before) =>
        match RewriteStep(env, steps[n - 1], mapping)
        case Failure(e) => Failure(e)
        case Success(step) => Success(before + [step])
  }

  function RewriteEdgeField(syntax: Syntax, k: string, v: Json, mapping: Mapping): Json {
    if k in ENDPOINT_KEYS && v.Str? then Str(Renamed(v.s, mapping))
    else if k == CONDITION && v.Str? then Str(RewriteCondition(syntax, v.s, mapping))
    else v
  }

  function RewriteEdge(syntax: Syntax, edge: Json, mapping: Mapping): Json {
    if edge.Obj? then Obj(map k | k in edge.fields :: RewriteEdgeField(syntax, k, edge.fields[k], mapping)) else edge
  }

  function RewriteEdges(syntax: Syntax, v: Json, mapping: Mapping): Json {
    if v.Arr? then Arr(seq(|v.items|, i requires 0 <= i < |v.items| => RewriteEdge(syntax, v.items[i], mapping))) else v
  }

  function RewriteObservation(o: Json, mapping: Mapping): Json {
    if !o.Obj? then o
    else Obj(map k | k in o.fields ::
      if k == DATE_FROM || k == REF_FROM then PathValue(o.fields[k], mapping)
      else if k == TEXT && o.fields[k].Str? then Str(RewriteTemplate(o.fields[k].s, mapping))
      else o.fields[k])
  }

  function RewriteMemoryField(k: string, v: Json, mapping: Mapping): Json {
    if k == RECALL && v.Obj? then
      Obj(map r | r in v.fields :: if r == QUERY_FROM then PathValue(v.fields[r], mapping) else v.fields[r])
    else if k == OBSERVATIONS && v.Arr? then
      Arr(seq(|v.items|, i requires 0 <= i < |v.items| => RewriteObservation(v.items[i], mapping)))
    else v
  }

  function RewriteMemory(v: Json, mapping: Mapping): Json {
    if v.Obj? then Obj(map k | k in v.fields :: RewriteMemoryField(k, v.fields[k], mapping)) else v
  }

  function RewriteQuestionField(k: string, v: Json, mapping: Mapping): Json {
    if k == CANDIDATE_FROM then PathValue(v, mapping)
    else if k == SUGGEST && v.Obj? then
      Obj(map s | s in v.fields ::
        if s == INPUTS && v.fields[s].Arr? then Arr(PathValues(v.fields[s].items, mapping)) else v.fields[s])
    else v
  }

  function RewriteQuestions(v: Json, mapping: Mapping): Json {
    if v.Obj? then Obj(map k | k in v.fields :: RewriteQuestionField(k, v.fields[k], mapping)) else v
  }

  /** One top-level block of the definition. */
  function RewriteBlock(env: Environment, k: string, v: Json, steps: seq<Json>, mapping: Mapping): Json {
    if k == STEPS then Arr(steps)
    else if k == EDGES then RewriteEdges(env.syntax, v, mapping)
    else if k == LEARNED_MEMORY then RewriteMemory(v, mapping)
    else if k == QUESTIONS then RewriteQuestions(v, mapping)
    else v
  }

  function Rebuild(env: Environment, raw: Fields, steps: seq<Json>, mapping: Mapping): Fields {
    map k | k in raw :: RewriteBlock(env, k, raw[k], steps, mapping)
  }

  /** `mint_platform_step_ids` */
  function Mint(env: Environment, raw: Fields): Result<Fields, ScaffoldError> {
    if !Get(raw, STEPS).Arr? then Success(raw)
    else
      var steps := raw[STEPS].items;
      var ids := Originals(steps, |steps|);
      if !Distinct(ids) then Failure(RepeatedIds)
      else
        var mapping := MappingOf(ids, |ids|);
        if IsIdentity(mapping) then Success(raw)
        else match RewriteSteps(env, steps, mapping, |steps|)
          case Failure(e) => Failure(e)
          case Success(renamed) => Success(Rebuild(env, raw, renamed, mapping))
  }
}

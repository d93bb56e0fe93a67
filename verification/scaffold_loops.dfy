/** The dictionary and list loops of `mint_platform_step_ids`, each proved to build what the specification says. */
module ScaffoldLoops {
  import opened Wrappers
  import opened Json
  import opened Paths
  import opened Conditions
  import opened Scaffold

  /** `rewrite_step`: the item loop fills `out`, then the defaults that name a moved step are written down. */
  method RewriteStepByItems(env: Environment, s: Json, mapping: Mapping) returns (r: Result<Json, ScaffoldError>)
    ensures r == RewriteStep(env, s, mapping)
  {
    hide RewriteStepField, ConfigRaises, Pending;
    if !s.Obj? {
      return Success(s);
    }
    var decl := DeclarationOf(env, s.fields);
    var out := map[];
    var todo := s.fields.Keys;
    while todo != {}
      invariant todo <= s.fields.Keys && out.Keys == s.fields.Keys - todo
      invariant forall k :: k in out ==> out[k] == RewriteStepField(decl, k, s.fields[k], mapping)
      decreases |todo|
    {
      var k :| k in todo;
      out := out[k := RewriteStepField(decl, k, s.fields[k], mapping)];
      todo := todo - {k};
    }
    assert out == RewriteStepFields(env, s.fields, mapping);
    var config := Get(out, CONFIG);
    if ConfigRaises(decl, config, mapping) {
      return Failure(MalformedConfig);
    }
    var pending := Pending(decl, ConfigOf(out), mapping);
    if pending != map[] && !(config.Truthy() && !config.Obj?) {
      out := out[CONFIG := Obj(ConfigOf(out) + pending)];
    }
    return Success(Obj(out));
  }

  /** The loop over the edges; each edge is copied key by key. */
  method RewriteEdgeList(syntax: Syntax, edges: seq<Json>, mapping: Mapping) returns (out: seq<Json>)
    ensures Arr(out) == RewriteEdges(syntax, Arr(edges), mapping)
  {
    out := [];
    for i := 0 to |edges|
      invariant |out| == i && forall j :: 0 <= j < i ==> out[j] == RewriteEdge(syntax, edges[j], mapping)
    {
      var e := edges[i];
      if e.Obj? {
        var ne := RewriteEdgeItems(syntax, e.fields, mapping);
        out := out + [Obj(ne)];
      } else {
        out := out + [e];
      }
    }
  }

  method RewriteEdgeItems(syntax: Syntax, e: Fields, mapping: Mapping) returns (ne: Fields)
    ensures Obj(ne) == RewriteEdge(syntax, Obj(e), mapping)
  {
    hide RewriteEdgeField;
    ne := map[];
    var todo := e.Keys;
    while todo != {}
      invariant todo <= e.Keys && ne.Keys == e.Keys - todo
      invariant forall k :: k in ne ==> ne[k] == RewriteEdgeField(syntax, k, e[k], mapping)
      decreases |todo|
    {
      var k :| k in todo;
      ne := ne[k := RewriteEdgeField(syntax, k, e[k], mapping)];
      todo := todo - {k};
    }
  }

  /** The loop over `learned_memory`. */
  method RewriteMemoryItems(lm: Fields, mapping: Mapping) returns (out: Fields)
    ensures Obj(out) == RewriteMemory(Obj(lm), mapping)
  {
    hide RewriteMemoryField;
    out := map[];
    var todo := lm.Keys;
    while todo != {}
      invariant todo <= lm.Keys && out.Keys == lm.Keys - todo
      invariant forall k :: k in out ==> out[k] == RewriteMemoryField(k, lm[k], mapping)
      decreases |todo|
    {
      var k :| k in todo;
      out := out[k := RewriteMemoryField(k, lm[k], mapping)];
      todo := todo - {k};
    }
  }

  /** The loop over `questions`. */
  method RewriteQuestionItems(qs: Fields, mapping: Mapping) returns (out: Fields)
    ensures Obj(out) == RewriteQuestions(Obj(qs), mapping)
  {
    hide RewriteQuestionField;
    out := map[];
    var todo := qs.Keys;
    while todo != {}
      invariant todo <= qs.Keys && out.Keys == qs.Keys - todo
      invariant forall k :: k in out ==> out[k] == RewriteQuestionField(k, qs[k], mapping)
      decreases |todo|
    {
      var k :| k in todo;
      out := out[k := RewriteQuestionField(k, qs[k], mapping)];
      todo := todo - {k};
    }
  }

  /** `rewrite_step` for each step; the first step that raises ends the loop. */
  method RewriteStepList(env: Environment, steps: seq<Json>, mapping: Mapping)
    returns (r: Result<seq<Json>, ScaffoldError>)
    ensures r == RewriteSteps(env, steps, mapping, |steps|)
  {
    var out := [];
    for i := 0 to |steps|
      invariant RewriteSteps(env, steps, mapping, i) == Success(out)
    {
      var step := RewriteStepByItems(env, steps[i], mapping);
      if step.Failure? {
        FailureSpreads(env, steps, mapping, i + 1, |steps|);
        return Failure(step.error);
      }
      out := out + [step.value];
    }
    return Success(out);
  }

  lemma {:induction false} FailureSpreads(env: Environment, steps: seq<Json>, mapping: Mapping, m: nat, n: nat)
    requires m <= n <= |steps| && RewriteSteps(env, steps, mapping, m).Failure?
    ensures RewriteSteps(env, steps, mapping, n) == RewriteSteps(env, steps, mapping, m)
    decreases n
  {
    if m < n {
      FailureSpreads(env, steps, mapping, m, n - 1);
    }
  }

  /** The ids of the steps that have a usable one. */
  method CollectIds(steps: seq<Json>) returns (ids: seq<string>)
    ensures ids == Originals(steps, |steps|)
  {
    ids := [];
    for i := 0 to |steps|
      invariant ids == Originals(steps, i)
    {
      if HasId(steps[i]) {
        ids := ids + [IdOf(steps[i])];
      }
    }
  }

  /** `{old: f"step_{i}" for i, old in enumerate(originals, 1)}` */
  method NumberIds(ids: seq<string>) returns (mapping: Mapping)
    ensures mapping == MappingOf(ids, |ids|)
  {
    mapping := map[];
    for i := 0 to |ids|
      invariant mapping == MappingOf(ids, i)
    {
      mapping := mapping[ids[i] := Minted(i + 1)];
    }
  }

  /** `mint_platform_step_ids`: the known blocks are rebuilt one after the other, the rest is copied over. */
  method MintPlatformStepIds(env: Environment, raw: Fields) returns (r: Result<Fields, ScaffoldError>)
    ensures r == Mint(env, raw)
  {
    if !Get(raw, STEPS).Arr? {
      return Success(raw);
    }
    var originals := CollectIds(raw[STEPS].items);
    if !Distinct(originals) {
      return Failure(RepeatedIds);
    }
    var mapping := NumberIds(originals);
    if IsIdentity(mapping) {
      return Success(raw);
    }
    var steps := RewriteStepList(env, raw[STEPS].items, mapping);
    if steps.Failure? {
      return Failure(steps.error);
    }
    var out := RebuildBlocks(env, raw, steps.value, mapping);
    return Success(out);
  }

  const KNOWN_BLOCKS: set<string> := {STEPS, EDGES, LEARNED_MEMORY, QUESTIONS}

  method RebuildBlocks(env: Environment, raw: Fields, steps: seq<Json>, mapping: Mapping) returns (out: Fields)
    requires Get(raw, STEPS).Arr?
    ensures out == Rebuild(env, raw, steps, mapping)
  {
    hide RewriteEdges, RewriteMemory, RewriteQuestions, KNOWN_BLOCKS;
    NonListsAreData(env.syntax, raw, mapping);
    BlockKeysAreApart();
    out := raw[STEPS := Arr(steps)];
    if Get(raw, EDGES).Arr? {
      var edges := RewriteEdgeList(env.syntax, raw[EDGES].items, mapping);
      out := out[EDGES := Arr(edges)];
    }
    if Get(raw, LEARNED_MEMORY).Obj? {
      var lm := RewriteMemoryItems(raw[LEARNED_MEMORY].fields, mapping);
      out := out[LEARNED_MEMORY := Obj(lm)];
    }
    if Get(raw, QUESTIONS).Obj? {
      var qs := RewriteQuestionItems(raw[QUESTIONS].fields, mapping);
      out := out[QUESTIONS := Obj(qs)];
    }
    out := CopyOtherBlocks(raw, out);
  }

  lemma BlockKeysAreApart()
    ensures STEPS != EDGES && STEPS != LEARNED_MEMORY && STEPS != QUESTIONS
    ensures EDGES != LEARNED_MEMORY && EDGES != QUESTIONS && LEARNED_MEMORY != QUESTIONS
    ensures forall k :: k in KNOWN_BLOCKS <==> k == STEPS || k == EDGES || k == LEARNED_MEMORY || k == QUESTIONS
  {
    var s, e, l, q := STEPS, EDGES, LEARNED_MEMORY, QUESTIONS;
    assert s[0] == 's' && e[0] == 'e' && l[0] == 'l' && q[0] == 'q';
  }

  /** The last loop: every block not handled above is copied over. */
  method CopyOtherBlocks(raw: Fields, built: Fields) returns (out: Fields)
    requires built.Keys == raw.Keys
    ensures out.Keys == raw.Keys
    ensures forall k :: k in raw ==> out[k] == if k in KNOWN_BLOCKS then built[k] else raw[k]
  {
    out := built;
    var todo := raw.Keys;
    while todo != {}
      invariant todo <= raw.Keys && out.Keys == raw.Keys
      invariant forall k :: k in raw && k !in todo ==> out[k] == if k in KNOWN_BLOCKS then built[k] else raw[k]
      invariant forall k :: k in todo ==> out[k] == built[k]
      decreases |todo|
    {
      var k :| k in todo;
      if k !in KNOWN_BLOCKS {
        out := out[k := raw[k]];
      }
      todo := todo - {k};
    }
  }

  lemma NonListsAreData(syntax: Syntax, raw: Fields, mapping: Mapping)
    ensures !Get(raw, EDGES).Arr? ==> RewriteEdges(syntax, Get(raw, EDGES), mapping) == Get(raw, EDGES)
    ensures !Get(raw, LEARNED_MEMORY).Obj? ==>
      RewriteMemory(Get(raw, LEARNED_MEMORY), mapping) == Get(raw, LEARNED_MEMORY)
    ensures !Get(raw, QUESTIONS).Obj? ==> RewriteQuestions(Get(raw, QUESTIONS), mapping) == Get(raw, QUESTIONS)
  {
  }
}

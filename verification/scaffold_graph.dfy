/** What minting does to ids and edges: fresh numbered ids, an isomorphic step graph, and nothing on a second pass. */
module ScaffoldGraph {
  import opened Wrappers
  import opened Json
  import opened Paths
  import opened Templates
  import opened Conditions
  import opened Scaffold
  import opened ScaffoldTheorems

  /** The usable step ids of a definition, in step order. */
  function StepIds(def: Fields): seq<string> {
    var steps := Get(def, STEPS);
    if steps.Arr? then Originals(steps.items, |steps.items|) else []
  }

  lemma RenamedStepId(env: Environment, step: Json, mapping: Mapping, out: Json)
    requires RewriteStep(env, step, mapping) == Success(out) && PlaceholderIds(mapping) && "" !in mapping
    ensures HasId(out) == HasId(step) && (HasId(step) ==> IdOf(out) == Renamed(IdOf(step), mapping))
  {
    hide Pending, ConfigRaises, PlaceholderIds;
    if step.Obj? {
      StepFieldsOf(env, step.fields, mapping, out);
      var i, c := ID, CONFIG;
      assert i[0] == 'i' && c[0] == 'c';
      if HasId(step) {
        NewIdsAreUsable(mapping, IdOf(step));
      }
    }
  }

  lemma NewIdsAreUsable(mapping: Mapping, id: string)
    requires PlaceholderIds(mapping) && id != ""
    ensures Renamed(id, mapping) != ""
  {
  }

  lemma {:induction false} RenamedIds(env: Environment, steps: seq<Json>, outs: seq<Json>, mapping: Mapping, n: nat)
    requires n <= |steps| == |outs| && PlaceholderIds(mapping) && "" !in mapping
    requires forall i :: 0 <= i < |steps| ==> RewriteStep(env, steps[i], mapping) == Success(outs[i])
    ensures |Originals(outs, n)| == |Originals(steps, n)|
    ensures forall i :: 0 <= i < |Originals(steps, n)| ==>
      Originals(outs, n)[i] == Renamed(Originals(steps, n)[i], mapping)
  {
    hide RewriteStep, PlaceholderIds, HasId, IdOf, Renamed;
    if n > 0 {
      RenamedIds(env, steps, outs, mapping, n - 1);
      RenamedStepId(env, steps[n - 1], mapping, outs[n - 1]);
    }
  }

  lemma {:induction false} IdsAreTheStepsIds(steps: seq<Json>, n: nat)
    requires n <= |steps|
    ensures Distinct(Originals(steps, n)) <==>
      forall i, j :: 0 <= i < j < n && HasId(steps[i]) && HasId(steps[j]) ==> IdOf(steps[i]) != IdOf(steps[j])
    ensures forall a :: a in Originals(steps, n) <==> exists i :: 0 <= i < n && HasId(steps[i]) && IdOf(steps[i]) == a
  {
    hide HasId, IdOf;
    if n > 0 {
      IdsAreTheStepsIds(steps, n - 1);
      var before := Originals(steps, n - 1);
      if HasId(steps[n - 1]) {
        var id := IdOf(steps[n - 1]);
        assert Originals(steps, n) == before + [id];
        assert Distinct(Originals(steps, n)) <==> Distinct(before) && id !in before by {
          DistinctExtended(before, id);
        }
      } else {
        assert Originals(steps, n) == before;
      }
    }
  }

  lemma DistinctExtended(ids: seq<string>, id: string)
    ensures Distinct(ids + [id]) <==> Distinct(ids) && id !in ids
  {
    var all := ids + [id];
    if Distinct(all) {
      forall i, j | 0 <= i < j < |ids| ensures ids[i] != ids[j] {
        assert all[i] != all[j];
      }
      forall i | 0 <= i < |ids| ensures ids[i] != id {
        assert all[i] != all[|ids|];
      }
    }
  }

  lemma NoEmptyId(raw: Fields)
    ensures "" !in StepIds(raw)
  {
    if Get(raw, STEPS).Arr? {
      IdsAreTheStepsIds(raw[STEPS].items, |raw[STEPS].items|);
    }
  }

  /** The ids of a minted draft are `step_1`, `step_2`, ... in step order, however the draft used those names. */
  lemma MintedIdsAreNumbered(env: Environment, raw: Fields, out: Fields)
    requires Mint(env, raw) == Success(out)
    ensures |StepIds(out)| == |StepIds(raw)|
    ensures forall i :: 0 <= i < |StepIds(out)| ==> StepIds(out)[i] == Minted(i + 1)
  {
    hide Mint, RewriteSteps, RewriteStep, Rebuild, Originals, PlaceholderIds, Minted;
    var ids := StepIds(raw);
    MintAcceptsDistinct(env, raw);
    MappingNumbersTheIds(ids, |ids|);
    var steps := MintedDraft(env, raw, out);
    var mapping := DraftMapping(raw);
    if IsIdentity(mapping) {
      NoIdsWithoutSteps(raw);
    } else {
      AcceptedDraftsAreRenamed(env, raw);
      NoEmptyId(raw);
      NoIdsWithoutSteps(raw);
      var items := raw[STEPS].items;
      BlocksOf(env, raw, steps, mapping);
      StepsAreRewrittenOneByOne(env, items, mapping, |items|);
      RenamedIds(env, items, steps, mapping, |items|);
    }
  }

  lemma NoIdsWithoutSteps(raw: Fields)
    ensures !Get(raw, STEPS).Arr? ==> StepIds(raw) == []
    ensures Get(raw, STEPS).Arr? ==> DraftMapping(raw) == MappingOf(StepIds(raw), |StepIds(raw)|)
  {
  }

  lemma MintAcceptsDistinct(env: Environment, raw: Fields)
    requires Mint(env, raw).Success?
    ensures Distinct(StepIds(raw))
  {
    hide RewriteSteps, Rebuild, Originals, MappingOf;
  }

  /** Minting twice is minting once. */
  lemma MintingTwiceIsMintingOnce(env: Environment, raw: Fields, out: Fields)
    requires Mint(env, raw) == Success(out)
    ensures Mint(env, out) == Success(out)
  {
    hide Mint, RewriteSteps, Rebuild, Originals, Minted;
    MintedIdsAreNumbered(env, raw, out);
    var ids := StepIds(out);
    forall i, j | 0 <= i < j < |ids| ensures ids[i] != ids[j] {
      MintedIdsAreApart(i + 1, j + 1);
    }
    MappingNumbersTheIds(ids, |ids|);
    NumberedIdsStay(env, out);
  }

  lemma NumberedIdsStay(env: Environment, def: Fields)
    requires Distinct(StepIds(def)) && IsIdentity(MappingOf(StepIds(def), |StepIds(def)|))
    ensures Mint(env, def) == Success(def)
  {
    hide RewriteSteps, Rebuild, Originals, MappingOf;
  }

  /** A draft is refused for its ids exactly when two of its steps carry the same usable id. */
  lemma RepeatedIdsAreRefused(env: Environment, raw: Fields)
    requires Get(raw, STEPS).Arr?
    ensures var steps := raw[STEPS].items;
      Mint(env, raw) == Failure(RepeatedIds) <==>
        exists i, j :: 0 <= i < j < |steps| && HasId(steps[i]) && HasId(steps[j]) && IdOf(steps[i]) == IdOf(steps[j])
  {
    hide RewriteSteps, RaisesOnConfig, Rebuild, Originals, MappingOf, HasId, IdOf;
    var steps := raw[STEPS].items;
    IdsAreTheStepsIds(steps, |steps|);
    StepsFailIff(env, steps, DraftMapping(raw), |steps|);
  }

  /** Minting fails on a `config` exactly when the ids are distinct, one of them moves, and some step raises. */
  lemma ConfigIsRefusedIff(env: Environment, raw: Fields)
    ensures Mint(env, raw) == Failure(MalformedConfig) <==>
      && Get(raw, STEPS).Arr? && Distinct(StepIds(raw)) && !IsIdentity(DraftMapping(raw))
      && exists i :: 0 <= i < |raw[STEPS].items| && RaisesOnConfig(env, raw[STEPS].items[i], DraftMapping(raw))
  {
    hide RewriteSteps, RaisesOnConfig, Rebuild, Originals, MappingOf;
    if Get(raw, STEPS).Arr? {
      StepsFailIff(env, raw[STEPS].items, DraftMapping(raw), |raw[STEPS].items|);
    }
  }

  /** A `config` the rewriter can read: none, an empty value, or a dictionary. */
  predicate ReadableConfig(step: Json) {
    step.Obj? ==> !Get(step.fields, CONFIG).Truthy() || Get(step.fields, CONFIG).Obj?
  }

  /** A draft of readable configs is only ever refused for its ids. */
  lemma ReadableDraftsMint(env: Environment, raw: Fields)
    requires Get(raw, STEPS).Arr? ==> forall i :: 0 <= i < |raw[STEPS].items| ==> ReadableConfig(raw[STEPS].items[i])
    ensures Mint(env, raw).Success? || Mint(env, raw) == Failure(RepeatedIds)
  {
    hide Mint, DraftMapping;
    ConfigIsRefusedIff(env, raw);
    var minted := Mint(env, raw);
    assert minted.Failure? ==> minted.error == RepeatedIds || minted.error == MalformedConfig;
    if Get(raw, STEPS).Arr? {
      forall i | 0 <= i < |raw[STEPS].items| ensures !RaisesOnConfig(env, raw[STEPS].items[i], DraftMapping(raw)) {
        assert ReadableConfig(raw[STEPS].items[i]);
      }
    }
  }

  /** The draft of one step, `config: true`, whose function has a default that names it. */
  function OneStepDraft(id: string, f: string): Fields {
    map[STEPS := Arr([Obj(map[ID := Str(id), FUNCTION := Str(f), CONFIG := Bool(true)])])]
  }

  lemma OneStepDraftReads(id: string, f: string)
    requires id != ""
    ensures StepIds(OneStepDraft(id, f)) == [id] && DraftMapping(OneStepDraft(id, f)) == map[id := Minted(1)]
    ensures var step := OneStepDraft(id, f)[STEPS].items[0];
      step.Obj? && Get(step.fields, FUNCTION) == Str(f) && Get(step.fields, CONFIG) == Bool(true)
  {
    var i, n, c := ID, FUNCTION, CONFIG;
    assert i[0] == 'i' && n[0] == 'f' && c[0] == 'c';
    var steps := OneStepDraft(id, f)[STEPS].items;
    assert Originals(steps, 0) == [] && Originals(steps, 1) == [id];
    assert MappingOf([id], 0) == map[];
  }

  /** Such drafts exist: every id that minting moves, every function and every key make one. */
  lemma ConfigCanBeRefused(env: Environment, id: string, f: string, k: string)
    requires id != "" && '.' !in id && id != Minted(1)
    requires f in env.functions && env.functions[f].defaults == map[k := STEPS + "." + id]
    ensures Mint(env, OneStepDraft(id, f)) == Failure(MalformedConfig)
  {
    hide Mint, StepIds, Minted, DraftMapping, RewritePath;
    var raw := OneStepDraft(id, f);
    var mapping := map[id := Minted(1)];
    OneStepDraftReads(id, f);
    MovedPath(id, mapping);
    assert k in env.functions[f].defaults;
    assert RaisesOnConfig(env, raw[STEPS].items[0], mapping);
    ConfigIsRefusedIff(env, raw);
  }

  lemma MovedPath(id: string, mapping: Mapping)
    requires '.' !in id && id in mapping && mapping[id] != id
    ensures RewritePath(STEPS + "." + id, mapping) != STEPS + "." + id
  {
    PartitionOfJoin(STEPS, true, id);
    PartitionOfJoin(id, false, "");
    assert RewritePath(STEPS + "." + id, mapping) == STEPS + "." + mapping[id];
    assert (STEPS + "." + mapping[id])[|STEPS| + 1..] == mapping[id];
    assert (STEPS + "." + id)[|STEPS| + 1..] == id;
  }

  /** Which end of an edge is read: the wire spelling, else the stored one. */
  function EdgeEnd(edge: Json, wire: string, stored: string): Option<string> {
    if !edge.Obj? then None
    else if wire in edge.fields then (if edge.fields[wire].Str? then Some(edge.fields[wire].s) else None)
    else if stored in edge.fields && edge.fields[stored].Str? then Some(edge.fields[stored].s)
    else None
  }

  const FROM := "from"
  const TO := "to"
  const SOURCE := "source"
  const TARGET := "target"

  type Graph = set<(string, string)>

  function Arrow(edge: Json): Option<(string, string)> {
    match (EdgeEnd(edge, FROM, SOURCE), EdgeEnd(edge, TO, TARGET))
    case (Some(a), Some(b)) => Some((a, b))
    case _ => None
  }

  /** The step graph of a definition. */
  ghost function GraphOf(def: Fields): Graph {
    set i | 0 <= i < EdgeCount(def) && Arrow(EdgeAt(def, i).value).Some? :: Arrow(EdgeAt(def, i).value).value
  }

  function EdgeCount(def: Fields): (n: nat)
    ensures forall i: nat :: EdgeAt(def, i).Some? <==> i < n
  {
    var edges := Get(def, EDGES);
    if edges.Arr? then |edges.items| else 0
  }

  function RenamedArrow(a: (string, string), mapping: Mapping): (string, string) {
    (Renamed(a.0, mapping), Renamed(a.1, mapping))
  }

  ghost function Image(g: Graph, mapping: Mapping): Graph {
    set a | a in g :: RenamedArrow(a, mapping)
  }

  lemma RenamedEdge(syntax: Syntax, edge: Json, mapping: Mapping)
    ensures Arrow(RewriteEdge(syntax, edge, mapping)) == match Arrow(edge)
      case None => None
      case Some(a) => Some(RenamedArrow(a, mapping))
  {
    hide RewriteCondition, Renamed;
    assert FROM in ENDPOINT_KEYS && TO in ENDPOINT_KEYS && SOURCE in ENDPOINT_KEYS && TARGET in ENDPOINT_KEYS;
  }

  lemma {:induction false} IdentityKeepsArrows(g: Graph, mapping: Mapping)
    requires IsIdentity(mapping)
    ensures Image(g, mapping) == g
  {
    forall a | a in g ensures RenamedArrow(a, mapping) == a {
    }
    forall a | a in g ensures a in Image(g, mapping) {
      assert RenamedArrow(a, mapping) == a;
    }
  }

  /** The step graph of a minted draft is the renamed step graph of the draft. */
  lemma MintedGraphIsTheImage(env: Environment, raw: Fields, out: Fields)
    requires Mint(env, raw) == Success(out)
    ensures GraphOf(out) == Image(GraphOf(raw), DraftMapping(raw))
  {
    hide Mint, RewriteEdge, DraftMapping, RenamedArrow, Arrow, EdgeAt, IsIdentity, EdgeCount;
    var mapping := DraftMapping(raw);
    if IsIdentity(mapping) {
      var _ := MintedDraft(env, raw, out);
      IdentityKeepsArrows(GraphOf(raw), mapping);
    } else {
      forall i: nat
        ensures EdgeAt(out, i).Some? == EdgeAt(raw, i).Some?
        ensures EdgeAt(raw, i).Some? ==> Arrow(EdgeAt(out, i).value) == match Arrow(EdgeAt(raw, i).value)
          case None => None
          case Some(a) => Some(RenamedArrow(a, mapping))
      {
        EdgesOfMinted(env, raw, out, i);
        if EdgeAt(raw, i).Some? {
          RenamedEdge(env.syntax, EdgeAt(raw, i).value, mapping);
        }
      }
      assert EdgeCount(out) == EdgeCount(raw) by {
        var n, m := EdgeCount(out), EdgeCount(raw);
        assert EdgeAt(out, n).None? && EdgeAt(raw, m).None?;
      }
    }
  }

  ghost predicate Cycle(g: Graph, walk: seq<string>) {
    |walk| >= 2 && walk[0] == walk[|walk| - 1] && forall i :: 0 <= i < |walk| - 1 ==> (walk[i], walk[i + 1]) in g
  }

  ghost predicate Acyclic(g: Graph) {
    forall walk :: !Cycle(g, walk)
  }

  ghost function Nodes(g: Graph): set<string> {
    (set a | a in g :: a.0) + (set a | a in g :: a.1)
  }

  ghost predicate OneToOneOn(nodes: set<string>, mapping: Mapping) {
    forall x, y :: x in nodes && y in nodes && Renamed(x, mapping) == Renamed(y, mapping) ==> x == y
  }

  /** No edge names both a step and the dangling name that minting gives to it. */
  ghost predicate Uncaptured(nodes: set<string>, mapping: Mapping) {
    forall a :: a in nodes && a in mapping && mapping[a] !in mapping ==> mapping[a] !in nodes
  }

  lemma OneToOneIffUncaptured(nodes: set<string>, mapping: Mapping)
    requires Renaming(mapping)
    ensures OneToOneOn(nodes, mapping) <==> Uncaptured(nodes, mapping)
  {
    if OneToOneOn(nodes, mapping) {
      forall a | a in nodes && a in mapping && mapping[a] !in mapping ensures mapping[a] !in nodes {
        assert Renamed(mapping[a], mapping) == Renamed(a, mapping);
      }
    }
  }

  lemma ImageOfCycle(g: Graph, mapping: Mapping, walk: seq<string>) returns (image: seq<string>)
    requires Cycle(g, walk)
    ensures Cycle(Image(g, mapping), image)
  {
    image := seq(|walk|, i requires 0 <= i < |walk| => Renamed(walk[i], mapping));
    forall i | 0 <= i < |image| - 1 ensures (image[i], image[i + 1]) in Image(g, mapping) {
      assert (image[i], image[i + 1]) == RenamedArrow((walk[i], walk[i + 1]), mapping);
    }
  }

  ghost function Origin(g: Graph, mapping: Mapping, x: string): string
    requires exists y :: y in Nodes(g) && Renamed(y, mapping) == x
  {
    var y :| y in Nodes(g) && Renamed(y, mapping) == x;
    y
  }

  lemma OriginOfCycle(g: Graph, mapping: Mapping, walk: seq<string>) returns (origin: seq<string>)
    requires OneToOneOn(Nodes(g), mapping) && Cycle(Image(g, mapping), walk)
    ensures Cycle(g, origin)
  {
    hide Renamed, Nodes;
    forall i | 0 <= i < |walk| ensures exists y :: y in Nodes(g) && Renamed(y, mapping) == walk[i] {
      if i < |walk| - 1 {
        var _ := ArrowBehind(g, mapping, walk[i], walk[i + 1]);
      } else {
        var _ := ArrowBehind(g, mapping, walk[i - 1], walk[i]);
      }
    }
    origin := seq(|walk|, i requires 0 <= i < |walk| => Origin(g, mapping, walk[i]));
    forall i | 0 <= i < |origin| - 1 ensures (origin[i], origin[i + 1]) in g {
      var a := ArrowBehind(g, mapping, walk[i], walk[i + 1]);
      assert origin[i] == a.0 && origin[i + 1] == a.1;
    }
  }

  lemma ArrowBehind(g: Graph, mapping: Mapping, x: string, y: string) returns (a: (string, string))
    requires (x, y) in Image(g, mapping)
    ensures a in g && a.0 in Nodes(g) && a.1 in Nodes(g) && Renamed(a.0, mapping) == x && Renamed(a.1, mapping) == y
  {
    a :| a in g && RenamedArrow(a, mapping) == (x, y);
  }

  /** Minting keeps the graph up to renaming: the new ids are one to one on its nodes exactly when no captured name
      is a node beside the step that captures it, and then it has a cycle exactly when the draft had one. */
  lemma MintedGraphIsIsomorphic(env: Environment, raw: Fields, out: Fields)
    requires Mint(env, raw) == Success(out)
    ensures GraphOf(out) == Image(GraphOf(raw), DraftMapping(raw))
    ensures OneToOneOn(Nodes(GraphOf(raw)), DraftMapping(raw)) <==> Uncaptured(Nodes(GraphOf(raw)), DraftMapping(raw))
    ensures Uncaptured(Nodes(GraphOf(raw)), DraftMapping(raw)) ==> (Acyclic(GraphOf(out)) <==> Acyclic(GraphOf(raw)))
  {
    hide Mint, GraphOf, DraftMapping, Renamed, Nodes, Uncaptured, OneToOneOn, Renaming, Image, Cycle;
    var g, mapping := GraphOf(raw), DraftMapping(raw);
    AcceptedDraftsAreRenamed(env, raw);
    MintedGraphIsTheImage(env, raw, out);
    OneToOneIffUncaptured(Nodes(g), mapping);
    if !Acyclic(g) {
      var walk :| Cycle(g, walk);
      var image := ImageOfCycle(g, mapping, walk);
    }
    if !Acyclic(GraphOf(out)) && OneToOneOn(Nodes(g), mapping) {
      var walk :| Cycle(GraphOf(out), walk);
      var origin := OriginOfCycle(g, mapping, walk);
    }
  }

  lemma OneEdgeCycle(a: string, x: string, walk: seq<string>)
    requires Cycle({(a, x)}, walk)
    ensures a == x
  {
    assert (walk[0], walk[1]) in {(a, x)} && (walk[|walk| - 2], walk[|walk| - 2 + 1]) in {(a, x)};
  }

  /** Otherwise minting can close a cycle: an edge from a step to the dangling name it is given becomes a loop. */
  lemma CaptureCanCloseACycle(mapping: Mapping, a: string)
    requires a in mapping && mapping[a] !in mapping
    ensures Acyclic({(a, mapping[a])}) && !Acyclic(Image({(a, mapping[a])}, mapping))
  {
    var g, x := {(a, mapping[a])}, mapping[a];
    forall walk | Cycle(g, walk) ensures a == x {
      OneEdgeCycle(a, x, walk);
    }
    assert RenamedArrow((a, x), mapping) == (x, x);
    assert Cycle(Image(g, mapping), [x, x]);
  }
}

/** Dotted context paths: how the engine resolves them and how scaffold.py renames the step they name. */
module Paths {
  import opened Wrappers
  import opened Json

  const STEPS := "steps"
  const PRIOR_STEPS := "prior_steps"
  const TRIGGER := "trigger"

  /** `s.partition(".")`: the part before the first dot, whether there is one, and the part after it. */
  function Partition(s: string): (string, bool, string) {
    if s == "" then ("", false, "")
    else if s[0] == '.' then ("", true, s[1..])
    else
      var (head, sep, rest) := Partition(s[1..]);
      ([s[0]] + head, sep, rest)
  }

  function Unpartition(head: string, sep: bool, rest: string): string {
    if sep then head + "." + rest else head
  }

  lemma {:induction false} PartitionJoins(s: string)
    ensures var (head, sep, rest) := Partition(s);
      Unpartition(head, sep, rest) == s && '.' !in head && (!sep ==> rest == "")
  {
    if s != "" && s[0] != '.' {
      PartitionJoins(s[1..]);
    }
  }

  lemma {:induction false} PartitionOfJoin(head: string, sep: bool, rest: string)
    requires '.' !in head && (!sep ==> rest == "")
    ensures Partition(Unpartition(head, sep, rest)) == (head, sep, rest)
  {
    var s := Unpartition(head, sep, rest);
    if head != "" {
      PartitionOfJoin(head[1..], sep, rest);
      assert s[1..] == Unpartition(head[1..], sep, rest);
      assert [head[0]] + head[1..] == head;
    } else if sep {
      assert s[1..] == rest;
    }
  }

  lemma {:induction false} PartitionShrinks(s: string)
    ensures var (head, sep, rest) := Partition(s); |rest| <= |s| && (sep ==> |rest| < |s|)
  {
    if s != "" && s[0] != '.' {
      PartitionShrinks(s[1..]);
    }
  }

  /** `s.split(".")` */
  function Split(s: string): (parts: seq<string>)
    ensures |parts| > 0
    decreases |s|
  {
    var (head, sep, rest) := Partition(s);
    PartitionShrinks(s);
    if sep then [head] + Split(rest) else [head]
  }

  /** Follow the parts through nested dictionaries; `None` as soon as one is missing. */
  function Walk(cursor: Json, parts: seq<string>): Json {
    if parts == [] then cursor
    else if cursor.Obj? && parts[0] in cursor.fields then Walk(cursor.fields[parts[0]], parts[1..])
    else Null
  }

  datatype Context = Context(trigger: map<string, Json>, steps: map<string, Json>)

  /** `_resolve_context_value` of the engine. */
  function Resolve(ctx: Context, dotted: string): Json {
    if dotted == "" then Null
    else
      var parts := Split(dotted);
      if parts[0] == TRIGGER then Walk(Obj(ctx.trigger), parts[1..])
      else if parts[0] == STEPS then Walk(Obj(ctx.steps), parts[1..])
      else Null
  }

  /** One more part goes one dictionary deeper, and nowhere from anything else. */
  lemma {:induction false} WalkGoesOn(cursor: Json, parts: seq<string>, k: string)
    ensures var at := Walk(cursor, parts);
      Walk(cursor, parts + [k]) == if at.Obj? && k in at.fields then at.fields[k] else Null
    decreases |parts|
  {
    if parts == [] {
      assert parts + [k] == [k];
    } else {
      assert (parts + [k])[1..] == parts[1..] + [k];
      if cursor.Obj? && parts[0] in cursor.fields {
        WalkGoesOn(cursor.fields[parts[0]], parts[1..], k);
      }
    }
  }

  lemma {:induction false} SplitGoesOn(s: string, k: string)
    requires '.' !in k
    ensures Split(s + "." + k) == Split(s) + [k]
    decreases |s|
  {
    var (head, sep, rest) := Partition(s);
    PartitionJoins(s);
    PartitionShrinks(s);
    PartitionOfJoin(k, false, "");
    if sep {
      assert s + "." + k == head + "." + (rest + "." + k);
      PartitionOfJoin(head, true, rest + "." + k);
      SplitGoesOn(rest, k);
    } else {
      PartitionOfJoin(head, true, k);
    }
  }

  /** How the engine reads a path: the two roots it knows, one name after another from there, and nothing from a path
      that leaves the dictionaries or starts elsewhere. */
  lemma ResolveReads(ctx: Context, path: string, k: string)
    requires '.' !in k
    ensures Resolve(ctx, "") == Null
    ensures Resolve(ctx, "trigger") == Obj(ctx.trigger) && Resolve(ctx, "steps") == Obj(ctx.steps)
    ensures k != "trigger" && k != "steps" ==> Resolve(ctx, k) == Null
    ensures path != "" ==>
      var at := Resolve(ctx, path);
      Resolve(ctx, path + "." + k) == if at.Obj? && k in at.fields then at.fields[k] else Null
  {
    hide Partition;
    OnePart("trigger");
    OnePart("steps");
    OnePart(k);
    assert "trigger"[0] == 't' && "steps"[0] == 's';
    if path != "" {
      SplitGoesOn(path, k);
      var parts := Split(path);
      assert (parts + [k])[1..] == parts[1..] + [k];
      WalkGoesOn(Obj(ctx.trigger), parts[1..], k);
      WalkGoesOn(Obj(ctx.steps), parts[1..], k);
    }
  }

  lemma OnePart(name: string)
    requires '.' !in name
    ensures Split(name) == [name]
  {
    PartitionOfJoin(name, false, "");
  }

  type Mapping = map<string, string>

  /** `_remap_step_ref`: the path with its step id renamed, or nothing when it names no renamed step. */
  function RemapStepRef(path: string, mapping: Mapping, allowPrior: bool): Option<string> {
    var (head, sep, rest) := Partition(path);
    if !sep || !(head == STEPS || (allowPrior && head == PRIOR_STEPS)) then None
    else
      var (id, sep2, tail) := Partition(rest);
      if id in mapping then Some(head + "." + Unpartition(mapping[id], sep2, tail)) else None
  }

  /** `_rewrite_context_path`, on a string. */
  function RewritePath(path: string, mapping: Mapping): string {
    match RemapStepRef(path, mapping, false)
    case Some(renamed) => renamed
    case None => path
  }

  /** A renaming of step ids: one to one, onto ids without dots. */
  ghost predicate Renaming(mapping: Mapping) {
    && (forall a, b :: a in mapping && b in mapping && mapping[a] == mapping[b] ==> a == b)
    && (forall a :: a in mapping ==> '.' !in mapping[a])
  }

  /** The step outputs under their new ids. */
  ghost function RenameSteps(steps: map<string, Json>, mapping: Mapping): map<string, Json>
    requires Renaming(mapping) && steps.Keys <= mapping.Keys
  {
    map a | a in steps :: mapping[a] := steps[a]
  }

  ghost function RenameContext(ctx: Context, mapping: Mapping): Context
    requires Renaming(mapping) && ctx.steps.Keys <= mapping.Keys
  {
    Context(ctx.trigger, RenameSteps(ctx.steps, mapping))
  }

  /** An id that names no step of the draft but is the new name of one: minting would capture it. */
  ghost predicate Captured(id: string, mapping: Mapping) {
    id !in mapping && exists a :: a in mapping && mapping[a] == id
  }

  /** The path names one step, or no step at all; and what it names is not captured. */
  ghost predicate ReferencesSafely(path: string, mapping: Mapping) {
    var (head, sep, rest) := Partition(path);
    head == STEPS ==> sep && !Captured(Partition(rest).0, mapping)
  }

  lemma SplitTwice(head: string, id: string, sep: bool, tail: string)
    requires '.' !in head && '.' !in id && (!sep ==> tail == "")
    ensures Split(head + "." + Unpartition(id, sep, tail)) == [head, id] + (if sep then Split(tail) else [])
  {
    var rest := Unpartition(id, sep, tail);
    assert head + "." + rest == Unpartition(head, true, rest);
    PartitionOfJoin(head, true, rest);
    PartitionOfJoin(id, sep, tail);
  }

  /** A lookup of a step commutes with the renaming of steps. */
  lemma RenamedLookup(steps: map<string, Json>, mapping: Mapping, id: string)
    requires Renaming(mapping) && steps.Keys <= mapping.Keys
    ensures id in mapping ==> (mapping[id] in RenameSteps(steps, mapping) <==> id in steps)
    ensures id in mapping && id in steps ==> RenameSteps(steps, mapping)[mapping[id]] == steps[id]
    ensures id !in mapping && !Captured(id, mapping) ==> id !in RenameSteps(steps, mapping) && id !in steps
  {
  }

  /** A path into the step outputs reads the step it names, then the rest. */
  lemma StepPathResolves(ctx: Context, id: string, sep: bool, tail: string)
    requires '.' !in id && (!sep ==> tail == "")
    ensures Resolve(ctx, STEPS + "." + Unpartition(id, sep, tail)) ==
      if id in ctx.steps then Walk(ctx.steps[id], if sep then Split(tail) else []) else Null
  {
    var path := STEPS + "." + Unpartition(id, sep, tail);
    var rest := if sep then Split(tail) else [];
    SplitTwice(STEPS, id, sep, tail);
    hide Split;
    var parts := Split(path);
    assert parts[1..] == [id] + rest && ([id] + rest)[1..] == rest;
    assert TRIGGER[0] == 't' && STEPS[0] == 's';
  }

  lemma OtherPathResolves(path: string, mapping: Mapping, ctx: Context)
    requires Renaming(mapping) && ctx.steps.Keys <= mapping.Keys && Partition(path).0 != STEPS
    ensures Resolve(RenameContext(ctx, mapping), RewritePath(path, mapping)) == Resolve(ctx, path)
  {
  }

  /** Renaming a path and resolving it against the renamed run gives what the path gave before. */
  lemma RewrittenPathResolves(path: string, mapping: Mapping, ctx: Context)
    requires Renaming(mapping) && ctx.steps.Keys <= mapping.Keys
    requires ReferencesSafely(path, mapping)
    ensures Resolve(RenameContext(ctx, mapping), RewritePath(path, mapping)) == Resolve(ctx, path)
  {
    hide Resolve, Partition, Walk, Split;
    var (head, sep, rest) := Partition(path);
    PartitionJoins(path);
    if head == STEPS {
      var (id, sep2, tail) := Partition(rest);
      PartitionJoins(rest);
      RenamedLookup(ctx.steps, mapping, id);
      StepPathResolves(ctx, id, sep2, tail);
      StepPathResolves(RenameContext(ctx, mapping), if id in mapping then mapping[id] else id, sep2, tail);
    } else {
      OtherPathResolves(path, mapping, ctx);
    }
  }

  /** A value in which the given parts lead somewhere. */
  function Nest(parts: seq<string>): Json
    decreases |parts|
  {
    if parts == [] then Int(1) else Obj(map[parts[0] := Nest(parts[1..])])
  }

  lemma {:induction false} NestLeadsSomewhere(parts: seq<string>)
    ensures Walk(Nest(parts), parts) == Int(1)
    decreases |parts|
  {
    if parts != [] {
      NestLeadsSomewhere(parts[1..]);
    }
  }

  /** The bare path `steps` reads the ids themselves. */
  lemma BareStepsChange(mapping: Mapping, a: string)
    requires Renaming(mapping) && a in mapping && mapping[a] != a
    ensures var ctx := Context(map[], map[a := Null]);
      Resolve(RenameContext(ctx, mapping), RewritePath(STEPS, mapping)) != Resolve(ctx, STEPS)
  {
    var ctx := Context(map[], map[a := Null]);
    PartitionOfJoin(STEPS, false, "");
    assert Split(STEPS) == [STEPS];
    assert TRIGGER[0] == 't' && STEPS[0] == 's';
    assert mapping[a] in RenameContext(ctx, mapping).steps && mapping[a] !in ctx.steps;
  }

  /** For a path that does not reference safely there is a run on which the renaming changes its value. */
  lemma UnsafePathChanges(path: string, mapping: Mapping) returns (ctx: Context)
    requires Renaming(mapping) && exists a :: a in mapping && mapping[a] != a
    requires !ReferencesSafely(path, mapping)
    ensures ctx.steps.Keys <= mapping.Keys
    ensures Resolve(RenameContext(ctx, mapping), RewritePath(path, mapping)) != Resolve(ctx, path)
  {
    hide Resolve, Partition, Walk, Split;
    var (head, sep, rest) := Partition(path);
    PartitionJoins(path);
    if !sep {
      var a :| a in mapping && mapping[a] != a;
      ctx := Context(map[], map[a := Null]);
      BareStepsChange(mapping, a);
    } else {
      var (id, sep2, tail) := Partition(rest);
      PartitionJoins(rest);
      var parts := if sep2 then Split(tail) else [];
      var a :| a in mapping && mapping[a] == id;
      ctx := Context(map[], map[a := Nest(parts)]);
      NestLeadsSomewhere(parts);
      StepPathResolves(ctx, id, sep2, tail);
      StepPathResolves(RenameContext(ctx, mapping), id, sep2, tail);
      assert RenameContext(ctx, mapping).steps[id] == Nest(parts);
    }
  }

  /** Renaming preserves the meaning of a path on every run exactly when the path references safely. */
  lemma PathPreservedIffSafe(path: string, mapping: Mapping)
    requires Renaming(mapping) && exists a :: a in mapping && mapping[a] != a
    ensures ReferencesSafely(path, mapping) <==>
      forall ctx: Context :: ctx.steps.Keys <= mapping.Keys ==>
        Resolve(RenameContext(ctx, mapping), RewritePath(path, mapping)) == Resolve(ctx, path)
  {
    if ReferencesSafely(path, mapping) {
      forall ctx: Context | ctx.steps.Keys <= mapping.Keys
        ensures Resolve(RenameContext(ctx, mapping), RewritePath(path, mapping)) == Resolve(ctx, path)
      {
        RewrittenPathResolves(path, mapping, ctx);
      }
    } else {
      var ctx := UnsafePathChanges(path, mapping);
    }
  }
}

/** Edge conditions: `_rewrite_condition` of scaffold.py on the syntax tree, and its effect on evaluation. */
module Conditions {
  import opened Wrappers
  import opened Json
  import opened Paths

  /** A Python expression: the three node kinds the rewriter looks at, and any other operator. */
  datatype Expr =
    | Name(id: string)
    | Constant(literal: Json)
    | Subscript(value: Expr, index: Expr)
    | Attribute(value: Expr, attr: string)
    | Operator(op: string, args: seq<Expr>)

  predicate IsSteps(e: Expr) {
    e.Name? && e.id == STEPS
  }

  /** The node transformer: children first, then a constant subscript or attribute of `steps`. */
  function RewriteExpr(e: Expr, mapping: Mapping): Expr
    decreases e
  {
    match e
    case Name(_) => e
    case Constant(_) => e
    case Subscript(value, index) =>
      var value', index' := RewriteExpr(value, mapping), RewriteExpr(index, mapping);
      if IsSteps(value') && index'.Constant? && index'.literal.Str? && index'.literal.s in mapping then
        Subscript(value', Constant(Str(mapping[index'.literal.s])))
      else Subscript(value', index')
    case Attribute(value, attr) =>
      var value' := RewriteExpr(value, mapping);
      if IsSteps(value') && attr in mapping then Attribute(value', mapping[attr]) else Attribute(value', attr)
    case Operator(op, args) =>
      Operator(op, seq(|args|, i requires 0 <= i < |args| => RewriteExpr(args[i], mapping)))
  }

  /** Parsing and printing of expressions, which the source leaves to Python's `ast`. */
  datatype Syntax = Syntax(parse: string -> Option<Expr>, show: Expr -> string)

  /** What is printed after a rewriting reads back as what was rewritten. Nothing is asked of trees that no text
      parses to. */
  ghost predicate Lawful(syntax: Syntax, mapping: Mapping) {
    forall text :: syntax.parse(text).Some? ==> ReadsBack(syntax, RewriteExpr(syntax.parse(text).value, mapping))
  }

  ghost predicate ReadsBack(syntax: Syntax, e: Expr) {
    syntax.parse(syntax.show(e)) == Some(e)
  }

  /** `_rewrite_condition`: an expression that does not parse is left as it is. */
  function RewriteCondition(syntax: Syntax, text: string, mapping: Mapping): string {
    match syntax.parse(text)
    case None => text
    case Some(e) => syntax.show(RewriteExpr(e, mapping))
  }

  /** What the evaluator does outside dictionaries: operators (over arguments that may have failed, so that
      lazy ones are covered), other subscripts and other attributes. `None` is an evaluation error. */
  datatype Semantics = Semantics(
    apply: (string, seq<Option<Json>>) -> Option<Json>,
    index: (Json, Json) -> Option<Json>,
    attribute: (Json, string) -> Option<Json>)

  /** The names an edge condition may use: the trigger, the step outputs, and the run's context, which
      holds the step outputs too. */
  datatype Names = Names(trigger: map<string, Json>, steps: map<string, Json>, rest: map<string, Json>)

  const CONTEXT := "context"

  function Lookup(names: Names, id: string): Option<Json> {
    if id == TRIGGER then Some(Obj(names.trigger))
    else if id == STEPS then Some(Obj(names.steps))
    else if id == CONTEXT then Some(Obj(names.rest[STEPS := Obj(names.steps)]))
    else None
  }

  function Field(fields: map<string, Json>, k: string): Option<Json> {
    if k in fields then Some(fields[k]) else None
  }

  function Index(sem: Semantics, v: Json, i: Json): Option<Json> {
    if v.Obj? && i.Str? then Field(v.fields, i.s) else sem.index(v, i)
  }

  function Attr(sem: Semantics, v: Json, attr: string): Option<Json> {
    if v.Obj? then Field(v.fields, attr) else sem.attribute(v, attr)
  }

  function Eval(sem: Semantics, e: Expr, names: Names): Option<Json>
    decreases e
  {
    match e
    case Name(id) => Lookup(names, id)
    case Constant(v) => Some(v)
    case Subscript(value, index) =>
      (match (Eval(sem, value, names), Eval(sem, index, names))
       case (Some(v), Some(i)) => Index(sem, v, i)
       case _ => None)
    case Attribute(value, attr) =>
      (match Eval(sem, value, names)
       case Some(v) => Attr(sem, v, attr)
       case None => None)
    case Operator(op, args) =>
      sem.apply(op, seq(|args|, i requires 0 <= i < |args| => Eval(sem, args[i], names)))
  }

  /** How a condition is evaluated: constants are themselves, the three names it may use read the run, any other is an
      error; a dictionary is read by a constant key or an attribute alike, a missing key is an error, and so is
      whatever holds one. */
  lemma EvaluationReads(sem: Semantics, names: Names, e: Expr, v: Json, k: string)
    ensures Eval(sem, Constant(v), names) == Some(v)
    ensures Eval(sem, Name("trigger"), names) == Some(Obj(names.trigger))
    ensures Eval(sem, Name("steps"), names) == Some(Obj(names.steps))
    ensures Eval(sem, Name("context"), names) == Some(Obj(names.rest["steps" := Obj(names.steps)]))
    ensures k !in {"trigger", "steps", "context"} ==> Eval(sem, Name(k), names) == None
    ensures var at := Eval(sem, e, names);
      && (at.None? ==> Eval(sem, Attribute(e, k), names) == Eval(sem, Subscript(e, Constant(Str(k))), names) == None)
      && (at.Some? && at.value.Obj? ==>
            Eval(sem, Attribute(e, k), names) == Eval(sem, Subscript(e, Constant(Str(k))), names) ==
              if k in at.value.fields then Some(at.value.fields[k]) else None)
  {
    assert "trigger"[0] == 't' && "steps"[0] == 's' && "context"[0] == 'c';
  }

  ghost function RenameNames(names: Names, mapping: Mapping): Names
    requires Renaming(mapping) && names.steps.Keys <= mapping.Keys
  {
    names.(steps := RenameSteps(names.steps, mapping))
  }

  /** `steps` and `context` occur only under a constant key: a step that minting does not capture, or a
      part of the context other than its step outputs. */
  ghost predicate Guarded(e: Expr, mapping: Mapping)
    decreases e
  {
    match e
    case Name(id) => id != STEPS && id != CONTEXT
    case Constant(_) => true
    case Subscript(value, index) =>
      if value.Name? && (value.id == STEPS || value.id == CONTEXT) then
        index.Constant? && index.literal.Str? && GuardedKey(value.id, index.literal.s, mapping)
      else Guarded(value, mapping) && Guarded(index, mapping)
    case Attribute(value, attr) =>
      if value.Name? && (value.id == STEPS || value.id == CONTEXT) then GuardedKey(value.id, attr, mapping)
      else Guarded(value, mapping)
    case Operator(op, args) => forall i :: 0 <= i < |args| ==> Guarded(args[i], mapping)
  }

  ghost predicate GuardedKey(name: string, k: string, mapping: Mapping) {
    if name == STEPS then !Captured(k, mapping) else k != STEPS
  }

  lemma RewriteNeverMakesSteps(e: Expr, mapping: Mapping)
    ensures IsSteps(RewriteExpr(e, mapping)) <==> IsSteps(e)
  {
  }

  /** The rewritten tree on the renamed step outputs evaluates to what the original did on the original ones. */
  lemma {:induction false} RewritingPreservesEvaluation(sem: Semantics, e: Expr, mapping: Mapping, names: Names)
    requires Renaming(mapping) && names.steps.Keys <= mapping.Keys && Guarded(e, mapping)
    ensures Eval(sem, RewriteExpr(e, mapping), RenameNames(names, mapping)) == Eval(sem, e, names)
    decreases e
  {
    hide Captured, Lookup, GuardedKey, RenameNames, Index, Attr;
    match e
    case Name(_) => PlainNameKeepsItsValue(e.id, mapping, names);
    case Constant(_) =>
    case Subscript(value, index) =>
      if value.Name? && (value.id == STEPS || value.id == CONTEXT) {
        SubscriptPreserved(sem, value.id, index.literal.s, mapping, names);
      } else {
        RewriteNeverMakesSteps(value, mapping);
        RewritingPreservesEvaluation(sem, value, mapping, names);
        RewritingPreservesEvaluation(sem, index, mapping, names);
      }
    case Attribute(value, attr) =>
      if value.Name? && (value.id == STEPS || value.id == CONTEXT) {
        AttributePreserved(sem, value.id, attr, mapping, names);
      } else {
        RewriteNeverMakesSteps(value, mapping);
        RewritingPreservesEvaluation(sem, value, mapping, names);
      }
    case Operator(op, args) =>
      OperatorPreserved(sem, op, args, mapping, names);
  }

  lemma SubscriptPreserved(sem: Semantics, name: string, k: string, mapping: Mapping, names: Names)
    requires Renaming(mapping) && names.steps.Keys <= mapping.Keys
    requires (name == STEPS || name == CONTEXT) && GuardedKey(name, k, mapping)
    ensures var e := Subscript(Name(name), Constant(Str(k)));
      Eval(sem, RewriteExpr(e, mapping), RenameNames(names, mapping)) == Eval(sem, e, names)
  {
    hide Lookup, GuardedKey, RenameNames;
    KeyPreserved(sem, name, k, mapping, names);
    var e := Subscript(Name(name), Constant(Str(k)));
    var k' := if name == STEPS && k in mapping then mapping[k] else k;
    assert RewriteExpr(e, mapping) == Subscript(Name(name), Constant(Str(k')));
  }

  lemma AttributePreserved(sem: Semantics, name: string, k: string, mapping: Mapping, names: Names)
    requires Renaming(mapping) && names.steps.Keys <= mapping.Keys
    requires (name == STEPS || name == CONTEXT) && GuardedKey(name, k, mapping)
    ensures var e := Attribute(Name(name), k);
      Eval(sem, RewriteExpr(e, mapping), RenameNames(names, mapping)) == Eval(sem, e, names)
  {
    hide Lookup, GuardedKey, RenameNames;
    KeyPreserved(sem, name, k, mapping, names);
    var e := Attribute(Name(name), k);
    var k' := if name == STEPS && k in mapping then mapping[k] else k;
    assert RewriteExpr(e, mapping) == Attribute(Name(name), k');
  }

  lemma PlainNameKeepsItsValue(id: string, mapping: Mapping, names: Names)
    requires Renaming(mapping) && names.steps.Keys <= mapping.Keys && id != STEPS && id != CONTEXT
    ensures Lookup(RenameNames(names, mapping), id) == Lookup(names, id)
  {
  }

  /** A constant key of `steps` or `context`, before and after. */
  lemma KeyPreserved(sem: Semantics, name: string, k: string, mapping: Mapping, names: Names)
    requires Renaming(mapping) && names.steps.Keys <= mapping.Keys
    requires (name == STEPS || name == CONTEXT) && GuardedKey(name, k, mapping)
    ensures var k' := if name == STEPS && k in mapping then mapping[k] else k;
      var before, after := Lookup(names, name), Lookup(RenameNames(names, mapping), name);
      && before.Some? && before.value.Obj? && after.Some? && after.value.Obj?
      && Field(after.value.fields, k') == Field(before.value.fields, k)
  {
    assert CONTEXT[0] == 'c' && TRIGGER[0] == 't';
    RenamedLookup(names.steps, mapping, k);
  }

  lemma {:induction false} OperatorPreserved(sem: Semantics, op: string, args: seq<Expr>, mapping: Mapping,
    names: Names)
    requires Renaming(mapping) && names.steps.Keys <= mapping.Keys
    requires forall i :: 0 <= i < |args| ==> Guarded(args[i], mapping)
    ensures Eval(sem, RewriteExpr(Operator(op, args), mapping), RenameNames(names, mapping)) ==
      Eval(sem, Operator(op, args), names)
    decreases args
  {
    var renamed := RenameNames(names, mapping);
    var args' := RewriteExpr(Operator(op, args), mapping).args;
    forall i | 0 <= i < |args| ensures Eval(sem, args'[i], renamed) == Eval(sem, args[i], names) {
      RewritingPreservesEvaluation(sem, args[i], mapping, names);
    }
    assert seq(|args'|, i requires 0 <= i < |args'| => Eval(sem, args'[i], renamed))
      == seq(|args|, i requires 0 <= i < |args| => Eval(sem, args[i], names));
  }

  /** The value of a condition's text: nothing when it does not parse. */
  function EvalText(syntax: Syntax, sem: Semantics, text: string, names: Names): Option<Json> {
    match syntax.parse(text)
    case None => None
    case Some(e) => Eval(sem, e, names)
  }

  /** Minting preserves conditions, as text. */
  lemma ConditionPreserved(syntax: Syntax, sem: Semantics, text: string, mapping: Mapping, names: Names)
    requires Lawful(syntax, mapping) && Renaming(mapping) && names.steps.Keys <= mapping.Keys
    requires syntax.parse(text).Some? ==> Guarded(syntax.parse(text).value, mapping)
    ensures EvalText(syntax, sem, RewriteCondition(syntax, text, mapping), RenameNames(names, mapping)) ==
      EvalText(syntax, sem, text, names)
  {
    match syntax.parse(text)
    case None =>
    case Some(e) =>
      assert ReadsBack(syntax, RewriteExpr(e, mapping));
      RewritingPreservesEvaluation(sem, e, mapping, names);
  }

  /** Every constant of an expression that is not itself the key of a step. */
  function Literals(e: Expr): seq<Json>
    decreases e, 0
  {
    match e
    case Name(_) => []
    case Constant(v) => [v]
    case Subscript(value, index) =>
      Literals(value) + (if IsSteps(value) && index.Constant? && index.literal.Str? then [] else Literals(index))
    case Attribute(value, _) => Literals(value)
    case Operator(_, args) => LiteralsOf(args, |args|)
  }

  function LiteralsOf(args: seq<Expr>, n: nat): seq<Json>
    requires n <= |args|
    decreases args, n
  {
    if n == 0 then [] else LiteralsOf(args, n - 1) + Literals(args[n - 1])
  }

  /** A literal is left alone, even one that spells a step id. */
  lemma {:induction false} LiteralsUntouched(e: Expr, mapping: Mapping)
    ensures Literals(RewriteExpr(e, mapping)) == Literals(e)
    decreases e, 0
  {
    match e
    case Name(_) =>
    case Constant(_) =>
    case Subscript(value, index) =>
      RewriteNeverMakesSteps(value, mapping);
      LiteralsUntouched(value, mapping);
      LiteralsUntouched(index, mapping);
    case Attribute(value, _) =>
      LiteralsUntouched(value, mapping);
    case Operator(op, args) =>
      LiteralsOfUntouched(args, RewriteExpr(e, mapping).args, mapping, |args|);
  }

  lemma {:induction false} LiteralsOfUntouched(args: seq<Expr>, args': seq<Expr>, mapping: Mapping, n: nat)
    requires n <= |args| == |args'| && forall i :: 0 <= i < |args| ==> args'[i] == RewriteExpr(args[i], mapping)
    ensures LiteralsOf(args', n) == LiteralsOf(args, n)
    decreases args, n
  {
    if n > 0 {
      LiteralsOfUntouched(args, args', mapping, n - 1);
      LiteralsUntouched(args[n - 1], mapping);
    }
  }
}

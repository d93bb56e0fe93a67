/** The `{…}` templates the engine renders, and the delimited references in agent-facing prose. */
module Templates {
  import opened Json
  import opened Validators
  import opened Paths

  predicate PathChar(c: char) {
    AlphaNumeric(c) || c == '_' || c == '.'
  }

  /** The length of the longest run of placeholder characters at the start. */
  function PathRun(s: string): (n: nat)
    ensures n <= |s|
  {
    if s == "" || !PathChar(s[0]) then 0 else 1 + PathRun(s[1..])
  }

  /** A placeholder `{…}` starts here. */
  predicate Opens(s: string) {
    s != "" && s[0] == '{' &&
    var n := PathRun(s[1..]);
    n >= 1 && n + 1 < |s| && s[n + 1] == '}'
  }

  function HolePath(s: string): string
    requires Opens(s)
  {
    s[1..PathRun(s[1..]) + 1]
  }

  function AfterHole(s: string): string
    requires Opens(s)
  {
    s[PathRun(s[1..]) + 2..]
  }

  datatype Token = Literal(c: char) | Hole(path: string)

  /** The engine's reading of a template: literal characters and placeholders, left to right. */
  function Scan(s: string): seq<Token>
    decreases |s|
  {
    if s == "" then []
    else if Opens(s) then [Hole(HolePath(s))] + Scan(AfterHole(s))
    else [Literal(s[0])] + Scan(s[1..])
  }

  /** `_rewrite_template` */
  function RewriteTemplate(s: string, mapping: Mapping): string
    decreases |s|
  {
    if s == "" then ""
    else if Opens(s) then "{" + RewritePath(HolePath(s), mapping) + "}" + RewriteTemplate(AfterHole(s), mapping)
    else [s[0]] + RewriteTemplate(s[1..], mapping)
  }

  function RenameToken(t: Token, mapping: Mapping): Token {
    match t
    case Literal(c) => t
    case Hole(path) => Hole(RewritePath(path, mapping))
  }

  function RenameTokens(tokens: seq<Token>, mapping: Mapping): seq<Token> {
    seq(|tokens|, i requires 0 <= i < |tokens| => RenameToken(tokens[i], mapping))
  }

  /** The new ids are made of placeholder characters. */
  ghost predicate PlaceholderIds(mapping: Mapping) {
    forall a :: a in mapping ==> mapping[a] != "" && PathText(mapping[a])
  }

  predicate PathText(s: string) {
    forall i :: 0 <= i < |s| ==> PathChar(s[i])
  }

  lemma {:induction false} RunIsPathText(s: string)
    ensures PathText(s[..PathRun(s)])
    ensures PathRun(s) < |s| ==> !PathChar(s[PathRun(s)])
  {
    if s != "" && PathChar(s[0]) {
      RunIsPathText(s[1..]);
      assert s[..PathRun(s)] == [s[0]] + s[1..][..PathRun(s[1..])];
    }
  }

  lemma {:induction false} RunOfPathText(p: string, rest: string)
    requires PathText(p) && (rest == "" || !PathChar(rest[0]))
    ensures PathRun(p + rest) == |p|
  {
    if p == "" {
      assert p + rest == rest;
    } else {
      assert (p + rest)[1..] == p[1..] + rest;
      RunOfPathText(p[1..], rest);
    }
  }

  /** A renamed path is again a non-empty text of placeholder characters. */
  lemma RewrittenPathIsPathText(path: string, mapping: Mapping)
    requires PlaceholderIds(mapping) && path != "" && PathText(path)
    ensures RewritePath(path, mapping) != "" && PathText(RewritePath(path, mapping))
  {
    var (head, sep, rest) := Partition(path);
    PartitionJoins(path);
    if sep && head == STEPS {
      var (id, sep2, tail) := Partition(rest);
      PartitionJoins(rest);
      assert path == head + "." + rest;
      assert PathText(head) by { assert forall i :: 0 <= i < |head| ==> head[i] == path[i]; }
      assert PathText(rest) by { assert forall i :: 0 <= i < |rest| ==> rest[i] == path[|head| + 1 + i]; }
      if sep2 {
        assert rest == id + "." + tail;
        assert PathText(tail) by { assert forall i :: 0 <= i < |tail| ==> tail[i] == rest[|id| + 1 + i]; }
      }
    }
  }

  /** Rewriting later text changes neither the run of placeholder characters at its start nor what ends it. */
  lemma {:induction false} RunSurvivesRewriting(s: string, mapping: Mapping)
    ensures var out := RewriteTemplate(s, mapping); var n := PathRun(s);
      && PathRun(out) == n
      && (n < |s| <==> n < |out|)
      && (n < |s| ==> out[n] == s[n])
    decreases |s|
  {
    if s != "" {
      if Opens(s) {
      } else if PathChar(s[0]) {
        RunSurvivesRewriting(s[1..], mapping);
        assert RewriteTemplate(s, mapping)[1..] == RewriteTemplate(s[1..], mapping);
      }
    }
  }

  /** Scanning the rewritten template finds the same literals and the same placeholders, in the same order,
      with only the step ids renamed. */
  lemma {:induction false} RewritingKeepsTokens(s: string, mapping: Mapping)
    requires PlaceholderIds(mapping)
    ensures Scan(RewriteTemplate(s, mapping)) == RenameTokens(Scan(s), mapping)
    decreases |s|
  {
    hide RewritePath, Opens, HolePath, AfterHole;
    if s == "" {
    } else if Opens(s) {
      HoleIsPathText(s);
      RewrittenPathIsPathText(HolePath(s), mapping);
      RewritingKeepsTokens(AfterHole(s), mapping);
      PrintedHoleScans(RewritePath(HolePath(s), mapping), RewriteTemplate(AfterHole(s), mapping));
      RenamedHead(Hole(HolePath(s)), Scan(AfterHole(s)), mapping);
    } else {
      RewritingKeepsTokens(s[1..], mapping);
      StillLiteral(s, mapping);
      RenamedHead(Literal(s[0]), Scan(s[1..]), mapping);
    }
  }

  lemma RenamedHead(t: Token, rest: seq<Token>, mapping: Mapping)
    ensures RenameTokens([t] + rest, mapping) == [RenameToken(t, mapping)] + RenameTokens(rest, mapping)
  {
  }

  lemma HoleIsPathText(s: string)
    requires Opens(s)
    ensures HolePath(s) != "" && PathText(HolePath(s)) && |AfterHole(s)| < |s|
  {
    RunIsPathText(s[1..]);
    assert HolePath(s) == s[1..][..PathRun(s[1..])];
  }

  lemma StillLiteral(s: string, mapping: Mapping)
    requires s != "" && !Opens(s)
    ensures Scan(RewriteTemplate(s, mapping)) == [Literal(s[0])] + Scan(RewriteTemplate(s[1..], mapping))
  {
    var out := RewriteTemplate(s, mapping);
    RunSurvivesRewriting(s[1..], mapping);
    assert out[1..] == RewriteTemplate(s[1..], mapping);
    assert !Opens(out);
  }

  lemma PrintedHoleScans(path: string, rest: string)
    requires path != "" && PathText(path)
    ensures Scan("{" + path + "}" + rest) == [Hole(path)] + Scan(rest)
  {
    var s := "{" + path + "}" + rest;
    assert s[1..] == path + ("}" + rest);
    RunOfPathText(path, "}" + rest);
    assert Opens(s);
    assert HolePath(s) == path;
    assert AfterHole(s) == rest;
  }

  /** `_render_observation_template`: placeholders become the text of the value they resolve to, or nothing. */
  function Render(tokens: seq<Token>, ctx: Context, text: Json -> string): string {
    if tokens == [] then ""
    else
      (match tokens[0]
       case Literal(c) => [c]
       case Hole(path) =>
         var value := Resolve(ctx, path);
         if value.Null? || value.Obj? || value.Arr? then "" else text(value))
      + Render(tokens[1..], ctx, text)
  }

  /** A placeholder is made of letters, digits, underscores and dots. */
  lemma PlaceholderChars(c: char)
    ensures PathChar(c) <==> c in ClassOf("_.")
  {
    ClassHolds("_.", c);
  }

  lemma {:induction false} LiteralsRender(s: string, ctx: Context, text: Json -> string)
    requires '{' !in s
    ensures Render(Scan(s), ctx, text) == s
    decreases |s|
  {
    if s != "" {
      assert !Opens(s);
      LiteralsRender(s[1..], ctx, text);
      assert Scan(s)[1..] == Scan(s[1..]);
    }
  }

  /** How the engine renders a template: text without braces as it is, and a placeholder as the text of what its path
      reads, when that is a string, a number or a flag, and as nothing otherwise. */
  lemma RenderingReads(s: string, path: string, rest: string, ctx: Context, text: Json -> string)
    ensures '{' !in s ==> Render(Scan(s), ctx, text) == s
    ensures path != "" && PathText(path) ==>
      var value := Resolve(ctx, path);
      Render(Scan("{" + path + "}" + rest), ctx, text) ==
        (if value.Str? || value.Int? || value.Real? || value.Bool? then text(value) else "")
        + Render(Scan(rest), ctx, text)
  {
    hide Resolve;
    if '{' !in s {
      LiteralsRender(s, ctx, text);
    }
    if path != "" && PathText(path) {
      PrintedHoleScans(path, rest);
      assert ([Hole(path)] + Scan(rest))[1..] == Scan(rest);
    }
  }

  ghost predicate HolesReferenceSafely(tokens: seq<Token>, mapping: Mapping) {
    forall i :: 0 <= i < |tokens| && tokens[i].Hole? ==> ReferencesSafely(tokens[i].path, mapping)
  }

  lemma {:induction false} RenderingRenamedTokens(tokens: seq<Token>, mapping: Mapping, ctx: Context,
    text: Json -> string)
    requires Renaming(mapping) && ctx.steps.Keys <= mapping.Keys && HolesReferenceSafely(tokens, mapping)
    ensures Render(RenameTokens(tokens, mapping), RenameContext(ctx, mapping), text) == Render(tokens, ctx, text)
    decreases |tokens|
  {
    if tokens != [] {
      assert RenameTokens(tokens, mapping)[1..] == RenameTokens(tokens[1..], mapping);
      assert forall i :: 0 <= i < |tokens[1..]| ==> tokens[1..][i] == tokens[i + 1];
      RenderingRenamedTokens(tokens[1..], mapping, ctx, text);
      if tokens[0].Hole? {
        RewrittenPathResolves(tokens[0].path, mapping, ctx);
      }
    }
  }

  /** Rendering commutes with minting: the rewritten template, read by the engine against the renamed run,
      renders to the text the original template gave. */
  lemma RenderingCommutes(s: string, mapping: Mapping, ctx: Context, text: Json -> string)
    requires Renaming(mapping) && PlaceholderIds(mapping) && ctx.steps.Keys <= mapping.Keys
    requires HolesReferenceSafely(Scan(s), mapping)
    ensures Render(Scan(RewriteTemplate(s, mapping)), RenameContext(ctx, mapping), text) == Render(Scan(s), ctx, text)
  {
    RewritingKeepsTokens(s, mapping);
    RenderingRenamedTokens(Scan(s), mapping, ctx, text);
  }

  /** A character a delimited body may hold. */
  predicate BodyChar(open: char, c: char) {
    !White(c) && if open == '`' then c != '`' else c != '<' && c != '>'
  }

  function BodyRun(open: char, s: string): (n: nat)
    ensures n <= |s|
  {
    if s == "" || !BodyChar(open, s[0]) then 0 else 1 + BodyRun(open, s[1..])
  }

  const STEPS_DOT := "steps."
  const PRIOR_DOT := "prior_steps."

  predicate ReferenceBody(body: string) {
    STEPS_DOT < body || PRIOR_DOT < body
  }

  function Closer(open: char): char {
    if open == '`' then '`' else '>'
  }

  /** A delimited reference starts here, with both delimiters in place. */
  predicate OpensReference(s: string) {
    s != "" && (s[0] == '`' || s[0] == '<') &&
    var n := BodyRun(s[0], s[1..]);
    n + 1 < |s| && s[n + 1] == Closer(s[0]) && ReferenceBody(s[1..n + 1])
  }

  function BodyOf(s: string): string
    requires OpensReference(s)
  {
    s[1..BodyRun(s[0], s[1..]) + 1]
  }

  function AfterReference(s: string): string
    requires OpensReference(s)
  {
    s[BodyRun(s[0], s[1..]) + 2..]
  }

  function RenameBody(body: string, mapping: Mapping): string {
    match RemapStepRef(body, mapping, true)
    case Some(renamed) => renamed
    case None => body
  }

  function RewriteDelimited(s: string, mapping: Mapping): string
    decreases |s|
  {
    if s == "" then ""
    else if OpensReference(s) then
      [s[0]] + RenameBody(BodyOf(s), mapping) + [Closer(s[0])] + RewriteDelimited(AfterReference(s), mapping)
    else [s[0]] + RewriteDelimited(s[1..], mapping)
  }

  /** `_rewrite_prose_references`: placeholders first, then delimited references. */
  function RewriteProse(s: string, mapping: Mapping): string {
    RewriteDelimited(RewriteTemplate(s, mapping), mapping)
  }

  datatype Piece = Prose(c: char) | Reference(open: char, body: string)

  function Pieces(s: string): seq<Piece>
    decreases |s|
  {
    if s == "" then []
    else if OpensReference(s) then [Reference(s[0], BodyOf(s))] + Pieces(AfterReference(s))
    else [Prose(s[0])] + Pieces(s[1..])
  }

  function Write(pieces: seq<Piece>): string {
    if pieces == [] then ""
    else
      (match pieces[0]
       case Prose(c) => [c]
       case Reference(open, body) => [open] + body + [Closer(open)])
      + Write(pieces[1..])
  }

  function RenamePieces(pieces: seq<Piece>, mapping: Mapping): seq<Piece> {
    seq(|pieces|, i requires 0 <= i < |pieces| =>
      if pieces[i].Prose? then pieces[i] else Reference(pieces[i].open, RenameBody(pieces[i].body, mapping)))
  }

  /** Prose is rewritten reference by reference: every other character, both delimiters of each reference
      and the order of all of them stay. */
  lemma {:induction false} ProseKeepsItsPieces(s: string, mapping: Mapping)
    ensures Write(Pieces(s)) == s
    ensures Write(RenamePieces(Pieces(s), mapping)) == RewriteDelimited(s, mapping)
    decreases |s|
  {
    hide RenameBody, OpensReference, BodyOf, AfterReference, RenamePieces, Write, Closer;
    if s == "" {
      NoPieces(mapping);
    } else if OpensReference(s) {
      ReferenceSplits(s);
      ProseKeepsItsPieces(AfterReference(s), mapping);
      RenamedPiecesHead(Reference(s[0], BodyOf(s)), Pieces(AfterReference(s)), mapping);
      WriteHead(Reference(s[0], BodyOf(s)), Pieces(AfterReference(s)));
      WriteHead(Reference(s[0], RenameBody(BodyOf(s), mapping)), RenamePieces(Pieces(AfterReference(s)), mapping));
    } else {
      ProseKeepsItsPieces(s[1..], mapping);
      RenamedPiecesHead(Prose(s[0]), Pieces(s[1..]), mapping);
      WriteHead(Prose(s[0]), Pieces(s[1..]));
      WriteHead(Prose(s[0]), RenamePieces(Pieces(s[1..]), mapping));
    }
  }

  lemma NoPieces(mapping: Mapping)
    ensures RenamePieces([], mapping) == [] && Write([]) == ""
  {
  }

  lemma ReferenceSplits(s: string)
    requires OpensReference(s)
    ensures s == [s[0]] + BodyOf(s) + [Closer(s[0])] + AfterReference(s)
    ensures |AfterReference(s)| < |s|
  {
  }

  lemma WriteHead(piece: Piece, rest: seq<Piece>)
    ensures Write([piece] + rest) ==
      (match piece case Prose(c) => [c] case Reference(open, body) => [open] + body + [Closer(open)]) + Write(rest)
  {
    assert ([piece] + rest)[1..] == rest;
  }

  lemma RenamedPiecesHead(piece: Piece, rest: seq<Piece>, mapping: Mapping)
    ensures var renamed := if piece.Prose? then piece else Reference(piece.open, RenameBody(piece.body, mapping));
      RenamePieces([piece] + rest, mapping) == [renamed] + RenamePieces(rest, mapping)
  {
  }

  /** A renamed reference keeps its root and its tail; only the step id between them is replaced. */
  lemma RenamedBodyKeepsItsTail(head: string, id: string, sep: bool, tail: string, mapping: Mapping)
    requires head == STEPS || head == PRIOR_STEPS
    requires '.' !in id && (!sep ==> tail == "")
    ensures RenameBody(head + "." + Unpartition(id, sep, tail), mapping) ==
      head + "." + Unpartition(if id in mapping then mapping[id] else id, sep, tail)
  {
    var rest := Unpartition(id, sep, tail);
    assert head + "." + rest == Unpartition(head, true, rest);
    PartitionOfJoin(head, true, rest);
    PartitionOfJoin(id, sep, tail);
  }

  /** An id that a backticked reference can name, and whose first angle bracket opens: inside such a reference it keeps
      an angle bracket before it from being closed, and its new name no longer does. */
  predicate BreaksScan(a: string) {
    '.' !in a && AllBody('`', a) && BodyRun('<', a) < |a| && a[BodyRun('<', a)] == '<'
  }

  ghost predicate ScanSafe(mapping: Mapping) {
    forall a :: a in mapping ==> !BreaksScan(a)
  }

  predicate Undelimited(s: string) {
    forall i :: 0 <= i < |s| ==> s[i] != '`' && s[i] != '<' && s[i] != '>'
  }

  predicate AllBody(open: char, s: string) {
    forall i :: 0 <= i < |s| ==> BodyChar(open, s[i])
  }

  lemma {:induction false} RunOfBody(open: char, s: string, rest: string)
    requires AllBody(open, s)
    ensures BodyRun(open, s + rest) == |s| + BodyRun(open, rest)
  {
    if s == "" {
      assert s + rest == rest;
    } else {
      assert (s + rest)[1..] == s[1..] + rest;
      RunOfBody(open, s[1..], rest);
    }
  }

  lemma {:induction false} RunStops(open: char, s: string)
    ensures AllBody(open, s[..BodyRun(open, s)])
    ensures BodyRun(open, s) < |s| ==> !BodyChar(open, s[BodyRun(open, s)])
  {
    if s != "" && BodyChar(open, s[0]) {
      RunStops(open, s[1..]);
      assert s[..BodyRun(open, s)] == [s[0]] + s[1..][..BodyRun(open, s[1..])];
    }
  }

  /** The parts of a body around its step id, when it names one that is renamed. */
  lemma RenamedBodyParts(body: string, mapping: Mapping)
    requires PlaceholderIds(mapping)
    ensures RenameBody(body, mapping) == body || exists head, id, rest ::
      && (head == STEPS || head == PRIOR_STEPS) && id in mapping && '.' !in id
      && body == head + "." + (id + rest) && RenameBody(body, mapping) == head + "." + (mapping[id] + rest)
  {
    var (head, sep, rest) := Partition(body);
    PartitionJoins(body);
    if RemapStepRef(body, mapping, true).Some? {
      var (id, sep2, tail) := Partition(rest);
      PartitionJoins(rest);
      var after := if sep2 then "." + tail else "";
      assert Unpartition(id, sep2, tail) == id + after && Unpartition(mapping[id], sep2, tail) == mapping[id] + after;
    }
  }

  lemma PathTextIsBody(open: char, s: string)
    requires PathText(s)
    ensures AllBody(open, s) && Undelimited(s)
  {
    forall i | 0 <= i < |s| ensures BodyChar(open, s[i]) && s[i] != '`' && s[i] != '<' && s[i] != '>' {
      assert PathChar(s[i]);
    }
  }

  /** A renamed body is a body of the same reference. */
  lemma RenamedBodyIsBody(open: char, body: string, mapping: Mapping)
    requires PlaceholderIds(mapping) && AllBody(open, body) && ReferenceBody(body)
    ensures AllBody(open, RenameBody(body, mapping)) && ReferenceBody(RenameBody(body, mapping))
  {
    hide RenameBody;
    RenamedBodyParts(body, mapping);
    var renamed := RenameBody(body, mapping);
    if renamed != body {
      var head, id, rest :| (head == STEPS || head == PRIOR_STEPS) && id in mapping
        && body == head + "." + (id + rest) && renamed == head + "." + (mapping[id] + rest);
      PathTextIsBody(open, mapping[id]);
      forall i | 0 <= i < |renamed| ensures BodyChar(open, renamed[i]) {
        if i < |head| + 1 {
          assert renamed[i] == body[i];
        } else if i < |head| + 1 + |mapping[id]| {
          assert renamed[i] == mapping[id][i - |head| - 1];
        } else {
          assert renamed[i] == body[i - |mapping[id]| + |id|];
        }
      }
      assert head + "." <= renamed && |renamed| > |head| + 1;
      assert head == STEPS ==> head + "." == STEPS_DOT;
      assert head == PRIOR_STEPS ==> head + "." == PRIOR_DOT;
    }
  }

  /** How the runs through a text and through its rewriting end: both go through, or the first stops at the closing
      delimiter, or both stop at the same character. */
  predicate EndAlike(open: char, before: string, after: string) {
    var n, m := BodyRun(open, before), BodyRun(open, after);
    if n == |before| then m == |after|
    else before[n] == Closer(open) || (m < |after| && after[m] == before[n])
  }

  lemma RunThroughBody(open: char, opener: char, body: string, mapping: Mapping)
    requires PlaceholderIds(mapping) && ScanSafe(mapping)
    requires (open == '`' || open == '<') && (opener == '`' || opener == '<') && AllBody(opener, body)
    ensures EndAlike(open, body, RenameBody(body, mapping))
  {
    hide RenameBody, BodyRun, AllBody, BodyChar, PlaceholderIds, ScanSafe;
    RenamedBodyParts(body, mapping);
    var renamed := RenameBody(body, mapping);
    if renamed != body {
      var head, id, rest :| (head == STEPS || head == PRIOR_STEPS) && id in mapping && '.' !in id
        && body == head + "." + (id + rest) && renamed == head + "." + (mapping[id] + rest);
      HeadIsBody(open, head);
      NewIdIsBody(open, mapping, id);
      IdEnds(open, opener, head, id, rest, mapping);
      RunOfBody(open, head + ".", id + rest);
      RunOfBody(open, head + ".", mapping[id] + rest);
      RunSplits(open, id, rest);
      RunOfBody(open, mapping[id], rest);
      assert body == (head + ".") + (id + rest) && renamed == (head + ".") + (mapping[id] + rest);
    }
  }

  lemma NewIdIsBody(open: char, mapping: Mapping, id: string)
    requires PlaceholderIds(mapping) && id in mapping
    ensures AllBody(open, mapping[id])
  {
    PathTextIsBody(open, mapping[id]);
  }

  lemma HeadIsBody(open: char, head: string)
    requires head == STEPS || head == PRIOR_STEPS
    ensures AllBody(open, head + ".")
  {
    var s, p := "steps.", "prior_steps.";
    assert head + "." == s || head + "." == p;
    assert s[0] == 's' && s[1] == 't' && s[2] == 'e' && s[3] == 'p' && s[4] == 's' && s[5] == '.';
    assert p[0] == 'p' && p[1] == 'r' && p[2] == 'i' && p[3] == 'o' && p[4] == 'r' && p[5] == '_';
    assert p[6] == 's' && p[7] == 't' && p[8] == 'e' && p[9] == 'p' && p[10] == 's' && p[11] == '.';
  }

  /** The run through a referenced id goes through, or stops at the closing delimiter. */
  lemma IdEnds(open: char, opener: char, head: string, id: string, rest: string, mapping: Mapping)
    requires ScanSafe(mapping) && id in mapping && '.' !in id
    requires (open == '`' || open == '<') && (opener == '`' || opener == '<') &&
      AllBody(opener, head + "." + (id + rest))
    ensures BodyRun(open, id) < |id| ==> id[BodyRun(open, id)] == Closer(open)
  {
    var body := head + "." + (id + rest);
    forall i | 0 <= i < |id| ensures BodyChar(opener, id[i]) {
      assert id[i] == body[|head| + 1 + i];
    }
    RunStops(open, id);
    assert !BreaksScan(id);
  }

  /** The run of body characters at the start of rewritten text ends as it ended before. */
  lemma {:induction false} RunSurvivesRenaming(open: char, s: string, mapping: Mapping)
    requires PlaceholderIds(mapping) && ScanSafe(mapping) && (open == '`' || open == '<')
    ensures EndAlike(open, s, RewriteDelimited(s, mapping))
    decreases |s|
  {
    hide RenameBody, ReferenceBody, PlaceholderIds, ScanSafe;
    var out := RewriteDelimited(s, mapping);
    if s == "" {
    } else if OpensReference(s) {
      RunThroughReference(open, s, mapping);
    } else {
      RunSurvivesRenaming(open, s[1..], mapping);
      assert out[1..] == RewriteDelimited(s[1..], mapping);
    }
  }

  lemma {:induction false} RunThroughReference(open: char, s: string, mapping: Mapping)
    requires PlaceholderIds(mapping) && ScanSafe(mapping) && (open == '`' || open == '<')
    requires OpensReference(s)
    ensures EndAlike(open, s, RewriteDelimited(s, mapping))
    decreases |s|, 0
  {
    hide RenameBody, PlaceholderIds, ScanSafe, OpensReference, BodyOf, AfterReference, RewriteDelimited, BodyRun,
      BodyChar;
    var body, after := BodyOf(s), AfterReference(s);
    var renamed, outAfter := RenameBody(body, mapping), RewriteDelimited(after, mapping);
    ReferenceSplits(s);
    ReferenceIsRewritten(s, mapping);
    BodyIsNotWhite(s);
    RunSurvivesRenaming(open, after, mapping);
    OpenerIsDelimiter(s);
    RunThroughBody(open, s[0], body, mapping);
    RunThroughParts(open, s[0], body, Closer(s[0]), after);
    RunThroughParts(open, s[0], renamed, Closer(s[0]), outAfter);
  }

  lemma ReferenceIsRewritten(s: string, mapping: Mapping)
    requires OpensReference(s)
    ensures RewriteDelimited(s, mapping) ==
      [s[0]] + RenameBody(BodyOf(s), mapping) + [Closer(s[0])] + RewriteDelimited(AfterReference(s), mapping)
  {
  }

  lemma BodyIsNotWhite(s: string)
    requires OpensReference(s)
    ensures AllBody(s[0], BodyOf(s)) && ReferenceBody(BodyOf(s)) && forall i :: 0 <= i < |BodyOf(s)| ==>
      !White(BodyOf(s)[i])
  {
    RunStops(s[0], s[1..]);
    assert BodyOf(s) == s[1..][..BodyRun(s[0], s[1..])];
    assert forall i :: 0 <= i < |BodyOf(s)| ==> BodyChar(s[0], BodyOf(s)[i]);
  }

  /** The run through an opening delimiter, a body, a closing delimiter and what follows. */
  lemma RunThroughParts(open: char, opener: char, body: string, closer: char, after: string)
    ensures var n := BodyRun(open, [opener] + body + [closer] + after);
      if !BodyChar(open, opener) then n == 0
      else if BodyRun(open, body) < |body| then n == 1 + BodyRun(open, body)
      else if !BodyChar(open, closer) then n == 1 + |body|
      else n == 2 + |body| + BodyRun(open, after)
  {
    hide BodyChar;
    var s := [opener] + body + [closer] + after;
    assert s[1..] == body + ([closer] + after);
    RunSplits(open, body, [closer] + after);
    assert ([closer] + after)[1..] == after;
  }

  /** The run through a text in two parts. */
  lemma {:induction false} RunSplits(open: char, s: string, rest: string)
    ensures BodyRun(open, s + rest) == if BodyRun(open, s) == |s| then |s| + BodyRun(open, rest) else BodyRun(open, s)
  {
    if s == "" {
      assert s + rest == rest;
    } else {
      assert (s + rest)[1..] == s[1..] + rest;
      RunSplits(open, s[1..], rest);
    }
  }

  lemma HeadKept(s: string, mapping: Mapping)
    ensures var out := RewriteDelimited(s, mapping); (s == "" <==> out == "") && (s != "" ==> out[0] == s[0])
  {
  }

  /** A word without delimiters at the start of rewritten text was there before. */
  lemma {:induction false} WordKept(word: string, s: string, mapping: Mapping)
    requires Undelimited(word) && word <= RewriteDelimited(s, mapping)
    ensures word <= s && RewriteDelimited(s, mapping)[|word|..] == RewriteDelimited(s[|word|..], mapping)
    decreases |word|
  {
    hide RenameBody, BodyOf, AfterReference, ReferenceBody, BodyRun;
    if word != "" {
      HeadKept(s, mapping);
      assert word[0] == s[0];
      assert !OpensReference(s);
      assert RewriteDelimited(s, mapping)[1..] == RewriteDelimited(s[1..], mapping);
      WordKept(word[1..], s[1..], mapping);
    }
  }

  /** A word that opens a body in the rewritten text opened one before. */
  lemma PrefixKept(open: char, word: string, s: string, mapping: Mapping)
    requires AllBody(open, word) && Undelimited(word) && (open == '`' || open == '<')
    requires var out := RewriteDelimited(s, mapping); word < out[..BodyRun(open, out)]
    ensures word < s[..BodyRun(open, s)]
  {
    hide RewriteDelimited, BodyChar;
    var out := RewriteDelimited(s, mapping);
    assert word <= out;
    WordKept(word, s, mapping);
    var rest, outRest := s[|word|..], out[|word|..];
    assert s == word + rest && out == word + outRest;
    RunOfBody(open, word, rest);
    RunOfBody(open, word, outRest);
    HeadKept(rest, mapping);
    assert BodyRun(open, outRest) > 0;
    assert word == s[..|word|] == s[..BodyRun(open, s)][..|word|];
  }

  lemma WordsAreBody(open: char)
    ensures AllBody(open, STEPS_DOT) && Undelimited(STEPS_DOT) && AllBody(open, PRIOR_DOT) && Undelimited(PRIOR_DOT)
  {
    HeadIsBody(open, STEPS);
    HeadIsBody(open, PRIOR_STEPS);
    HeadIsBody('`', STEPS);
    HeadIsBody('`', PRIOR_STEPS);
    HeadIsBody('<', STEPS);
    HeadIsBody('<', PRIOR_STEPS);
    assert STEPS + "." == STEPS_DOT && PRIOR_STEPS + "." == PRIOR_DOT;
    forall i | 0 <= i < |STEPS_DOT| ensures STEPS_DOT[i] != '`' && STEPS_DOT[i] != '<' && STEPS_DOT[i] != '>' {
      assert BodyChar('`', STEPS_DOT[i]) && BodyChar('<', STEPS_DOT[i]);
    }
    forall i | 0 <= i < |PRIOR_DOT| ensures PRIOR_DOT[i] != '`' && PRIOR_DOT[i] != '<' && PRIOR_DOT[i] != '>' {
      assert BodyChar('`', PRIOR_DOT[i]) && BodyChar('<', PRIOR_DOT[i]);
    }
  }

  /** Where a reference opens after the rewriting of what follows, one opened before. */
  lemma OpenedBefore(s: string, mapping: Mapping)
    requires PlaceholderIds(mapping) && ScanSafe(mapping) && s != ""
    requires OpensReference([s[0]] + RewriteDelimited(s[1..], mapping))
    ensures OpensReference(s)
  {
    hide RewriteDelimited, PlaceholderIds, ScanSafe, AllBody, BodyRun;
    var open, t := s[0], s[1..];
    var out := RewriteDelimited(t, mapping);
    assert ([open] + out)[1..] == out;
    var m := BodyRun(open, out);
    assert ([open] + out)[m + 1] == out[m] && ([open] + out)[1..m + 1] == out[..m];
    RunSurvivesRenaming(open, t, mapping);
    WordsAreBody(open);
    if STEPS_DOT < out[..m] {
      PrefixKept(open, STEPS_DOT, t, mapping);
    } else {
      PrefixKept(open, PRIOR_DOT, t, mapping);
    }
    var n := BodyRun(open, t);
    assert s[n + 1] == t[n] && s[1..n + 1] == t[..n];
  }

  lemma PrintedReferenceScans(open: char, body: string, rest: string)
    requires (open == '`' || open == '<') && AllBody(open, body) && ReferenceBody(body)
    ensures Pieces([open] + body + [Closer(open)] + rest) == [Reference(open, body)] + Pieces(rest)
  {
    hide ReferenceBody, Pieces;
    var s := [open] + body + [Closer(open)] + rest;
    RunThroughParts(open, open, body, Closer(open), rest);
    assert s[1..] == body + ([Closer(open)] + rest);
    RunOfBody(open, body, [Closer(open)] + rest);
    assert s[1..|body| + 1] == body;
    assert OpensReference(s) && BodyOf(s) == body && AfterReference(s) == rest;
    PiecesOfReference(s);
  }

  lemma PiecesOfReference(s: string)
    requires OpensReference(s)
    ensures Pieces(s) == [Reference(s[0], BodyOf(s))] + Pieces(AfterReference(s))
  {
  }

  lemma PiecesOfProse(s: string)
    requires s != "" && !OpensReference(s)
    ensures Pieces(s) == [Prose(s[0])] + Pieces(s[1..])
  {
  }

  lemma ProseIsCopied(s: string, mapping: Mapping)
    requires s != "" && !OpensReference(s)
    ensures RewriteDelimited(s, mapping) == [s[0]] + RewriteDelimited(s[1..], mapping)
  {
  }

  /** Scanning rewritten prose finds the same characters and the same references, in the same order, with only step
      ids renamed, as long as no old id breaks the scan. */
  lemma {:induction false} RewritingKeepsReferences(s: string, mapping: Mapping)
    requires PlaceholderIds(mapping) && ScanSafe(mapping)
    ensures Pieces(RewriteDelimited(s, mapping)) == RenamePieces(Pieces(s), mapping)
    decreases |s|
  {
    hide RenameBody, OpensReference, BodyOf, AfterReference, RenamePieces, Closer, RewriteDelimited, Pieces,
      ReferenceBody,
      PlaceholderIds, ScanSafe;
    if s == "" {
      NoPieces(mapping);
      NothingToRewrite(mapping);
    } else if OpensReference(s) {
      ReferenceSplits(s);
      BodyIsNotWhite(s);
      ReferenceIsRewritten(s, mapping);
      RewritingKeepsReferences(AfterReference(s), mapping);
      RenamedBodyIsBody(s[0], BodyOf(s), mapping);
      OpenerIsDelimiter(s);
      PrintedReferenceScans(s[0], RenameBody(BodyOf(s), mapping), RewriteDelimited(AfterReference(s), mapping));
      PiecesOfReference(s);
      RenamedPiecesHead(Reference(s[0], BodyOf(s)), Pieces(AfterReference(s)), mapping);
    } else {
      RewritingKeepsReferences(s[1..], mapping);
      ProseIsCopied(s, mapping);
      var out := [s[0]] + RewriteDelimited(s[1..], mapping);
      assert out[1..] == RewriteDelimited(s[1..], mapping);
      if OpensReference(out) {
        OpenedBefore(s, mapping);
      }
      PiecesOfProse(out);
      PiecesOfProse(s);
      RenamedPiecesHead(Prose(s[0]), Pieces(s[1..]), mapping);
    }
  }

  lemma NothingToRewrite(mapping: Mapping)
    ensures RewriteDelimited("", mapping) == "" && Pieces("") == []
  {
  }

  lemma OpenerIsDelimiter(s: string)
    requires OpensReference(s)
    ensures s[0] == '`' || s[0] == '<'
  {
  }

  lemma {:induction false} WordIsCopied(word: string, s: string, mapping: Mapping)
    requires Undelimited(word)
    ensures RewriteDelimited(word + s, mapping) == word + RewriteDelimited(s, mapping)
    decreases |word|
  {
    if word == "" {
      assert word + s == s;
    } else {
      assert (word + s)[1..] == word[1..] + s;
      assert !OpensReference(word + s);
      WordIsCopied(word[1..], s, mapping);
    }
  }

  const BEFORE := "steps.x"

  lemma BeforeIsBody(open: char)
    ensures AllBody(open, BEFORE) && Undelimited(BEFORE) && STEPS_DOT < BEFORE
  {
    HeadIsBody(open, STEPS);
    HeadIsBody('`', STEPS);
    HeadIsBody('<', STEPS);
    assert BEFORE == (STEPS + ".") + "x" && STEPS + "." == STEPS_DOT;
    forall i | 0 <= i < |BEFORE|
      ensures BodyChar(open, BEFORE[i]) && BodyChar('`', BEFORE[i]) && BodyChar('<', BEFORE[i])
    {
      if i < |STEPS| + 1 {
        assert BEFORE[i] == (STEPS + ".")[i];
      }
    }
  }

  /** The text on which such an id breaks the scan: an angle bracket before a backticked reference to it. */
  function BreakingText(a: string): string {
    ['<'] + (BEFORE + (['`'] + (STEPS_DOT + a) + ['`'] + ['>']))
  }

  lemma BreakingTextIsRewritten(a: string, mapping: Mapping)
    requires a in mapping && BreaksScan(a)
    ensures !OpensReference(BreakingText(a))
    ensures RewriteDelimited(BreakingText(a), mapping) ==
      ['<'] + (BEFORE + (['`'] + (STEPS_DOT + mapping[a]) + ['`'] + ['>']))
  {
    var inner := ['`'] + (STEPS_DOT + a) + ['`'] + ['>'];
    BeforeIsBody('<');
    WordsAreBody('<');
    WordsAreBody('`');
    var prefix := BEFORE + ['`'] + STEPS_DOT;
    assert BreakingText(a)[1..] == prefix + (a + (['`'] + ['>']));
    RunOfBody('<', prefix, a + (['`'] + ['>']));
    RunSplits('<', a, ['`'] + ['>']);
    assert !OpensReference(BreakingText(a));
    InnerIsRewritten(a, mapping);
    WordIsCopied(BEFORE, inner, mapping);
    assert BreakingText(a)[1..] == BEFORE + inner;
  }

  lemma InnerIsRewritten(a: string, mapping: Mapping)
    requires a in mapping && BreaksScan(a)
    ensures RewriteDelimited(['`'] + (STEPS_DOT + a) + ['`'] + ['>'], mapping) ==
      ['`'] + (STEPS_DOT + mapping[a]) + ['`'] + ['>']
  {
    var inner := ['`'] + (STEPS_DOT + a) + ['`'] + ['>'];
    WordsAreBody('`');
    assert inner[1..] == (STEPS_DOT + a) + (['`'] + ['>']);
    RunOfBody('`', STEPS_DOT + a, ['`'] + ['>']);
    assert inner[1..|STEPS_DOT + a| + 1] == STEPS_DOT + a;
    assert OpensReference(inner) && BodyOf(inner) == STEPS_DOT + a && AfterReference(inner) == ['>'];
    ReferenceIsRewritten(inner, mapping);
    RenamedBodyKeepsItsTail(STEPS, a, false, "", mapping);
    assert STEPS + "." == STEPS_DOT;
    NothingToRewrite(mapping);
    assert ['>'][1..] == "";
  }

  lemma BrokenScan(a: string, mapping: Mapping)
    requires PlaceholderIds(mapping) && a in mapping && BreaksScan(a)
    ensures Pieces(RewriteDelimited(BreakingText(a), mapping)) != RenamePieces(Pieces(BreakingText(a)), mapping)
  {
    hide RewriteDelimited, Pieces, BreakingText, BreaksScan, RenamePieces, RenameBody, OpensReference, PlaceholderIds;
    BreakingTextIsRewritten(a, mapping);
    var body := BEFORE + ['`'] + (STEPS_DOT + mapping[a]) + ['`'];
    BeforeIsBody('<');
    WordsAreBody('<');
    NewIdIsBody('<', mapping, a);
    assert AllBody('<', body);
    assert STEPS_DOT < body;
    PrintedReferenceScans('<', body, "");
    assert ['<'] + body + [Closer('<')] + "" ==
      ['<'] + (BEFORE + (['`'] + (STEPS_DOT + mapping[a]) + ['`'] + ['>']));
    assert BreakingText(a) != "" by { BreakingTextStarts(a); }
    PiecesOfProse(BreakingText(a));
    RenamedPiecesHead(Prose(BreakingText(a)[0]), Pieces(BreakingText(a)[1..]), mapping);
    assert Pieces(RewriteDelimited(BreakingText(a), mapping))[0].Reference?;
    assert RenamePieces(Pieces(BreakingText(a)), mapping)[0].Prose?;
  }

  lemma BreakingTextStarts(a: string)
    ensures BreakingText(a) != ""
  {
  }

  /** The scan survives the rewriting of every text exactly when no old id breaks it. */
  lemma ScanSurvivesIff(mapping: Mapping)
    requires PlaceholderIds(mapping)
    ensures ScanSafe(mapping) <==>
      forall s: string :: Pieces(RewriteDelimited(s, mapping)) == RenamePieces(Pieces(s), mapping)
  {
    if ScanSafe(mapping) {
      forall s: string ensures Pieces(RewriteDelimited(s, mapping)) == RenamePieces(Pieces(s), mapping) {
        RewritingKeepsReferences(s, mapping);
      }
    } else {
      var a :| a in mapping && BreaksScan(a);
      BrokenScan(a, mapping);
    }
  }
}

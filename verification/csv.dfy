/** CSV tokenising of batch.ts: what one character-level pass reads, and that it inverts quoted printing. */
module Csv {
  import opened Wrappers

  /** The characters `String.prototype.trim` removes. */
  predicate Blank(c: char) {
    || '\U{9}' <= c <= '\U{D}' || c == ' ' || c == '\U{A0}' || c == '\U{1680}' || '\U{2000}' <= c <= '\U{200A}'
    || c == '\U{2028}' || c == '\U{2029}' || c == '\U{202F}' || c == '\U{205F}' || c == '\U{3000}' || c == '\U{FEFF}'
  }

  /** The white space and line terminators of ECMAScript. */
  const BLANKS: string := "\t\n\U{B}\U{C}\r \U{A0}\U{1680}\U{2000}\U{2001}\U{2002}\U{2003}\U{2004}\U{2005}" +
    "\U{2006}\U{2007}\U{2008}\U{2009}\U{200A}\U{2028}\U{2029}\U{202F}\U{205F}\U{3000}\U{FEFF}"

  lemma BlanksAreListed(c: char)
    ensures Blank(c) <==> c in BLANKS
  {
  }

  function TrimStart(s: string): string {
    if s != "" && Blank(s[0]) then TrimStart(s[1..]) else s
  }

  function TrimEnd(s: string): string {
    if s != "" && Blank(s[|s| - 1]) then TrimEnd(s[..|s| - 1]) else s
  }

  function Trim(s: string): string {
    TrimEnd(TrimStart(s))
  }

  lemma {:induction false} TrimStartEnds(s: string)
    ensures TrimStart(s) != "" ==> !Blank(TrimStart(s)[0])
  {
    if s != "" && Blank(s[0]) {
      TrimStartEnds(s[1..]);
    }
  }

  lemma {:induction false} TrimEndEnds(s: string)
    ensures var t := TrimEnd(s); t <= s && (t != "" ==> !Blank(t[|t| - 1]))
  {
    if s != "" && Blank(s[|s| - 1]) {
      TrimEndEnds(s[..|s| - 1]);
    }
  }

  /** Trimming twice is trimming once. */
  lemma TrimTwice(s: string)
    ensures Trim(Trim(s)) == Trim(s)
  {
    TrimStartEnds(s);
    TrimEndEnds(TrimStart(s));
  }

  type Record = seq<string>

  /** What the pass reads, once quoting is resolved. */
  datatype Token = Text(c: char) | Comma | Newline

  /** The tokens of a text, read from inside or outside a quoted field. */
  function Tokens(s: string, quoted: bool): seq<Token>
    decreases |s|
  {
    if s == "" then []
    else if s[0] == '"' then
      (if quoted && |s| > 1 && s[1] == '"' then [Text('"')] + Tokens(s[2..], true) else Tokens(s[1..], !quoted))
    else if quoted then [Text(s[0])] + Tokens(s[1..], true)
    else (match s[0]
          case ',' => [Comma]
          case '\n' => [Newline]
          case '\r' => []
          case c => [Text(c)])
         + Tokens(s[1..], false)
  }

  /** Whether the pass ends inside a quoted field. */
  predicate Unterminated(s: string, quoted: bool)
    decreases |s|
  {
    if s == "" then quoted
    else if s[0] == '"' then
      (if quoted && |s| > 1 && s[1] == '"' then Unterminated(s[2..], true) else Unterminated(s[1..], !quoted))
    else Unterminated(s[1..], quoted)
  }

  /** Cells are trimmed as they end; the last record ends with the text. */
  function Assemble(tokens: seq<Token>, cells: Record, cur: string): seq<Record> {
    if tokens == [] then [cells + [Trim(cur)]]
    else match tokens[0]
      case Text(c) => Assemble(tokens[1..], cells, cur + [c])
      case Comma => Assemble(tokens[1..], cells + [Trim(cur)], "")
      case Newline => [cells + [Trim(cur)]] + Assemble(tokens[1..], [], "")
  }

  datatype CsvError =
    | NoData | InvalidJson | NotAnArray | ItemNotAnObject | EmptyArray
    | UnterminatedField | TooFewRecords | EmptyColumnName

  function Records(text: string): Result<seq<Record>, CsvError> {
    if Unterminated(text, false) then Failure(UnterminatedField) else Success(Assemble(Tokens(text, false), [], ""))
  }

  /** `csvRecords`: one pass over the text. */
  method CsvRecords(text: string) returns (r: Result<seq<Record>, CsvError>)
    ensures r == Records(text)
  {
    hide Tokens, Assemble, Trim;
    var records: seq<Record> := [];
    var cells: Record := [];
    var cur := "";
    var inQuotes := false;
    var i := 0;
    assert text[0..] == text;
    while i < |text|
      invariant 0 <= i <= |text|
      invariant Unterminated(text, false) == Unterminated(text[i..], inQuotes)
      invariant Assemble(Tokens(text, false), [], "") == records + Assemble(Tokens(text[i..], inQuotes), cells, cur)
    {
      var ch := text[i];
      ReadOne(text[i..], inQuotes, cells, cur);
      assert text[i..][1..] == text[i + 1..];
      assert i + 1 < |text| ==> text[i..][2..] == text[i + 2..];
      if inQuotes {
        if ch == '"' {
          if i + 1 < |text| && text[i + 1] == '"' {
            cur := cur + ['"'];
            i := i + 1;
          } else {
            inQuotes := false;
          }
        } else {
          cur := cur + [ch];
        }
      } else if ch == '"' {
        inQuotes := true;
      } else if ch == ',' {
        cells, cur := cells + [Trim(cur)], "";
      } else if ch == '\n' {
        records := records + [cells + [Trim(cur)]];
        cells, cur := [], "";
      } else if ch != '\r' {
        cur := cur + [ch];
      }
      i := i + 1;
    }
    if inQuotes {
      return Failure(UnterminatedField);
    }
    NothingLeft(cells, cur);
    records := records + [cells + [Trim(cur)]];
    return Success(records);
  }

  lemma NothingLeft(cells: Record, cur: string)
    ensures Assemble(Tokens("", false), cells, cur) == [cells + [Trim(cur)]]
  {
  }

  /** One iteration of the pass. */
  lemma ReadOne(s: string, quoted: bool, cells: Record, cur: string)
    requires s != ""
    ensures quoted && s[0] == '"' && |s| > 1 && s[1] == '"' ==>
      Assemble(Tokens(s, quoted), cells, cur) == Assemble(Tokens(s[2..], true), cells, cur + ['"'])
    ensures quoted && s[0] != '"' ==>
      Assemble(Tokens(s, quoted), cells, cur) == Assemble(Tokens(s[1..], true), cells, cur + [s[0]])
    ensures quoted && s[0] == '"' && !(|s| > 1 && s[1] == '"') ==> Tokens(s, quoted) == Tokens(s[1..], false)
    ensures !quoted && s[0] == '"' ==> Tokens(s, quoted) == Tokens(s[1..], true)
    ensures !quoted && s[0] == '\r' ==> Tokens(s, quoted) == Tokens(s[1..], false)
    ensures !quoted && s[0] == ',' ==>
      Assemble(Tokens(s, quoted), cells, cur) == Assemble(Tokens(s[1..], false), cells + [Trim(cur)], "")
    ensures !quoted && s[0] == '\n' ==>
      Assemble(Tokens(s, quoted), cells, cur) == [cells + [Trim(cur)]] + Assemble(Tokens(s[1..], false), [], "")
    ensures !quoted && s[0] !in "\",\n\r" ==>
      Assemble(Tokens(s, quoted), cells, cur) == Assemble(Tokens(s[1..], false), cells, cur + [s[0]])
  {
  }

  function Quotes(s: string): nat {
    if s == "" then 0 else (if s[0] == '"' then 1 else 0) + Quotes(s[1..])
  }

  /** An escaped pair opens nothing: a field is left open exactly when the quotes are odd in number. */
  lemma {:induction false} OpenIffOddQuotes(s: string, quoted: bool)
    ensures Unterminated(s, quoted) <==> (Quotes(s) % 2 == 1) != quoted
    decreases |s|
  {
    if s != "" {
      if s[0] == '"' && quoted && |s| > 1 && s[1] == '"' {
        OpenIffOddQuotes(s[2..], true);
        assert s[1..][1..] == s[2..];
      } else {
        OpenIffOddQuotes(s[1..], if s[0] == '"' then !quoted else quoted);
      }
    }
  }

  /** Tokenising fails exactly when the number of quotes is odd. */
  lemma FailsIffOddQuotes(text: string)
    ensures Records(text).Failure? <==> Quotes(text) % 2 == 1
  {
    OpenIffOddQuotes(text, false);
  }

  /** The newlines that an even number of quotes precedes. */
  function NewlinesOutside(s: string, odd: bool): nat {
    if s == "" then 0
    else
      (if s[0] == '\n' && !odd then 1 else 0) + NewlinesOutside(s[1..], if s[0] == '"' then !odd else odd)
  }

  function RecordEnds(tokens: seq<Token>): nat {
    if tokens == [] then 0 else (if tokens[0].Newline? then 1 else 0) + RecordEnds(tokens[1..])
  }

  lemma {:induction false} EndsAreNewlinesOutside(s: string, quoted: bool)
    ensures RecordEnds(Tokens(s, quoted)) == NewlinesOutside(s, quoted)
    decreases |s|
  {
    if s != "" {
      if s[0] == '"' && quoted && |s| > 1 && s[1] == '"' {
        EndsAreNewlinesOutside(s[2..], true);
        EndsOfMore(Text('"'), Tokens(s[2..], true));
        assert s[1..][1..] == s[2..];
      } else {
        var odd := if s[0] == '"' then !quoted else quoted;
        EndsAreNewlinesOutside(s[1..], odd);
        EndsOfMore(if quoted || s[0] !in ",\n" then Text(s[0]) else if s[0] == ',' then Comma else Newline,
          Tokens(s[1..], odd));
        ReadOne(s, quoted, [], "");
      }
    }
  }

  lemma EndsOfMore(t: Token, more: seq<Token>)
    ensures RecordEnds([t] + more) == (if t.Newline? then 1 else 0) + RecordEnds(more)
  {
    assert ([t] + more)[1..] == more;
  }

  lemma {:induction false} RecordsAreEndsAndOne(tokens: seq<Token>, cells: Record, cur: string)
    ensures |Assemble(tokens, cells, cur)| == RecordEnds(tokens) + 1
    decreases |tokens|
  {
    if tokens != [] {
      match tokens[0]
      case Text(c) => RecordsAreEndsAndOne(tokens[1..], cells, cur + [c]);
      case Comma => RecordsAreEndsAndOne(tokens[1..], cells + [Trim(cur)], "");
      case Newline => RecordsAreEndsAndOne(tokens[1..], [], "");
    }
  }

  /** A text that tokenises has one record more than it has newlines outside quotes. */
  lemma OneRecordPerNewlineOutside(text: string)
    requires Records(text).Success?
    ensures |Records(text).value| == NewlinesOutside(text, false) + 1
  {
    EndsAreNewlinesOutside(text, false);
    RecordsAreEndsAndOne(Tokens(text, false), [], "");
  }

  lemma {:induction false} CellsAreTrimmed(tokens: seq<Token>, cells: Record, cur: string)
    requires forall i :: 0 <= i < |cells| ==> Trim(cells[i]) == cells[i]
    ensures forall r :: r in Assemble(tokens, cells, cur) ==> Printable(r)
    decreases |tokens|
  {
    hide Trim;
    TrimTwice(cur);
    if tokens != [] {
      match tokens[0]
      case Text(c) => CellsAreTrimmed(tokens[1..], cells, cur + [c]);
      case Comma => CellsAreTrimmed(tokens[1..], cells + [Trim(cur)], "");
      case Newline => CellsAreTrimmed(tokens[1..], [], "");
    }
  }

  /** A record that printing and tokenising can give back: it has a cell, and every cell is its own trim. */
  predicate Printable(r: Record) {
    r != [] && forall i :: 0 <= i < |r| ==> Trim(r[i]) == r[i]
  }

  function Doubled(cell: string): string {
    if cell == "" then "" else (if cell[0] == '"' then "\"\"" else [cell[0]]) + Doubled(cell[1..])
  }

  function PrintCell(cell: string): string {
    "\"" + Doubled(cell) + "\""
  }

  function PrintRecord(r: Record): string {
    if r == [] then ""
    else if |r| == 1 then PrintCell(r[0]) else PrintCell(r[0]) + "," + PrintRecord(r[1..])
  }

  /** Quoted printing, section 2 of RFC 4180: every cell in quotes, quotes inside doubled. */
  function PrintRecords(rs: seq<Record>): string {
    if rs == [] then ""
    else if |rs| == 1 then PrintRecord(rs[0]) else PrintRecord(rs[0]) + "\n" + PrintRecords(rs[1..])
  }

  function Texts(cell: string): seq<Token> {
    seq(|cell|, i requires 0 <= i < |cell| => Text(cell[i]))
  }

  /** A doubled cell reads as its characters, up to the quote that closes it. */
  lemma {:induction false} DoubledReads(cell: string, rest: string)
    requires rest == "" || rest[0] != '"'
    ensures Tokens(Doubled(cell) + "\"" + rest, true) == Texts(cell) + Tokens(rest, false)
    ensures Unterminated(Doubled(cell) + "\"" + rest, true) == Unterminated(rest, false)
    decreases |cell|
  {
    var s := Doubled(cell) + "\"" + rest;
    if cell == "" {
      assert s[1..] == rest;
    } else {
      DoubledReads(cell[1..], rest);
      var more := Doubled(cell[1..]) + "\"" + rest;
      assert Texts(cell) == [Text(cell[0])] + Texts(cell[1..]);
      if cell[0] == '"' {
        assert s[2..] == more;
      } else {
        assert s[1..] == more;
      }
    }
  }

  lemma CellReads(cell: string, rest: string)
    requires rest == "" || rest[0] != '"'
    ensures Tokens(PrintCell(cell) + rest, false) == Texts(cell) + Tokens(rest, false)
    ensures Unterminated(PrintCell(cell) + rest, false) == Unterminated(rest, false)
  {
    hide Doubled, Tokens, Unterminated;
    var s := PrintCell(cell) + rest;
    assert s[0] == '"' && s[1..] == Doubled(cell) + "\"" + rest;
    QuoteOpens(s);
    DoubledReads(cell, rest);
  }

  lemma QuoteOpens(s: string)
    requires s != "" && s[0] == '"'
    ensures Tokens(s, false) == Tokens(s[1..], true) && Unterminated(s, false) == Unterminated(s[1..], true)
  {
  }

  lemma {:induction false} TextsGather(cell: string, more: seq<Token>, cells: Record, cur: string)
    ensures Assemble(Texts(cell) + more, cells, cur) == Assemble(more, cells, cur + cell)
    decreases |cell|
  {
    if cell == "" {
      assert Texts(cell) + more == more && cur + cell == cur;
    } else {
      TextsGather(cell[1..], more, cells, cur + [cell[0]]);
      assert (Texts(cell) + more)[1..] == Texts(cell[1..]) + more;
      assert cur + [cell[0]] + cell[1..] == cur + cell;
    }
  }

  lemma SeparatorLeavesQuotes(rest: string)
    requires rest != "" && rest[0] != '"'
    ensures Unterminated(rest, false) == Unterminated(rest[1..], false)
  {
  }

  lemma CellGathers(cell: string, tail: string, cells: Record)
    requires tail == "" || tail[0] != '"'
    ensures Assemble(Tokens(PrintCell(cell) + tail, false), cells, "") == Assemble(Tokens(tail, false), cells, cell)
    ensures Unterminated(PrintCell(cell) + tail, false) == Unterminated(tail, false)
  {
    hide PrintCell, Assemble, Tokens, Unterminated;
    CellReads(cell, tail);
    TextsGather(cell, Tokens(tail, false), cells, "");
    assert "" + cell == cell;
  }

  /** A printed record, at the end of the text or before a newline, reads as the record. */
  lemma {:induction false} RecordReads(r: Record, rest: string, cells: Record)
    requires Printable(r) && (rest == "" || rest[0] == '\n')
    ensures Unterminated(PrintRecord(r) + rest, false) == Unterminated(rest, false)
    ensures Assemble(Tokens(PrintRecord(r) + rest, false), cells, "") ==
      [cells + r] + (if rest == "" then [] else Assemble(Tokens(rest[1..], false), [], ""))
    decreases |r|
  {
    hide Trim, Tokens, Unterminated, Assemble, PrintCell;
    if |r| == 1 {
      assert PrintRecord(r) + rest == PrintCell(r[0]) + rest;
      CellGathers(r[0], rest, cells);
      assert cells + [r[0]] == cells + r;
      if rest == "" {
        NothingLeft(cells, r[0]);
      } else {
        ReadOne(rest, false, cells, r[0]);
      }
    } else {
      var tail := "," + (PrintRecord(r[1..]) + rest);
      PrintedHead(r, rest);
      CellGathers(r[0], tail, cells);
      assert tail[1..] == PrintRecord(r[1..]) + rest;
      RecordReads(r[1..], rest, cells + [r[0]]);
      SeparatorLeavesQuotes(tail);
      ReadOne(tail, false, cells, r[0]);
      assert cells + [r[0]] + r[1..] == cells + r;
    }
  }

  lemma PrintedHead(r: Record, rest: string)
    requires |r| > 1
    ensures PrintRecord(r) + rest == PrintCell(r[0]) + ("," + (PrintRecord(r[1..]) + rest))
  {
  }

  /** Tokenising inverts quoted printing. */
  lemma {:induction false} PrintingReadsBack(rs: seq<Record>)
    requires rs != [] && forall i :: 0 <= i < |rs| ==> Printable(rs[i])
    ensures Records(PrintRecords(rs)) == Success(rs)
    decreases |rs|
  {
    hide Tokens, Assemble, Unterminated, PrintRecord, Printable;
    if |rs| == 1 {
      RecordReads(rs[0], "", []);
      assert PrintRecord(rs[0]) + "" == PrintRecord(rs[0]);
      TextEnds();
      assert [] + rs[0] == rs[0] && [rs[0]] + [] == rs;
    } else {
      var rest := "\n" + PrintRecords(rs[1..]);
      PrintingReadsBack(rs[1..]);
      RecordReads(rs[0], rest, []);
      assert PrintRecords(rs) == PrintRecord(rs[0]) + rest;
      assert rest[1..] == PrintRecords(rs[1..]);
      SeparatorLeavesQuotes(rest);
      assert [] + rs[0] == rs[0] && [rs[0]] + rs[1..] == rs;
    }
  }

  lemma TextEnds()
    ensures !Unterminated("", false)
  {
  }

  /** What tokenises is a non-empty list of printable records, so the round trip covers every result. */
  lemma ResultsPrintAndReadBack(text: string)
    requires Records(text).Success?
    ensures var rs := Records(text).value;
      rs != [] && (forall i :: 0 <= i < |rs| ==> Printable(rs[i])) && Records(PrintRecords(rs)) == Success(rs)
  {
    hide Printable, PrintRecords, Trim;
    var rs := Records(text).value;
    RecordsAreEndsAndOne(Tokens(text, false), [], "");
    CellsAreTrimmed(Tokens(text, false), [], "");
    assert forall i :: 0 <= i < |rs| ==> rs[i] in rs;
    PrintingReadsBack(rs);
  }

  lemma {:induction false} TokensSplit(a: string, b: string, quoted: bool)
    requires b == "" || b[0] != '"'
    ensures Tokens(a + b, quoted) == Tokens(a, quoted) + Tokens(b, Unterminated(a, quoted))
    ensures Unterminated(a + b, quoted) == Unterminated(b, Unterminated(a, quoted))
    decreases |a|, 1
  {
    if a == "" {
      assert a + b == b;
    } else if quoted && a[0] == '"' {
      QuoteSplits(a, b);
    } else {
      assert (a + b)[1..] == a[1..] + b;
      TokensSplit(a[1..], b, if a[0] == '"' then !quoted else quoted);
    }
  }

  lemma {:induction false} QuoteSplits(a: string, b: string)
    requires a != "" && a[0] == '"' && (b == "" || b[0] != '"')
    ensures Tokens(a + b, true) == Tokens(a, true) + Tokens(b, Unterminated(a, true))
    ensures Unterminated(a + b, true) == Unterminated(b, Unterminated(a, true))
    decreases |a|, 0
  {
    if |a| > 1 && a[1] == '"' {
      assert (a + b)[2..] == a[2..] + b;
      TokensSplit(a[2..], b, true);
    } else {
      assert (a + b)[1..] == a[1..] + b;
      TokensSplit(a[1..], b, false);
    }
  }

  /** Outside quotes a line may end in either convention. */
  lemma CarriageReturnsAreIgnored(a: string, b: string)
    requires !Unterminated(a, false)
    ensures Records(a + "\r\n" + b) == Records(a + "\n" + b)
  {
    var crlf, lf := "\r\n" + b, "\n" + b;
    assert a + "\r\n" + b == a + crlf && a + "\n" + b == a + lf;
    TokensSplit(a, crlf, false);
    TokensSplit(a, lf, false);
    assert crlf[1..] == lf;
    ReadOne(crlf, false, [], "");
  }

  /** `s.split(sep)`: the parts between the separators, one more than there are separators. */
  function SplitAt(s: string, sep: char): (parts: seq<string>)
    ensures parts != []
  {
    if s == "" then [""]
    else
      var rest := SplitAt(s[1..], sep);
      if s[0] == sep then [""] + rest else [[s[0]] + rest[0]] + rest[1..]
  }

  function TrimAll(cells: seq<string>): Record {
    seq(|cells|, i requires 0 <= i < |cells| => Trim(cells[i]))
  }

  function CellsOf(line: string): Record {
    TrimAll(SplitAt(line, ','))
  }

  function RecordsOf(lines: seq<string>): seq<Record> {
    seq(|lines|, i requires 0 <= i < |lines| => CellsOf(lines[i]))
  }

  /** The record that goes on with a line: its first cell continues the one being read. */
  function GoesOn(cells: Record, cur: string, line: string): Record {
    var parts := SplitAt(line, ',');
    cells + [Trim(cur + parts[0])] + TrimAll(parts[1..])
  }

  predicate Plain(s: string) {
    forall i :: 0 <= i < |s| ==> s[i] != '"' && s[i] != '\r'
  }

  lemma {:induction false} PlainIsSplit(s: string, cells: Record, cur: string)
    requires Plain(s)
    ensures !Unterminated(s, false)
    ensures var lines := SplitAt(s, '\n');
      Assemble(Tokens(s, false), cells, cur) == [GoesOn(cells, cur, lines[0])] + RecordsOf(lines[1..])
    decreases |s|
  {
    hide Trim;
    var lines := SplitAt(s, '\n');
    if s == "" {
      NothingLeft(cells, cur);
      LineEnds(cells, cur);
      assert lines == [""] && RecordsOf(lines[1..]) == [];
    } else {
      var rest := s[1..];
      ReadOne(s, false, cells, cur);
      if s[0] == '\n' {
        PlainIsSplit(rest, [], "");
        LineStarts(SplitAt(rest, '\n'));
        LineEnds(cells, cur);
      } else if s[0] == ',' {
        PlainIsSplit(rest, cells + [Trim(cur)], "");
        CellEnds(cells, cur, SplitAt(rest, '\n')[0]);
      } else {
        PlainIsSplit(rest, cells, cur + [s[0]]);
        CellGoesOn(cells, cur, s[0], SplitAt(rest, '\n')[0]);
      }
    }
  }

  lemma LineStarts(lines: seq<string>)
    requires lines != []
    ensures [GoesOn([], "", lines[0])] + RecordsOf(lines[1..]) == RecordsOf(lines)
  {
    hide Trim;
    var parts := SplitAt(lines[0], ',');
    assert "" + parts[0] == parts[0];
    assert [Trim(parts[0])] + TrimAll(parts[1..]) == TrimAll(parts);
    assert GoesOn([], "", lines[0]) == CellsOf(lines[0]);
  }

  lemma LineEnds(cells: Record, cur: string)
    ensures GoesOn(cells, cur, "") == cells + [Trim(cur)]
  {
    hide Trim;
    assert cur + "" == cur;
    assert TrimAll([]) == [];
  }

  lemma CellEnds(cells: Record, cur: string, line: string)
    ensures GoesOn(cells, cur, "," + line) == GoesOn(cells + [Trim(cur)], "", line)
  {
    hide Trim;
    var parts := SplitAt(line, ',');
    assert ("," + line)[1..] == line;
    assert cur + "" == cur && "" + parts[0] == parts[0];
    assert TrimAll(parts) == [Trim(parts[0])] + TrimAll(parts[1..]);
  }

  lemma CellGoesOn(cells: Record, cur: string, c: char, line: string)
    requires c != ','
    ensures GoesOn(cells, cur, [c] + line) == GoesOn(cells, cur + [c], line)
  {
    hide Trim;
    var parts := SplitAt(line, ',');
    assert ([c] + line)[1..] == line;
    assert cur + ([c] + parts[0]) == cur + [c] + parts[0];
  }

  /** Without quotes and carriage returns, tokenising is splitting into lines, each line at its commas, and trimming. */
  lemma PlainTextIsSplit(text: string)
    requires forall c :: c in text ==> c != '"' && c != '\r'
    ensures Records(text) == Success(RecordsOf(SplitAt(text, '\n')))
  {
    hide Trim, Tokens, Assemble, Unterminated;
    assert forall i :: 0 <= i < |text| ==> text[i] in text;
    PlainIsSplit(text, [], "");
    LineStarts(SplitAt(text, '\n'));
  }

  /** Splitting takes out the separators and nothing else. */
  lemma {:induction false} SplittingJoins(s: string, sep: char)
    ensures Joined(SplitAt(s, sep), sep) == s
    ensures forall part :: part in SplitAt(s, sep) ==> sep !in part
  {
    if s != "" {
      SplittingJoins(s[1..], sep);
      var rest := SplitAt(s[1..], sep);
      assert rest[0] in rest;
      if s[0] != sep {
        assert ([[s[0]] + rest[0]] + rest[1..])[1..] == rest[1..];
      } else {
        assert ([""] + rest)[1..] == rest;
      }
    }
  }

  function Joined(parts: seq<string>, sep: char): string {
    if parts == [] then "" else if |parts| == 1 then parts[0] else parts[0] + [sep] + Joined(parts[1..], sep)
  }

  predicate AllBlank(s: string) {
    forall c :: c in s ==> Blank(c)
  }

  /** Trimming takes the blanks at both ends and nothing else. */
  lemma TrimTakesTheEnds(s: string) returns (before: string, after: string)
    ensures s == before + Trim(s) + after && AllBlank(before) && AllBlank(after)
    ensures Trim(s) != "" ==> !Blank(Trim(s)[0]) && !Blank(Trim(s)[|Trim(s)| - 1])
  {
    before := StartTaken(s);
    after := EndTaken(TrimStart(s));
    TrimStartEnds(s);
    TrimEndEnds(TrimStart(s));
  }

  lemma {:induction false} StartTaken(s: string) returns (before: string)
    ensures s == before + TrimStart(s) && AllBlank(before)
  {
    before := "";
    if s != "" && Blank(s[0]) {
      var more := StartTaken(s[1..]);
      before := [s[0]] + more;
    }
  }

  lemma {:induction false} EndTaken(s: string) returns (after: string)
    ensures s == TrimEnd(s) + after && AllBlank(after)
  {
    after := "";
    if s != "" && Blank(s[|s| - 1]) {
      var more := EndTaken(s[..|s| - 1]);
      after := more + [s[|s| - 1]];
    }
  }
}

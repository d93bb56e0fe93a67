/** Batch input of batch.ts: rows keyed by a header record, or a JSON array of objects. */
module Batch {
  import opened Wrappers
  import opened Json
  import opened Csv

  type Row = map<string, Json>

  predicate Filled(cells: Record) {
    exists i :: 0 <= i < |cells| && cells[i] != ""
  }

  /** The records with something in them. */
  function Kept(records: seq<Record>): seq<Record> {
    if records == [] then []
    else (if Filled(records[0]) then [records[0]] else []) + Kept(records[1..])
  }

  /** `cells[i] ?? ''` */
  function CellAt(cells: Record, i: nat): string {
    if i < |cells| then cells[i] else ""
  }

  /** One row after its first `n` columns; a repeated column name keeps its last cell. */
  function RowOf(headers: Record, cells: Record, n: nat): Row
    requires n <= |headers|
  {
    if n == 0 then map[] else RowOf(headers, cells, n - 1)[headers[n - 1] := Str(CellAt(cells, n - 1))]
  }

  function RowsOf(headers: Record, rows: seq<Record>): seq<Row> {
    seq(|rows|, i requires 0 <= i < |rows| => RowOf(headers, rows[i], |headers|))
  }

  function CsvRows(text: string): Result<seq<Row>, CsvError> {
    match Records(text)
    case Failure(e) => Failure(e)
    case Success(all) =>
      var records := Kept(all);
      if |records| < 2 then Failure(TooFewRecords)
      else if "" in records[0] then Failure(EmptyColumnName)
      else Success(RowsOf(records[0], records[1..]))
  }

  /** `parseCsv`: the column loop fills one row object per data record. */
  method ParseCsv(text: string) returns (r: Result<seq<Row>, CsvError>)
    ensures r == CsvRows(text)
  {
    var parsed := CsvRecords(text);
    if parsed.Failure? {
      return Failure(parsed.error);
    }
    var records := Kept(parsed.value);
    if |records| < 2 {
      return Failure(TooFewRecords);
    }
    var headers := records[0];
    if "" in headers {
      return Failure(EmptyColumnName);
    }
    var rows: seq<Row> := [];
    for i := 1 to |records|
      invariant |rows| == i - 1
      invariant forall j :: 0 <= j < |rows| ==> rows[j] == RowOf(headers, records[j + 1], |headers|)
    {
      var row: Row := map[];
      for h := 0 to |headers|
        invariant row == RowOf(headers, records[i], h)
      {
        row := row[headers[h] := Str(CellAt(records[i], h))];
      }
      rows := rows + [row];
    }
    assert rows == RowsOf(headers, records[1..]);
    return Success(rows);
  }

  function Objects(items: seq<Json>): seq<Row>
    requires forall i :: 0 <= i < |items| ==> items[i].Obj?
  {
    seq(|items|, i requires 0 <= i < |items| => items[i].fields)
  }

  /** `parseBatchInput`, over any JSON parser. */
  function ParseBatch(parse: string -> Option<Json>, text: string): Result<seq<Row>, CsvError> {
    var trimmed := Trim(text);
    if trimmed == "" then Failure(NoData)
    else if trimmed[0] == '[' || trimmed[0] == '{' then
      match parse(trimmed)
      case None => Failure(InvalidJson)
      case Some(v) =>
        if !v.Arr? then Failure(NotAnArray)
        else if exists i :: 0 <= i < |v.items| && !v.items[i].Obj? then Failure(ItemNotAnObject)
        else if v.items == [] then Failure(EmptyArray)
        else Success(Objects(v.items))
    else CsvRows(trimmed)
  }

  lemma {:induction false} ColumnsOfRow(headers: Record, cells: Record, n: nat)
    requires n <= |headers|
    ensures forall h :: h in RowOf(headers, cells, n) <==> h in headers[..n]
  {
    if n > 0 {
      ColumnsOfRow(headers, cells, n - 1);
      assert headers[..n] == headers[..n - 1] + [headers[n - 1]];
    }
  }

  /** A row has exactly the columns of the header; each name holds the cell of its last column. */
  lemma {:induction false} RowReads(headers: Record, cells: Record, n: nat, i: nat)
    requires i < n <= |headers| && headers[i] !in headers[i + 1..n]
    ensures headers[i] in RowOf(headers, cells, n)
    ensures RowOf(headers, cells, n)[headers[i]] == Str(if i < |cells| then cells[i] else "")
    ensures forall h :: h in RowOf(headers, cells, n) <==> h in headers[..n]
  {
    ColumnsOfRow(headers, cells, n);
    if i < n - 1 {
      assert headers[i + 1..n] == headers[i + 1..n - 1] + [headers[n - 1]];
      RowReads(headers, cells, n - 1, i);
    }
  }

  lemma {:induction false} AllKept(records: seq<Record>)
    requires forall i :: 0 <= i < |records| ==> Filled(records[i])
    ensures Kept(records) == records
  {
    if records != [] {
      AllKept(records[1..]);
    }
  }

  predicate Unrepeated(headers: Record) {
    forall i, j :: 0 <= i < j < |headers| ==> headers[i] != headers[j]
  }

  /** A table a batch can be printed from: distinct non-empty column names, and rows with something in them,
      all cells their own trim. */
  predicate Table(headers: Record, rows: seq<Record>) {
    && Printable(headers) && Unrepeated(headers) && "" !in headers
    && rows != [] && forall i :: 0 <= i < |rows| ==> Printable(rows[i]) && Filled(rows[i])
  }

  lemma PrintedTextIsTrimmed(rs: seq<Record>)
    requires rs != [] && forall i :: 0 <= i < |rs| ==> rs[i] != []
    ensures var text := PrintRecords(rs); |text| >= 2 && text[0] == '"' && text[|text| - 1] == '"'
    decreases |rs|
  {
    PrintedRecordIsQuoted(rs[0]);
    if |rs| > 1 {
      PrintedTextIsTrimmed(rs[1..]);
    }
  }

  lemma {:induction false} PrintedRecordIsQuoted(r: Record)
    requires r != []
    ensures var text := PrintRecord(r); |text| >= 2 && text[0] == '"' && text[|text| - 1] == '"'
    decreases |r|
  {
    if |r| > 1 {
      PrintedRecordIsQuoted(r[1..]);
    }
  }

  /** A table that is printed with every cell quoted and pasted as batch input comes back as its rows, each
      cell under its own column and missing cells empty. */
  lemma TableReadsBack(parse: string -> Option<Json>, headers: Record, rows: seq<Record>)
    requires Table(headers, rows)
    ensures var text := PrintRecords([headers] + rows); var read := ParseBatch(parse, text);
      && read.Success? && |read.value| == |rows|
      && forall i :: 0 <= i < |rows| ==> RowHolds(read.value[i], headers, rows[i])
  {
    hide PrintRecords, Records, Printable, Kept, Trim;
    var all := [headers] + rows;
    assert forall i :: 0 <= i < |all| ==> Printable(all[i]) && all[i] != [] by {
      forall i | 0 <= i < |all| ensures Printable(all[i]) && all[i] != [] {
        PrintableHasACell(all[i]);
      }
    }
    PrintedTextIsTrimmed(all);
    QuotedIsTrimmed(PrintRecords(all));
    PrintingReadsBack(all);
    HeaderIsFilled(headers);
    AllKept(all);
    assert all[1..] == rows;
    forall i | 0 <= i < |rows| ensures RowHolds(RowOf(headers, rows[i], |headers|), headers, rows[i]) {
      RowOfTable(headers, rows[i]);
    }
  }

  /** The row object of a record: one entry per column, holding the cell of that column. */
  predicate RowHolds(row: Row, headers: Record, cells: Record) {
    && row.Keys == (set i | 0 <= i < |headers| :: headers[i])
    && forall j :: 0 <= j < |headers| ==>
         headers[j] in row && row[headers[j]] == Str(if j < |cells| then cells[j] else "")
  }

  lemma PrintableHasACell(r: Record)
    requires Printable(r)
    ensures r != []
  {
  }

  lemma HeaderIsFilled(headers: Record)
    requires Printable(headers) && "" !in headers
    ensures Filled(headers)
  {
    assert headers[0] in headers;
  }

  lemma QuotedIsTrimmed(text: string)
    requires |text| >= 2 && text[0] == '"' && text[|text| - 1] == '"'
    ensures Trim(text) == text
  {
  }

  lemma RowOfTable(headers: Record, cells: Record)
    requires Unrepeated(headers)
    ensures RowHolds(RowOf(headers, cells, |headers|), headers, cells)
  {
    hide RowOf;
    ColumnsOfRow(headers, cells, |headers|);
    assert headers[..|headers|] == headers;
    forall j | 0 <= j < |headers|
      ensures headers[j] in RowOf(headers, cells, |headers|)
      ensures RowOf(headers, cells, |headers|)[headers[j]] == Str(if j < |cells| then cells[j] else "")
    {
      RowReads(headers, cells, |headers|, j);
    }
  }

  /** The records that stay are those with a cell that is not empty, each in its place. */
  lemma {:induction false} KeptAreTheFilled(a: seq<Record>, b: seq<Record>)
    ensures Kept(a + b) == Kept(a) + Kept(b)
    ensures |a| == 1 ==> Kept(a) == if exists c :: c in a[0] && c != "" then a else []
  {
    if a == [] {
      assert a + b == b;
    } else {
      assert (a + b)[1..] == a[1..] + b;
      KeptAreTheFilled(a[1..], b);
      FilledHasACell(a[0]);
    }
  }

  lemma FilledHasACell(cells: Record)
    ensures Filled(cells) <==> exists c :: c in cells && c != ""
  {
    if Filled(cells) {
      var i :| 0 <= i < |cells| && cells[i] != "";
      assert cells[i] in cells;
    }
  }

  /** Text that starts like JSON is read as JSON: it is accepted exactly when it parses to a non-empty array of
      objects, which then are the rows, in order; and each refusal has its own reason. */
  lemma JsonInputReads(parse: string -> Option<Json>, text: string)
    requires Trim(text) != "" && Trim(text)[0] in {'[', '{'}
    ensures var read := ParseBatch(parse, text); var parsed := parse(Trim(text));
      && (parsed.None? <==> read == Failure(InvalidJson))
      && (parsed.Some? && !parsed.value.Arr? <==> read == Failure(NotAnArray))
      && (parsed == Some(Arr([])) <==> read == Failure(EmptyArray))
      && (read.Success? ==>
            && parsed.Some? && parsed.value.Arr? && |read.value| == |parsed.value.items| > 0
            && forall i :: 0 <= i < |read.value| ==> parsed.value.items[i] == Obj(read.value[i]))
      && (read == Failure(ItemNotAnObject) <==>
            parsed.Some? && parsed.value.Arr? && exists v :: v in parsed.value.items && !v.Obj?)
  {
    var parsed := parse(Trim(text));
    if parsed.Some? && parsed.value.Arr? {
      assert forall i :: 0 <= i < |parsed.value.items| ==> parsed.value.items[i] in parsed.value.items;
    }
  }

  /** Any other text is read as CSV: it is refused for an odd number of quotes, for fewer than two records with
      something in them, or for an empty column name, and for nothing else; and no text at all is no data. */
  lemma CsvInputIsRefusedIff(parse: string -> Option<Json>, text: string)
    requires Trim(text) == "" || Trim(text)[0] !in {'[', '{'}
    ensures var read := ParseBatch(parse, text); var body := Trim(text);
      && (read == Failure(NoData) <==> body == "")
      && (body != "" ==>
            && (read == Failure(UnterminatedField) <==> Quotes(body) % 2 == 1)
            && (read == Failure(TooFewRecords) <==> Quotes(body) % 2 == 0 && |Kept(Records(body).value)| < 2)
            && (read == Failure(EmptyColumnName) <==>
                  && Quotes(body) % 2 == 0 && |Kept(Records(body).value)| >= 2
                  && "" in Kept(Records(body).value)[0])
            && (read.Success? ==>
                  Quotes(body) % 2 == 0 && |read.value| + 1 == |Kept(Records(body).value)|))
  {
    hide Kept;
    FailsIffOddQuotes(Trim(text));
  }
}

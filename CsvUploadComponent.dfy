/** The CSV reader of the upload component (`src/components/CsvUpload.tsx`): the file text is cut
    into non-blank lines, the first line gives the headers, and each later line with exactly as
    many fields becomes one row object, numeric-looking cells as numbers. The rows are handed to
    the upload mutation. Splitting is on every `,` and `"` is deleted everywhere: quoted fields
    with commas are not honoured. */
module CsvUploadComponent {
  import opened Wrappers
  import opened Seqs
  import opened JsValues
  import opened Schema
  import CsvUpload

  // ---------------------------------------------------------------- lines and fields

  predicate NonBlank(line: string)
  {
    Trim(line) != ""
  }

  /** `text.split('\n').filter(line => line.trim())`. */
  function NonBlankLines(text: string): seq<string>
  {
    Filter(Split(text, '\n'), NonBlank)
  }

  predicate NotQuote(c: char)
  {
    c != '"'
  }

  /** `f.trim().replace(/"/g, '')`: trimmed first, then every double quote deleted. */
  function CleanField(f: string): string
  {
    Filter(Trim(f), NotQuote)
  }

  /** `line.split(',').map(…)`. */
  function Fields(line: string): seq<string>
  {
    var parts := Split(line, ',');
    seq(|parts|, i requires 0 <= i < |parts| => CleanField(parts[i]))
  }

  /** The kept lines are exactly the non-blank pieces of the text, in order and as many as there are
      (a repeated line is kept each time); none holds a line break. */
  lemma NonBlankLinesProperties(text: string)
    ensures forall line :: line in NonBlankLines(text) <==> line in Split(text, '\n') && Trim(line) != ""
    ensures forall line :: line in NonBlankLines(text) ==> '\n' !in line
    ensures IsSubsequence(NonBlankLines(text), Split(text, '\n'))
    ensures |NonBlankLines(text)| == Count(Split(text, '\n'), NonBlank)
  {
    FilterLength(Split(text, '\n'), NonBlank);
    FilterMembers(Split(text, '\n'), NonBlank);
    FilterIsSubsequence(Split(text, '\n'), NonBlank);
  }

  /** A cleaned field holds no double quote and no comma; it is a subsequence of the trimmed field
      as long as the trimmed field's non-quote characters, so it keeps every one of them in order. */
  lemma CleanFieldProperties(line: string)
    ensures forall f :: f in Fields(line) ==> '"' !in f && ',' !in f
    ensures forall i :: 0 <= i < |Fields(line)| ==>
      IsSubsequence(Fields(line)[i], Trim(Split(line, ',')[i]))
    ensures forall i :: 0 <= i < |Fields(line)| ==>
      |Fields(line)[i]| == Count(Trim(Split(line, ',')[i]), NotQuote)
  {
    var parts := Split(line, ',');
    forall f | f in Fields(line) ensures '"' !in f && ',' !in f {
      var i :| 0 <= i < |Fields(line)| && Fields(line)[i] == f;
      FilterMembers(Trim(parts[i]), NotQuote);
      TrimIsInfix(parts[i]);
    }
    forall i | 0 <= i < |Fields(line)| ensures IsSubsequence(Fields(line)[i], Trim(parts[i])) {
      FilterIsSubsequence(Trim(parts[i]), NotQuote);
    }
    forall i | 0 <= i < |Fields(line)| ensures |Fields(line)[i]| == Count(Trim(parts[i]), NotQuote) {
      FilterLength(Trim(parts[i]), NotQuote);
    }
  }

  /** Trimming only removes characters: what is left occurs in the string. */
  lemma TrimIsInfix(s: string)
    ensures forall c :: c in Trim(s) ==> c in s
  {
    var t := TrimStart(s);
    assert forall c :: c in t ==> c in s;
    assert forall c :: c in TrimEnd(t) ==> c in t;
  }

  // ---------------------------------------------------------------- cells and rows

  /** A cell becomes a number when it is not empty and `Number(value)` is not `NaN`; otherwise it
      stays a string. */
  function Cell(value: string): JsValue
  {
    if value != "" && StringToNumber(value).Some? then Num(StringToNumber(value).value) else Str(value)
  }

  /** A numeral cell is read as its number. */
  lemma CellOfNumeral(k: nat)
    ensures Cell(NatToString(k)) == Num(k as real)
  {
    StringToNumberOfNatToString(k);
  }

  /** A non-empty cell of white space only, as a quoted blank field leaves after cleaning, is the
      number 0, since `Number` reads a blank string as 0. */
  lemma CellOfBlank(value: string)
    requires value != "" && Trim(value) == ""
    ensures Cell(value) == Num(0.0)
  {
  }

  /** A cell that starts with a letter stays a string. */
  lemma CellOfWord(value: string)
    requires |value| > 0 && ('a' <= value[0] <= 'z' || 'A' <= value[0] <= 'Z')
    ensures Cell(value) == Str(value)
  {
    assert !IsWhitespace(value[0]) && !IsDigit(value[0]) && value[0] != '+' && value[0] != '-' && value[0] != '.';
    assert TrimStart(value) == value;
    TrimEndKeepsFirst(value);
    var t := Trim(value);
    assert DigitRun(t) == 0;
  }

  /** Trimming the end of a string that starts with a visible character leaves that character. */
  lemma {:induction false} TrimEndKeepsFirst(s: string)
    requires |s| > 0 && !IsWhitespace(s[0])
    ensures |TrimEnd(s)| > 0 && TrimEnd(s)[0] == s[0]
    decreases |s|
  {
    if |s| > 1 && IsWhitespace(s[|s| - 1]) {
      TrimEndKeepsFirst(s[..|s| - 1]);
    }
  }

  /** The row object the `forEach` builds: `customer[headers[j]] = cell(values[j])` for each
      column in order, so a later column overwrites an earlier one with the same header. */
  function RowOf(headers: seq<string>, values: seq<string>): Row
    requires |headers| == |values|
  {
    if headers == [] then map[]
    else
      var n := |headers| - 1;
      RowOf(headers[..n], values[..n])[headers[n] := Cell(values[n])]
  }

  /** The row's keys are exactly the headers. */
  lemma {:induction false} RowOfKeys(headers: seq<string>, values: seq<string>)
    requires |headers| == |values|
    ensures RowOf(headers, values).Keys == set h | h in headers
  {
    if headers != [] {
      var n := |headers| - 1;
      RowOfKeys(headers[..n], values[..n]);
      assert headers == headers[..n] + [headers[n]];
    }
  }

  /** Under a header sits the cell of the last column with that header. */
  lemma {:induction false} RowOfLastColumn(headers: seq<string>, values: seq<string>, j: nat)
    requires |headers| == |values|
    requires j < |headers| && headers[j] !in headers[j + 1..]
    ensures headers[j] in RowOf(headers, values) && RowOf(headers, values)[headers[j]] == Cell(values[j])
  {
    var n := |headers| - 1;
    if j < n {
      assert headers[n] in headers[j + 1..];
      assert headers[..n][j + 1..] == headers[j + 1..n];
      RowOfLastColumn(headers[..n], values[..n], j);
    }
  }

  // ---------------------------------------------------------------- the parse

  /** A data line is kept when it has as many fields as the header line. */
  predicate FitsHeader(headers: seq<string>, line: string)
  {
    |Fields(line)| == |headers|
  }

  function FitsHeaderOf(headers: seq<string>): string -> bool
  {
    line => FitsHeader(headers, line)
  }

  function DataLines(headers: seq<string>, lines: seq<string>): seq<string>
  {
    Filter(lines, FitsHeaderOf(headers))
  }

  /** The rows of the kept data lines, in their order. */
  function AcceptedRows(headers: seq<string>, lines: seq<string>): seq<Row>
  {
    var kept := DataLines(headers, lines);
    FilterSatisfies(lines, FitsHeaderOf(headers));
    seq(|kept|, i requires 0 <= i < |kept| => RowOf(headers, Fields(kept[i])))
  }

  /** Why a parse ends without calling the upload. */
  datatype ParseError = TooFewLines | NoValidRows

  /** The outcome of reading a file's text: the rows to upload, or the error that stops it. */
  function Parse(text: string): Result<seq<Row>, ParseError>
  {
    var lines := NonBlankLines(text);
    if |lines| < 2 then Err(TooFewLines)
    else
      var rows := AcceptedRows(Fields(lines[0]), lines[1..]);
      if rows == [] then Err(NoValidRows) else Ok(rows)
  }

  /** No row is accepted exactly when no line fits the header. */
  lemma DataLinesEmpty(headers: seq<string>, lines: seq<string>)
    ensures DataLines(headers, lines) == [] <==> forall l :: l in lines ==> !FitsHeader(headers, l)
  {
    FilterMembers(lines, FitsHeaderOf(headers));
    if DataLines(headers, lines) != [] {
      assert DataLines(headers, lines)[0] in DataLines(headers, lines);
    }
  }

  /** Fewer than two non-blank lines is `TooFewLines`; otherwise no data line with as many fields
      as the header line is `NoValidRows`; anything else parses. */
  lemma ParseErrors(text: string)
    ensures Parse(text) == Err(TooFewLines) <==> |NonBlankLines(text)| < 2
    ensures Parse(text) == Err(NoValidRows) <==>
      var lines := NonBlankLines(text);
      |lines| >= 2 && forall l :: l in lines[1..] ==> !FitsHeader(Fields(lines[0]), l)
  {
    var lines := NonBlankLines(text);
    if |lines| >= 2 {
      DataLinesEmpty(Fields(lines[0]), lines[1..]);
    }
  }

  /** The accepted rows are one per kept line, at most one per line; the kept lines are the lines
      that fit the header, in their original order. */
  lemma AcceptedRowsProperties(headers: seq<string>, lines: seq<string>)
    ensures var kept := DataLines(headers, lines);
      && |AcceptedRows(headers, lines)| == |kept| <= |lines|
      && IsSubsequence(kept, lines)
      && (forall l :: l in kept <==> l in lines && FitsHeader(headers, l))
      && (forall i :: 0 <= i < |kept| ==>
            FitsHeader(headers, kept[i]) && AcceptedRows(headers, lines)[i] == RowOf(headers, Fields(kept[i])))
  {
    FilterLength(lines, FitsHeaderOf(headers));
    FilterIsSubsequence(lines, FitsHeaderOf(headers));
    FilterMembers(lines, FitsHeaderOf(headers));
    FilterSatisfies(lines, FitsHeaderOf(headers));
  }

  /** A successful parse holds at least one row and at most one per data line, and its rows are
      the accepted rows of the data lines under the header line. */
  lemma ParseRows(text: string)
    requires Parse(text).Ok?
    ensures var lines := NonBlankLines(text);
      && |lines| >= 2
      && Parse(text).value == AcceptedRows(Fields(lines[0]), lines[1..])
      && 0 < |Parse(text).value| <= |lines| - 1
  {
    var lines := NonBlankLines(text);
    AcceptedRowsProperties(Fields(lines[0]), lines[1..]);
  }

  /** The parse one more data line extends. */
  lemma AcceptedRowsSnoc(headers: seq<string>, lines: seq<string>, line: string)
    ensures AcceptedRows(headers, lines + [line]) ==
      AcceptedRows(headers, lines) + (if FitsHeader(headers, line) then [RowOf(headers, Fields(line))] else [])
  {
    FilterSnoc(lines, line, FitsHeaderOf(headers));
  }

  /** The `forEach` that fills one row object. */
  method BuildRow(headers: seq<string>, values: seq<string>) returns (customer: Row)
    requires |headers| == |values|
    ensures customer == RowOf(headers, values)
  {
    customer := map[];
    for j := 0 to |headers|
      invariant customer == RowOf(headers[..j], values[..j])
    {
      assert headers[..j + 1][..j] == headers[..j] && values[..j + 1][..j] == values[..j];
      customer := customer[headers[j] := Cell(values[j])];
    }
    assert headers[..|headers|] == headers && values[..|values|] == values;
  }

  /** The loop over the data lines: one row pushed per line that fits the header. */
  method AcceptRows(headers: seq<string>, data: seq<string>) returns (customers: seq<Row>)
    ensures customers == AcceptedRows(headers, data)
  {
    customers := [];
    for i := 0 to |data|
      invariant customers == AcceptedRows(headers, data[..i])
    {
      assert data[..i + 1] == data[..i] + [data[i]];
      AcceptedRowsSnoc(headers, data[..i], data[i]);
      var values := Fields(data[i]);
      if |values| == |headers| {
        var customer := BuildRow(headers, values);
        customers := customers + [customer];
      }
    }
    assert data[..|data|] == data;
  }

  /** The parsing part of `handleFiles` (and of `handleLoadTrainingData`, which repeats it): the
      non-blank lines, the header line, then the rows of the data lines. */
  method ParseCustomers(text: string) returns (r: Result<seq<Row>, ParseError>)
    ensures r == Parse(text)
  {
    var lines := NonBlankLines(text);
    if |lines| < 2 {
      return Err(TooFewLines);
    }
    var customers := AcceptRows(Fields(lines[0]), lines[1..]);
    if |customers| == 0 {
      return Err(NoValidRows);
    }
    return Ok(customers);
  }

  // ---------------------------------------------------------------- the two handlers

  /** `file.name.toLowerCase().endsWith('.csv')`. */
  predicate IsCsvFileName(name: string)
  {
    EndsWith(LowerCase(name), ".csv")
  }

  /** The test ignores case: a name is accepted exactly when its lower-cased form is. */
  lemma IsCsvFileNameIgnoresCase(name: string)
    ensures IsCsvFileName(name) == IsCsvFileName(LowerCase(name))
  {
    LowerCaseIdempotent(name);
  }

  /** The file the picker or the drop delivered: its name and its text, `None` when reading it
      (`file.text()`) failed. */
  datatype CsvFile = CsvFile(name: string, text: Option<string>)

  /** How a handler ends: nothing to do, a rejected file name, a parse error, the error toast of
      the `catch` arm (a failed read or fetch, or an upload call that threw), or the upload's
      counts. */
  datatype Outcome = NoFile | NotCsv | Rejected(error: ParseError) | Failed
                   | Uploaded(successCount: nat, errorCount: nat)

  /** `handleFiles`: only a file whose name ends in `.csv` is read; a read that fails, a text that
      does not parse, and an upload call that throws (`uploadFails`, after which the mutation is
      rolled back) all leave the customers as they were; otherwise the rows are uploaded. */
  method HandleFiles(db: Database, file: Option<CsvFile>, uploadFails: bool, now: nat) returns (o: Outcome)
    modifies db`customers
    ensures file.None? ==> o == NoFile && db.customers == old(db.customers)
    ensures file.Some? && !IsCsvFileName(file.value.name) ==> o == NotCsv && db.customers == old(db.customers)
    ensures file.Some? && IsCsvFileName(file.value.name) && file.value.text.None? ==>
      o == Failed && db.customers == old(db.customers)
    ensures file.Some? && IsCsvFileName(file.value.name) && file.value.text.Some? ==>
      var text := file.value.text.value;
      && (Parse(text).Err? ==> o == Rejected(Parse(text).error) && db.customers == old(db.customers))
      && (Parse(text).Ok? && uploadFails ==> o == Failed && db.customers == old(db.customers))
      && (Parse(text).Ok? && !uploadFails ==>
            var st := CsvUpload.Load(Parse(text).value, now);
            o == Uploaded(st.successCount, st.errorCount) && db.customers == st.inserted)
  {
    if file.None? {
      return NoFile;
    }
    if !IsCsvFileName(file.value.name) {
      return NotCsv;
    }
    if file.value.text.None? {
      return Failed;
    }
    o := ParseAndUpload(db, file.value.text.value, uploadFails, now);
  }

  /** `handleLoadTrainingData`: the bundled training file is fetched (`None` when the request
      failed or the response was not ok, which throws into the `catch` arm) and then read and
      uploaded as a picked file is. */
  method HandleLoadTrainingData(db: Database, fetched: Option<string>, uploadFails: bool, now: nat)
    returns (o: Outcome)
    modifies db`customers
    ensures fetched.None? ==> o == Failed && db.customers == old(db.customers)
    ensures fetched.Some? ==>
      var text := fetched.value;
      && (Parse(text).Err? ==> o == Rejected(Parse(text).error) && db.customers == old(db.customers))
      && (Parse(text).Ok? && uploadFails ==> o == Failed && db.customers == old(db.customers))
      && (Parse(text).Ok? && !uploadFails ==>
            var st := CsvUpload.Load(Parse(text).value, now);
            o == Uploaded(st.successCount, st.errorCount) && db.customers == st.inserted)
  {
    if fetched.None? {
      return Failed;
    }
    o := ParseAndUpload(db, fetched.value, uploadFails, now);
  }

  /** The part both handlers share: parse, and upload only what parsed. An upload call that
      throws is a mutation that did not commit: the customers stay as they were. */
  method ParseAndUpload(db: Database, text: string, uploadFails: bool, now: nat) returns (o: Outcome)
    modifies db`customers
    ensures Parse(text).Err? ==> o == Rejected(Parse(text).error) && db.customers == old(db.customers)
    ensures Parse(text).Ok? && uploadFails ==> o == Failed && db.customers == old(db.customers)
    ensures Parse(text).Ok? && !uploadFails ==>
      var st := CsvUpload.Load(Parse(text).value, now);
      o == Uploaded(st.successCount, st.errorCount) && db.customers == st.inserted
  {
    var parsed := ParseCustomers(text);
    match parsed
    case Err(e) =>
      o := Rejected(e);
    case Ok(customers) =>
      if uploadFails {
        return Failed;
      }
      var successCount, errorCount, _ := CsvUpload.UploadCsvData(db, customers, now);
      o := Uploaded(successCount, errorCount);
  }
}

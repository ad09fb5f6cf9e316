/** The dialer service's own CSV parser. */
module GoCsvParser {
  import opened Wrappers
  import opened CampaignDomain
  import opened PhoneText
  import opened RowNumbers

  /** What encoding/csv's Read returned: a record, or an error other than the end of the file. */
  datatype Line = Fields(fields: seq<string>) | Broken

  datatype CsvRow = CsvRow(phone: string, name: string, notes: string)

  datatype Reason = MissingColumn | BadFormat

  datatype InvalidRow = InvalidRow(row: nat, phone: string, reason: Reason)

  datatype Report = Report(total: nat, valid: nat, invalid: nat, invalidRows: seq<InvalidRow>)

  datatype ParseError = NoHeader | NoPhoneColumn | BrokenRow | TooManyRows | NoValidPhones

  const MAX_ROWS := 100_000

  /** Column positions; -1 when absent. */
  datatype Columns = Columns(phone: int, name: int, notes: int)

  predicate NamesPhone(h: string) { Lower(GoTrim(h)) in ["phone", "phonenumber", "number", "mobile", "tel"] }
  predicate NamesName(h: string) { Lower(GoTrim(h)) in ["name", "fullname", "contact_name"] }
  predicate NamesNotes(h: string) { Lower(GoTrim(h)) in ["notes", "note", "comment"] }

  /** What the header at position n adds to what is known. */
  function Recognise(before: Columns, h: string, n: nat): (c: Columns)
    ensures c.phone == if NamesPhone(h) then n else before.phone
  {
    if NamesPhone(h) then before.(phone := n)
    else if NamesName(h) then before.(name := n)
    else if NamesNotes(h) then before.(notes := n)
    else before
  }

  /** The last header of each kind wins. */
  function FindColumns(headers: seq<string>): (c: Columns)
    ensures -1 <= c.phone < |headers|
  {
    if headers == [] then Columns(-1, -1, -1)
    else Recognise(FindColumns(headers[..|headers| - 1]), headers[|headers| - 1], |headers| - 1)
  }

  /** `c` is the last column whose header, trimmed and in lower case, is one of the names; -1 when there is none. */
  predicate IsLastOf(headers: seq<string>, names: seq<string>, c: int) {
    && -1 <= c < |headers| && (c >= 0 ==> Lower(GoTrim(headers[c])) in names)
    && (forall i :: c < i < |headers| ==> Lower(GoTrim(headers[i])) !in names)
  }

  /** Each column found is the last one with a name of its kind. */
  lemma {:induction false} ColumnsAreLast(headers: seq<string>)
    ensures IsLastOf(headers, ["phone", "phonenumber", "number", "mobile", "tel"], FindColumns(headers).phone)
    ensures IsLastOf(headers, ["name", "fullname", "contact_name"], FindColumns(headers).name)
    ensures IsLastOf(headers, ["notes", "note", "comment"], FindColumns(headers).notes)
  {
    if headers != [] {
      var front, h := headers[..|headers| - 1], headers[|headers| - 1];
      ColumnsAreLast(front);
      assert headers == front + [h];
    }
  }

  /** Trimmed, and given the missing plus when it is long enough. */
  function Normalised(cell: string): string {
    var raw := GoTrim(cell);
    if !("+" <= raw) && ByteLength(raw) >= 10 then "+" + raw else raw
  }

  function Optional(record: seq<string>, column: int): string {
    if 0 <= column < |record| then GoTrim(record[column]) else ""
  }

  datatype Scanned = Scanned(rows: seq<CsvRow>, report: Report)

  predicate Accepted(record: seq<string>, c: Columns) {
    0 <= c.phone < |record| && IsE164(Normalised(record[c.phone]))
  }

  function ToRow(record: seq<string>, c: Columns): (row: CsvRow)
    requires Accepted(record, c)
    ensures IsE164(row.phone)
  {
    CsvRow(Normalised(record[c.phone]), Optional(record, c.name), Optional(record, c.notes))
  }

  function Rejection(record: seq<string>, c: Columns, row: nat): InvalidRow
    requires 0 <= c.phone
  {
    if |record| <= c.phone then InvalidRow(row, "", MissingColumn)
    else InvalidRow(row, Normalised(record[c.phone]), BadFormat)
  }

  /** What one more record, the file's line `row`, adds to rows and report; `total` has counted it already. */
  function Examined(before: Scanned, record: seq<string>, c: Columns, row: nat): Scanned
    requires 0 <= c.phone
  {
    var r := before.report;
    if Accepted(record, c) then Scanned(before.rows + [ToRow(record, c)], r.(valid := r.valid + 1))
    else Scanned(before.rows, r.(invalid := r.invalid + 1, invalidRows := r.invalidRows + [Rejection(record, c, row)]))
  }

  function Counted(before: Scanned): Scanned {
    before.(report := before.report.(total := before.report.total + 1))
  }

  function Scan(records: seq<seq<string>>, c: Columns): Scanned
    requires 0 <= c.phone
  {
    if records == [] then Scanned([], Report(0, 0, 0, []))
    else
      var n := |records| - 1;
      Examined(Counted(Scan(records[..n], c)), records[n], c, n + 2)
  }

  function Records(lines: seq<Line>): seq<seq<string>>
    requires forall i :: 0 <= i < |lines| ==> lines[i].Fields?
  {
    seq(|lines|, i requires 0 <= i < |lines| => lines[i].fields)
  }

  predicate Intact(lines: seq<Line>) {
    forall i :: 0 <= i < |lines| ==> lines[i].Fields?
  }

  method LocateColumns(headers: seq<string>) returns (c: Columns)
    ensures c == FindColumns(headers)
  {
    var phoneCol, nameCol, notesCol := -1, -1, -1;
    var i := 0;
    while i < |headers|
      invariant 0 <= i <= |headers|
      invariant Columns(phoneCol, nameCol, notesCol) == FindColumns(headers[..i])
    {
      assert FindColumns(headers[..i + 1]) == Recognise(FindColumns(headers[..i]), headers[i], i) by {
        assert headers[..i + 1][..i] == headers[..i];
      }
      var clean := Lower(GoTrim(headers[i]));
      if clean in ["phone", "phonenumber", "number", "mobile", "tel"] { phoneCol := i; }
      else if clean in ["name", "fullname", "contact_name"] { nameCol := i; }
      else if clean in ["notes", "note", "comment"] { notesCol := i; }
      i := i + 1;
    }
    assert headers[..|headers|] == headers;
    c := Columns(phoneCol, nameCol, notesCol);
  }

  /** One data line: a row for the caller, or an entry among the invalid ones. */
  method ExamineRecord(record: seq<string>, c: Columns, rowIndex: nat, valid: seq<CsvRow>, report: Report)
    returns (rows: seq<CsvRow>, r: Report)
    requires 0 <= c.phone
    ensures Scanned(rows, r) == Examined(Scanned(valid, report), record, c, rowIndex) && r.total == report.total
  {
    rows, r := valid, report;
    if |record| <= c.phone {
      r := r.(invalid := r.invalid + 1, invalidRows := r.invalidRows + [InvalidRow(rowIndex, "", MissingColumn)]);
      return;
    }
    var rawPhone := GoTrim(record[c.phone]);
    if !("+" <= rawPhone) && ByteLength(rawPhone) >= 10 { rawPhone := "+" + rawPhone; }
    if !IsE164(rawPhone) {
      r := r.(invalid := r.invalid + 1, invalidRows := r.invalidRows + [InvalidRow(rowIndex, rawPhone, BadFormat)]);
      return;
    }
    rows := rows + [CsvRow(rawPhone, Optional(record, c.name), Optional(record, c.notes))];
    r := r.(valid := r.valid + 1);
  }

  /** An unreadable line stands before the reader has counted one line too many. */
  predicate BreaksInTime(lines: seq<Line>) {
    exists k :: 0 <= k < |lines| && k <= MAX_ROWS && lines[k].Broken?
  }

  /** What stops the scan, if anything does: the first obstacle decides. */
  function Obstacle(lines: seq<Line>): Option<ParseError> {
    if BreaksInTime(lines) then Some(BrokenRow) else if |lines| > MAX_ROWS then Some(TooManyRows) else None
  }

  predicate ReadSoFar(lines: seq<Line>, records: seq<seq<string>>) {
    |records| <= |lines| && forall i :: 0 <= i < |records| ==> lines[i] == Fields(records[i])
  }

  /** Where the scan stops decides how it ends. */
  lemma StopsAt(lines: seq<Line>, records: seq<seq<string>>)
    requires ReadSoFar(lines, records) && |records| <= MAX_ROWS
    ensures |records| == |lines| ==> Obstacle(lines).None? && Intact(lines) && records == Records(lines)
    ensures |records| < |lines| && lines[|records|].Broken? ==> Obstacle(lines) == Some(BrokenRow)
    ensures |records| == MAX_ROWS < |lines| && lines[|records|].Fields? ==> Obstacle(lines) == Some(TooManyRows)
  {
  }

  /** The data lines, until the end of the file, an unreadable line, or one line too many. */
  method ScanLines(lines: seq<Line>, c: Columns) returns (rows: seq<CsvRow>, r: Report, error: Option<ParseError>)
    requires 0 <= c.phone
    ensures error == Obstacle(lines)
    ensures error.None? ==> Intact(lines) && Scanned(rows, r) == Scan(Records(lines), c)
  {
    rows, r, error := [], Report(0, 0, 0, []), None;
    var rowIndex := 1;
    ghost var records: seq<seq<string>> := [];
    var k := 0;
    while k < |lines|
      invariant 0 <= k == |records| <= |lines| && k <= MAX_ROWS && rowIndex == k + 1 && r.total == k
      invariant ReadSoFar(lines, records)
      invariant Scanned(rows, r) == Scan(records, c)
    {
      StopsAt(lines, records);
      if lines[k].Broken? {
        error := Some(BrokenRow);
        return;
      }
      var record := lines[k].fields;
      rowIndex := rowIndex + 1;
      r := r.(total := r.total + 1);
      if r.total > MAX_ROWS { error := Some(TooManyRows); return; }
      rows, r := ExamineRecord(record, c, rowIndex, rows, r);
      assert Scanned(rows, r) == Scan(records + [record], c);
      records := records + [record];
      k := k + 1;
    }
    StopsAt(lines, records);
  }

  /** The error of the whole file, if it has one, in the order in which the parser looks. */
  function FileError(header: Line, lines: seq<Line>): (e: Option<ParseError>)
    ensures e.None? ==> header.Fields? && FindColumns(header.fields).phone >= 0 && Intact(lines)
  {
    if header.Broken? then Some(NoHeader)
    else
      var c := FindColumns(header.fields);
      if c.phone < 0 then Some(NoPhoneColumn)
      else if Obstacle(lines).Some? then Obstacle(lines)
      else
        assert Intact(lines);
        if Scan(Records(lines), c).report.valid == 0 then Some(NoValidPhones) else None
  }

  /** ParseCSV over what the reader returns: the header line, then the data lines. */
  method ParseCsv(header: Line, lines: seq<Line>)
    returns (rows: seq<CsvRow>, report: Option<Report>, error: Option<ParseError>)
    ensures error == FileError(header, lines)
    ensures error.None? ==>
      && report.Some? && report.value.valid > 0
      && Scanned(rows, report.value) == Scan(Records(lines), FindColumns(header.fields))
    ensures error.Some? ==> rows == [] && (report.Some? <==> error.value.NoValidPhones?)
  {
    rows, report := [], None;
    if header.Broken? { error := Some(NoHeader); return; }
    var c := LocateColumns(header.fields);
    if c.phone == -1 { error := Some(NoPhoneColumn); return; }
    var valid, r, failure := ScanLines(lines, c);
    if failure.Some? { error := failure; return; }
    if r.valid == 0 { report, error := Some(r), Some(NoValidPhones); return; }
    rows, report, error := valid, Some(r), None;
  }

  /** The positions of the accepted records. */
  function Passing(records: seq<seq<string>>, c: Columns): (r: seq<nat>)
    ensures forall k :: 0 <= k < |r| ==> r[k] < |records| && Accepted(records[r[k]], c)
    ensures forall j, k :: 0 <= j < k < |r| ==> r[j] < r[k]
  {
    if records == [] then []
    else
      var n := |records| - 1;
      Passing(records[..n], c) + (if Accepted(records[n], c) then [n] else [])
  }

  lemma {:induction false} ScanCounts(records: seq<seq<string>>, c: Columns)
    requires 0 <= c.phone
    ensures var s := Scan(records, c);
      && s.report.total == |records| == s.report.valid + s.report.invalid
      && |s.rows| == s.report.valid == |Passing(records, c)|
      && |s.report.invalidRows| == s.report.invalid
  {
    if records != [] { ScanCounts(records[..|records| - 1], c); }
  }

  /** The rows built from the records at the given positions; their phones are E.164. */
  function RowsAt(records: seq<seq<string>>, ps: seq<nat>, c: Columns): (r: seq<CsvRow>)
    requires forall k :: 0 <= k < |ps| ==> ps[k] < |records| && Accepted(records[ps[k]], c)
    ensures |r| == |ps| && forall k :: 0 <= k < |r| ==> IsE164(r[k].phone)
  {
    seq(|ps|, k requires 0 <= k < |ps| => assert Accepted(records[ps[k]], c); ToRow(records[ps[k]], c))
  }

  lemma {:induction false} ScanRows(records: seq<seq<string>>, c: Columns)
    requires 0 <= c.phone
    ensures Scan(records, c).rows == RowsAt(records, Passing(records, c), c)
  {
    if records != [] {
      var front := records[..|records| - 1];
      ScanRows(front, c);
      forall k | 0 <= k < |Passing(front, c)|
        ensures front[Passing(front, c)[k]] == records[Passing(front, c)[k]] {
      }
    }
  }

  /** Rows are numbered from 2, as a spreadsheet with one header line shows them. */
  predicate NumberedUpTo(invalid: seq<InvalidRow>, last: int) {
    && (forall k :: 0 <= k < |invalid| ==> 2 <= invalid[k].row <= last)
    && (forall j, k :: 0 <= j < k < |invalid| ==> invalid[j].row < invalid[k].row)
  }

  lemma {:induction false} ScanNumbers(records: seq<seq<string>>, c: Columns)
    requires 0 <= c.phone
    ensures NumberedUpTo(Scan(records, c).report.invalidRows, |records| + 1)
  {
    if records != [] { ScanNumbers(records[..|records| - 1], c); }
  }

  function RowOf(r: InvalidRow): nat { r.row }

  /** A record is among the accepted positions, or its line among the invalid rows, according to its phone alone. */
  lemma {:induction false} ScanFlags(records: seq<seq<string>>, c: Columns, i: nat)
    requires 0 <= c.phone && i < |records|
    ensures HasRow(Scan(records, c).report.invalidRows, RowOf, i + 2) <==> !Accepted(records[i], c)
    ensures i in Passing(records, c) <==> Accepted(records[i], c)
  {
    var n := |records| - 1;
    var front := records[..n];
    assert records == front + [records[n]];
    if !Accepted(records[n], c) {
      HasRowNext(Scan(front, c).report.invalidRows, Rejection(records[n], c, |front| + 2), RowOf, i + 2);
    }
    if i < n {
      ScanFlags(front, c, i);
      assert front[i] == records[i];
    } else {
      ScanNumbers(front, c);
    }
  }

  /**
    Every record is counted once, valid or invalid; both lists match their counters and keep the order of the file;
    every returned phone is E.164.
   */
  lemma ScanBalances(records: seq<seq<string>>, c: Columns)
    requires 0 <= c.phone
    ensures var s := Scan(records, c);
      && s.report.total == |records| == s.report.valid + s.report.invalid
      && |s.rows| == s.report.valid == |Passing(records, c)|
      && |s.report.invalidRows| == s.report.invalid
      && s.rows == RowsAt(records, Passing(records, c), c)
      && NumberedUpTo(s.report.invalidRows, |records| + 1)
  {
    ScanCounts(records, c);
    ScanRows(records, c);
    ScanNumbers(records, c);
  }

  // ---- what rows, rejections and errors say ----

  /** A returned row carries the three cells of its record, each trimmed and a missing name or note empty. */
  lemma RowsCarryTheirCells(records: seq<seq<string>>, c: Columns, k: nat)
    requires 0 <= c.phone && k < |Scan(records, c).rows|
    ensures k < |Passing(records, c)| &&
      var record, row := records[Passing(records, c)[k]], Scan(records, c).rows[k];
      && c.phone < |record| && row.phone == Normalised(record[c.phone])
      && row.name == (if 0 <= c.name < |record| then GoTrim(record[c.name]) else "")
      && row.notes == (if 0 <= c.notes < |record| then GoTrim(record[c.notes]) else "")
  {
    ScanCounts(records, c);
    ScanRows(records, c);
    assert Accepted(records[Passing(records, c)[k]], c);
  }

  /** An entry names its phone, and whether the record was too short for the column or the phone unacceptable. */
  predicate Explains(e: InvalidRow, record: seq<string>, c: Columns)
    requires 0 <= c.phone
  {
    if |record| <= c.phone then e.phone == "" && e.reason == MissingColumn
    else e.phone == Normalised(record[c.phone]) && e.reason == BadFormat
  }

  /** Every entry among the invalid rows explains the record of its line. */
  lemma {:induction false} RejectionsExplain(records: seq<seq<string>>, c: Columns, k: nat)
    requires 0 <= c.phone && k < |Scan(records, c).report.invalidRows|
    ensures var e := Scan(records, c).report.invalidRows[k];
      2 <= e.row < |records| + 2 && Explains(e, records[e.row - 2], c)
  {
    var n := |records| - 1;
    if k < |Scan(records[..n], c).report.invalidRows| { RejectionsExplain(records[..n], c, k); }
  }

  lemma {:induction false} ValidExactly(records: seq<seq<string>>, c: Columns)
    requires 0 <= c.phone
    ensures Scan(records, c).report.valid == 0 <==> forall i :: 0 <= i < |records| ==> !Accepted(records[i], c)
  {
    if records != [] {
      var n := |records| - 1;
      ValidExactly(records[..n], c);
      assert records == records[..n] + [records[n]];
    }
  }

  predicate HasPhoneHeader(headers: seq<string>) {
    exists i :: 0 <= i < |headers|
      && Lower(GoTrim(headers[i])) in ["phone", "phonenumber", "number", "mobile", "tel"]
  }

  lemma PhoneHeaderFound(headers: seq<string>)
    ensures HasPhoneHeader(headers) <==> FindColumns(headers).phone >= 0
  {
    ColumnsAreLast(headers);
  }

  predicate IsUnreadable(lines: seq<Line>) {
    exists k :: 0 <= k < |lines| && k <= 100_000 && lines[k].Broken?
  }

  predicate NoneAccepted(lines: seq<Line>, c: Columns) {
    forall i :: 0 <= i < |lines| && lines[i].Fields? ==> !Accepted(lines[i].fields, c)
  }

  lemma NothingValid(lines: seq<Line>, c: Columns)
    requires 0 <= c.phone && Intact(lines)
    ensures Scan(Records(lines), c).report.valid == 0 <==> NoneAccepted(lines, c)
  {
    ValidExactly(Records(lines), c);
    assert forall i :: 0 <= i < |lines| ==> Records(lines)[i] == lines[i].fields;
  }

  /** Which error when: each of the five exactly when those before it do not apply. */
  lemma ErrorsMeant(header: Line, lines: seq<Line>)
    ensures var e := FileError(header, lines); var known := header.Fields? && HasPhoneHeader(header.fields);
      && (e == Some(NoHeader) <==> header.Broken?)
      && (e == Some(NoPhoneColumn) <==> header.Fields? && !known)
      && (e == Some(BrokenRow) <==> known && IsUnreadable(lines))
      && (e == Some(TooManyRows) <==> known && !IsUnreadable(lines) && |lines| > 100_000)
      && (e == Some(NoValidPhones) <==>
          known && !IsUnreadable(lines) && |lines| <= 100_000 && NoneAccepted(lines, FindColumns(header.fields)))
  {
    if header.Fields? {
      PhoneHeaderFound(header.fields);
      var c := FindColumns(header.fields);
      if c.phone >= 0 && Obstacle(lines).None? { NothingValid(lines, c); }
    }
  }

  // ---- agreement with the web backend's pattern ----

  lemma MarkIsKept(cell: string)
    requires '\U{FEFF}' in cell
    ensures '\U{FEFF}' in Normalised(cell) && !IsE164(Normalised(cell))
  {
    TrimLeftKeeps(cell, IsGoSpace, '\U{FEFF}');
    TrimRightKeeps(TrimLeft(cell, IsGoSpace), IsGoSpace, '\U{FEFF}');
  }

  /**
    A cell in which the backend finds a phone gives the same phone here exactly when no byte order mark is anywhere in
    it, and gives no phone at all otherwise: the backend trims the mark, the dialer service does not.
   */
  lemma AcceptsWhatTheBackendAccepts(cell: string)
    requires IsE164(JsTrim(cell))
    ensures Normalised(cell) == JsTrim(cell) <==> '\U{FEFF}' !in cell
    ensures IsE164(Normalised(cell)) <==> '\U{FEFF}' !in cell
  {
    if '\U{FEFF}' in cell {
      MarkIsKept(cell);
    } else {
      TrimsAgree(cell);
      assert "+" <= GoTrim(cell);
    }
  }

  /** Exactly what is accepted: an E.164 number, unchanged, or at least ten digits of one without its plus sign. */
  lemma AcceptedExactly(cell: string)
    ensures Normalised(cell) == GoTrim(cell) <==> "+" <= GoTrim(cell) || ByteLength(GoTrim(cell)) < 10
    ensures Normalised(cell) == GoTrim(cell) || Normalised(cell) == "+" + GoTrim(cell)
    ensures IsE164(cell) ==> Normalised(cell) == cell
    ensures IsE164(Normalised(cell)) <==>
      || IsE164(GoTrim(cell))
      || (|GoTrim(cell)| >= 10 && IsE164("+" + GoTrim(cell)))
  {
    var raw := GoTrim(cell);
    assert IsE164(cell) ==> "+" <= cell;
    if IsE164("+" + raw) {
      assert ("+" + raw)[1..] == raw && AllDigitChars(("+" + raw)[2..]);
      forall i | 0 <= i < |raw| ensures IsDigit(raw[i]) {
        if i > 0 { assert raw[i] == ("+" + raw)[2..][i - 1]; } else { assert raw[0] == ("+" + raw)[1]; }
      }
      DigitsAreBytes(raw);
    }
  }
}

/** The campaign results export, and the reader of section 2 of RFC 4180 (with LF record ends) that undoes it. */
module CsvExport {
  import opened Wrappers
  import opened Decimal
  import opened Texts

  datatype Contact = Contact(
    phone: string, name: Option<string>, notes: Option<string>, status: string,
    attempts: int, callDuration: Option<int>, lastAttemptedAt: Option<string>)

  predicate IsFormulaChar(c: char) {
    c == '=' || c == '+' || c == '-' || c == '@' || c == '\t' || c == '\r'
  }

  /** The text a spreadsheet would take for a formula gets a leading apostrophe. */
  function Guarded(s: string): string {
    if s != [] && IsFormulaChar(s[0]) then "'" + s else s
  }

  /** The text begins with one of the six characters that spreadsheets take for the start of a formula. */
  predicate LeadsFormula(s: string) {
    s != [] && s[0] in ['=', '+', '-', '@', '\t', '\r']
  }

  predicate IsSpecial(c: char) {
    c == ',' || c == '"' || c == '\n' || c == '\r'
  }

  predicate NeedsQuotes(s: string) {
    exists i :: 0 <= i < |s| && IsSpecial(s[i])
  }

  function Doubled(s: string): string {
    if s == [] then [] else (if s[0] == '"' then "\"\"" else [s[0]]) + Doubled(s[1..])
  }

  function Quoted(s: string): string {
    if NeedsQuotes(s) then "\"" + Doubled(s) + "\"" else s
  }

  function Cell(s: string): string {
    Quoted(Guarded(s))
  }

  method SanitizeCell(val: Option<string>) returns (str: string)
    ensures str == Cell(if val.Some? then val.value else "")
    ensures val.None? ==> str == ""
    ensures val.Some? ==>
      var shown := if LeadsFormula(val.value) then "'" + val.value else val.value;
      var plain := forall i :: 0 <= i < |shown| ==> shown[i] !in [',', '"', '\n', '\r'];
      str == if plain then shown else "\"" + Doubled(shown) + "\""
  {
    if val.None? { return ""; }
    str := val.value;
    if |str| > 0 && IsFormulaChar(str[0]) { str := "'" + str; }
    if NeedsQuotes(str) { str := "\"" + Doubled(str) + "\""; }
  }

  function TextOf(val: Option<string>): string { if val.Some? then val.value else "" }

  function NumberText(val: Option<int>): string { if val.Some? then Itoa(val.value) else "" }

  function Fields(c: Contact): (r: seq<string>)
    ensures |r| == 7
  {
    [c.phone, TextOf(c.name), TextOf(c.notes), c.status,
     Itoa(c.attempts), NumberText(c.callDuration), TextOf(c.lastAttemptedAt)]
  }

  function Cells(fields: seq<string>): (r: seq<string>)
    ensures |r| == |fields|
  {
    if fields == [] then [] else [Cell(fields[0])] + Cells(fields[1..])
  }

  function Join(parts: seq<string>, separator: string): string {
    if parts == [] then "" else if |parts| == 1 then parts[0] else parts[0] + separator + Join(parts[1..], separator)
  }

  function Rows(contacts: seq<Contact>): seq<string> {
    if contacts == [] then [] else [Join(Cells(Fields(contacts[0])), ",")] + Rows(contacts[1..])
  }

  const HEADER := ["phone", "name", "notes", "status", "attempts", "call_duration", "last_attempted_at"]

  /** The header line is the seven names with commas between them. */
  function Export(contacts: seq<Contact>): string {
    Join(HEADER, ",") + "\n" + Join(Rows(contacts), "\n")
  }

  // ---- the reader ----

  datatype Parsed<T> = Bad | Good(value: T, rest: string)

  /** A field without quotes: no quote and no carriage return may stand in it. */
  function ReadPlain(t: string): (r: Parsed<string>)
    ensures r.Good? ==> |r.rest| <= |t|
  {
    if t == [] || t[0] == ',' || t[0] == '\n' then Good("", t)
    else if t[0] == '"' || t[0] == '\r' then Bad
    else match ReadPlain(t[1..])
      case Bad => Bad
      case Good(v, rest) => Good([t[0]] + v, rest)
  }

  /** The inside of a quoted field, up to and including its closing quote. */
  function ReadQuoted(t: string): (r: Parsed<string>)
    ensures r.Good? ==> |r.rest| < |t|
  {
    if t == [] then Bad
    else if t[0] != '"' then
      match ReadQuoted(t[1..])
      case Bad => Bad
      case Good(v, rest) => Good([t[0]] + v, rest)
    else if |t| >= 2 && t[1] == '"' then
      match ReadQuoted(t[2..])
      case Bad => Bad
      case Good(v, rest) => Good("\"" + v, rest)
    else Good("", t[1..])
  }

  function ReadField(t: string): (r: Parsed<string>)
    ensures r.Good? ==> |r.rest| <= |t|
  {
    if t != [] && t[0] == '"' then ReadQuoted(t[1..]) else ReadPlain(t)
  }

  function ReadRecord(t: string): (r: Parsed<seq<string>>)
    ensures r.Good? ==> |r.rest| <= |t| && (t != [] ==> |r.rest| < |t|)
    decreases |t|
  {
    match ReadField(t)
    case Bad => Bad
    case Good(f, rest) =>
      if rest == [] then Good([f], [])
      else if rest[0] == '\n' then Good([f], rest[1..])
      else if rest[0] != ',' then Bad
      else match ReadRecord(rest[1..])
        case Bad => Bad
        case Good(fs, rest') => Good([f] + fs, rest')
  }

  function ReadAll(t: string): Option<seq<seq<string>>>
    decreases |t|
  {
    if t == [] then Some([])
    else match ReadRecord(t)
      case Bad => None
      case Good(record, rest) =>
        match ReadAll(rest)
        case None => None
        case Some(records) => Some([record] + records)
  }

  // ---- the round trip ----

  predicate EndsField(rest: string) {
    rest == [] || rest[0] == ',' || rest[0] == '\n'
  }

  lemma {:induction false} PlainReads(s: string, rest: string)
    requires !NeedsQuotes(s) && EndsField(rest)
    ensures ReadPlain(s + rest) == Good(s, rest)
  {
    if s == [] {
      assert s + rest == rest;
    } else {
      assert !IsSpecial(s[0]);
      forall i | 0 <= i < |s[1..]| ensures !IsSpecial(s[1..][i]) { assert s[1..][i] == s[i + 1]; }
      PlainReads(s[1..], rest);
      assert (s + rest)[1..] == s[1..] + rest;
      assert [s[0]] + s[1..] == s;
    }
  }

  lemma {:induction false} QuotedReads(s: string, rest: string)
    requires EndsField(rest)
    ensures ReadQuoted(Doubled(s) + ("\"" + rest)) == Good(s, rest)
  {
    var tail := "\"" + rest;
    if s == [] {
      assert Doubled(s) + tail == tail && tail[1..] == rest;
    } else {
      QuotedReads(s[1..], rest);
      Associative(if s[0] == '"' then "\"\"" else [s[0]], Doubled(s[1..]), tail);
      assert [s[0]] + s[1..] == s;
    }
  }

  lemma QuotedText(d: string, rest: string)
    ensures ("\"" + d + "\"") + rest == "\"" + (d + ("\"" + rest))
  {
  }

  lemma FieldReads(s: string, rest: string)
    requires EndsField(rest)
    ensures ReadField(Quoted(s) + rest) == Good(s, rest)
  {
    if NeedsQuotes(s) {
      QuotedReads(s, rest);
      QuotedText(Doubled(s), rest);
    } else {
      PlainReads(s, rest);
      assert s != [] ==> !IsSpecial(s[0]);
    }
  }

  function GuardedFields(fields: seq<string>): (r: seq<string>)
    ensures |r| == |fields| && forall i :: 0 <= i < |r| ==> r[i] == Guarded(fields[i])
  {
    if fields == [] then [] else [Guarded(fields[0])] + GuardedFields(fields[1..])
  }

  /** The rest of a text after the end of a record. */
  function AfterRecord(rest: string): string {
    if rest == [] then [] else rest[1..]
  }

  lemma {:induction false} RecordReads(fields: seq<string>, rest: string)
    requires fields != [] && (rest == [] || rest[0] == '\n')
    ensures ReadRecord(Join(Cells(fields), ",") + rest) == Good(GuardedFields(fields), AfterRecord(rest))
  {
    var first := Guarded(fields[0]);
    if |fields| == 1 {
      FieldReads(first, rest);
      assert Cells(fields) == [Quoted(first)] && GuardedFields(fields) == [first];
    } else {
      RecordReads(fields[1..], rest);
      var others := Join(Cells(fields[1..]), ",");
      FieldReads(first, "," + (others + rest));
      assert ("," + (others + rest))[1..] == others + rest;
      assert Cells(fields)[1..] == Cells(fields[1..]);
      Associative(Cells(fields)[0] + ",", others, rest);
      Associative(Cells(fields)[0], ",", others + rest);
    }
  }

  function Records(contacts: seq<Contact>): (r: seq<seq<string>>)
    ensures |r| == |contacts| && forall i :: 0 <= i < |r| ==> |r[i]| == 7
  {
    if contacts == [] then [] else [GuardedFields(Fields(contacts[0]))] + Records(contacts[1..])
  }

  /** The first row of several, and the rest behind a line break. */
  lemma {:induction false} FirstRow(contacts: seq<Contact>)
    requires |contacts| > 1
    ensures Join(Rows(contacts), "\n")
         == Join(Cells(Fields(contacts[0])), ",") + ("\n" + Join(Rows(contacts[1..]), "\n"))
  {
    var row := Join(Cells(Fields(contacts[0])), ",");
    assert Rows(contacts)[0] == row && Rows(contacts)[1..] == Rows(contacts[1..]) && |Rows(contacts)| > 1;
    Associative(row, "\n", Join(Rows(contacts[1..]), "\n"));
  }

  lemma {:induction false} RowsRead(contacts: seq<Contact>)
    ensures ReadAll(Join(Rows(contacts), "\n")) == Some(Records(contacts))
  {
    if contacts != [] {
      var fields := Fields(contacts[0]);
      var row := Join(Cells(fields), ",");
      if |contacts| == 1 {
        RecordReads(fields, "");
        assert contacts[1..] == [] && Rows(contacts) == [row] && row + "" == row;
      } else {
        var others := Join(Rows(contacts[1..]), "\n");
        RowsRead(contacts[1..]);
        RecordReads(fields, "\n" + others);
        FirstRow(contacts);
        assert ("\n" + others)[1..] == others;
      }
    }
  }

  predicate IsPlain(s: string) {
    !NeedsQuotes(s) && Guarded(s) == s
  }

  lemma {:induction false} PlainFields(fields: seq<string>)
    requires forall i :: 0 <= i < |fields| ==> IsPlain(fields[i])
    ensures Cells(fields) == fields == GuardedFields(fields)
  {
    if fields != [] {
      PlainFields(fields[1..]);
      assert IsPlain(fields[0]) && [fields[0]] + fields[1..] == fields;
    }
  }

  lemma HeaderReads(body: string)
    ensures ReadRecord(Join(HEADER, ",") + "\n" + body) == Good(HEADER, body)
  {
    assert IsPlain("phone") && IsPlain("name") && IsPlain("notes") && IsPlain("status") && IsPlain("attempts");
    assert IsPlain("call_duration");
    assert IsPlain("last_attempted_at");
    PlainFields(HEADER);
    var rest := "\n" + body;
    RecordReads(HEADER, rest);
    Associative(Join(HEADER, ","), "\n", body);
    assert rest[1..] == body;
  }

  lemma {:induction false} ExportReads(contacts: seq<Contact>)
    ensures ReadAll(Export(contacts)) == Some([HEADER] + Records(contacts))
  {
    HeaderReads(Join(Rows(contacts), "\n"));
    RowsRead(contacts);
  }

  /** A field is the original, after one apostrophe exactly if that is a formula, and does not begin like a formula. */
  predicate IsSafe(field: string, original: string) {
    field == (if LeadsFormula(original) then "'" + original else original) && !LeadsFormula(field)
  }

  predicate IsSafeRecord(record: seq<string>, originals: seq<string>) {
    |record| == |originals| && forall k :: 0 <= k < |record| ==> IsSafe(record[k], originals[k])
  }

  lemma GuardedRecord(fields: seq<string>)
    ensures IsSafeRecord(GuardedFields(fields), fields)
  {
  }

  /**
    Reading the export gives back the header and one record of seven fields per contact, in order; each field is the
    original or the original after one apostrophe, and none begins like a formula.
   */
  lemma ExportRoundTrip(contacts: seq<Contact>)
    ensures ReadAll(Export(contacts)) == Some([HEADER] + Records(contacts))
    ensures |Records(contacts)| == |contacts|
    ensures forall i :: 0 <= i < |contacts| ==>
      && Records(contacts)[i] == GuardedFields(Fields(contacts[i])) && |Records(contacts)[i]| == 7
      && IsSafeRecord(Records(contacts)[i], Fields(contacts[i]))
  {
    ExportReads(contacts);
    RecordsByIndex(contacts);
    forall i | 0 <= i < |contacts| ensures IsSafeRecord(Records(contacts)[i], Fields(contacts[i])) {
      GuardedRecord(Fields(contacts[i]));
    }
  }

  lemma {:induction false} RecordsByIndex(contacts: seq<Contact>)
    ensures |Records(contacts)| == |contacts|
    ensures forall i :: 0 <= i < |contacts| ==> Records(contacts)[i] == GuardedFields(Fields(contacts[i]))
  {
    if contacts != [] { RecordsByIndex(contacts[1..]); }
  }

  /** The field of a record that stands under a name in the header. */
  function Under(header: seq<string>, record: seq<string>, name: string): Option<string> {
    if header == [] || record == [] then None
    else if header[0] == name then Some(record[0])
    else Under(header[1..], record[1..], name)
  }

  lemma {:induction false} UnderAt(header: seq<string>, record: seq<string>, k: nat)
    requires |header| == |record| && k < |header|
    requires forall i, j :: 0 <= i < j < |header| ==> header[i] != header[j]
    ensures Under(header, record, header[k]) == Some(record[k])
  {
    if k > 0 {
      UnderAt(header[1..], record[1..], k - 1);
      assert header[1..][k - 1] == header[k] && record[1..][k - 1] == record[k];
    }
  }

  /** Each of a contact's values is the field under its own name. */
  predicate Labelled(header: seq<string>, record: seq<string>, c: Contact) {
    && Under(header, record, "phone") == Some(Guarded(c.phone))
    && Under(header, record, "name") == Some(if c.name.Some? then Guarded(c.name.value) else "")
    && Under(header, record, "notes") == Some(if c.notes.Some? then Guarded(c.notes.value) else "")
    && Under(header, record, "status") == Some(Guarded(c.status))
    && Under(header, record, "attempts") == Some(Guarded(Itoa(c.attempts)))
    && Under(header, record, "call_duration")
       == Some(if c.callDuration.Some? then Guarded(Itoa(c.callDuration.value)) else "")
    && Under(header, record, "last_attempted_at")
       == Some(if c.lastAttemptedAt.Some? then Guarded(c.lastAttemptedAt.value) else "")
  }

  lemma RecordIsLabelled(header: seq<string>, record: seq<string>, c: Contact)
    requires header == HEADER && record == GuardedFields(Fields(c))
    ensures Labelled(header, record, c)
  {
    assert HEADER[0][0] == 'p' && HEADER[2][0] == 'n';
    forall i, j | 0 <= i < j < |HEADER| ensures HEADER[i] != HEADER[j] {
      assert (i == 0 && j == 2) || |HEADER[i]| != |HEADER[j]|;
    }
    UnderAt(HEADER, record, 0);
    UnderAt(HEADER, record, 1);
    UnderAt(HEADER, record, 2);
    UnderAt(HEADER, record, 3);
    UnderAt(HEADER, record, 4);
    UnderAt(HEADER, record, 5);
    UnderAt(HEADER, record, 6);
  }

  /** In what is read back, each value of each contact stands in its record under its own name in the first record. */
  lemma {:induction false} ColumnsUnderHeader(contacts: seq<Contact>)
    ensures var all := ReadAll(Export(contacts));
      && all.Some? && |all.value| == |contacts| + 1
      && all.value[0] == ["phone", "name", "notes", "status", "attempts", "call_duration", "last_attempted_at"]
      && forall i :: 0 <= i < |contacts| ==> Labelled(all.value[0], all.value[i + 1], contacts[i])
  {
    ExportReads(contacts);
    RecordsByIndex(contacts);
    var all := [HEADER] + Records(contacts);
    forall i | 0 <= i < |contacts| ensures Labelled(all[0], all[i + 1], contacts[i]) {
      RecordIsLabelled(all[0], all[i + 1], contacts[i]);
    }
  }

  /** The guard loses exactly one distinction: a formula and the same text with the apostrophe already there. */
  lemma GuardedApart(a: string, b: string)
    ensures Guarded(a) == Guarded(b) <==>
      a == b || (LeadsFormula(a) && b == "'" + a) || (LeadsFormula(b) && a == "'" + b)
  {
    if LeadsFormula(a) && LeadsFormula(b) && Guarded(a) == Guarded(b) {
      assert ("'" + a)[1..] == a && ("'" + b)[1..] == b;
    }
  }
}

/** The web backend's two passes over an uploaded contact file: the validator, and the filter that inserts contacts. */
module CsvIngest {
  import opened Wrappers
  import opened CampaignDomain
  import opened PhoneText
  import opened RowNumbers

  /** One parsed row; csv-parse itself is not modelled. */
  type Record = map<string, string>

  datatype Reason = EmptyPhone | BadFormat(phone: string)

  datatype InvalidRow = InvalidRow(row: nat, reason: Reason)

  datatype Report = Report(total: nat, valid: nat, invalid: seq<InvalidRow>, dncSkipped: nat)

  datatype ValidationError = BadCsv | EmptyFile | TooManyContacts | NoPhoneColumn | NoValidPhones

  const MAX_CONTACTS := 100_000

  const PHONE_NAMES := ["phone", "phonenumber", "number", "mobile", "tel"]

  predicate IsPhoneName(h: string) { Lower(h) in PHONE_NAMES }

  /** The first header that names a phone column. */
  function PhoneColumn(header: seq<string>): Option<string> {
    if header == [] then None
    else if IsPhoneName(header[0]) then Some(header[0])
    else PhoneColumn(header[1..])
  }

  /** One of the five names, in any case. */
  predicate IsOneOfFive(h: string) {
    Lower(h) in ["phone", "phonenumber", "number", "mobile", "tel"]
  }

  ghost predicate IsFirstPhone(header: seq<string>, column: Option<string>) {
    match column
    case None => forall i :: 0 <= i < |header| ==> !IsOneOfFive(header[i])
    case Some(h) =>
      exists k :: 0 <= k < |header| && header[k] == h && IsOneOfFive(h)
        && forall i :: 0 <= i < k ==> !IsOneOfFive(header[i])
  }

  /** No header before it names a phone column. */
  lemma {:induction false} PhoneColumnIsFirst(header: seq<string>)
    ensures IsFirstPhone(header, PhoneColumn(header))
  {
    if header != [] && !IsPhoneName(header[0]) {
      PhoneColumnIsFirst(header[1..]);
      var found := PhoneColumn(header[1..]);
      if found.Some? {
        var k :| 0 <= k < |header[1..]| && header[1..][k] == found.value
                 && forall i :: 0 <= i < k ==> !IsOneOfFive(header[1..][i]);
        forall i | 0 <= i < k + 1 ensures !IsOneOfFive(header[i]) {
          if i > 0 { assert header[i] == header[1..][i - 1]; }
        }
        assert header[k + 1] == found.value;
      } else {
        forall i | 0 <= i < |header| ensures !IsOneOfFive(header[i]) {
          if i > 0 { assert header[i] == header[1..][i - 1]; }
        }
      }
    }
  }

  function PhoneOf(r: Record, column: string): string {
    if column in r then JsTrim(r[column]) else ""
  }

  datatype Verdict = Valid | Invalid(reason: Reason) | Blocked

  function Judge(phone: string, dnc: set<string>): Verdict {
    if phone == "" then Invalid(EmptyPhone)
    else if !IsE164(phone) then Invalid(BadFormat(phone))
    else if phone in dnc then Blocked
    else Valid
  }

  /** One more row in the report; rows are numbered as a spreadsheet with one header line shows them. */
  function Judged(before: Report, verdict: Verdict, row: nat): Report {
    match verdict
    case Valid => before.(valid := before.valid + 1)
    case Invalid(reason) => before.(invalid := before.invalid + [InvalidRow(row, reason)])
    case Blocked => before.(dncSkipped := before.dncSkipped + 1)
  }

  /** The report on the first rows of a file that has `total` rows. */
  function Tally(records: seq<Record>, column: string, dnc: set<string>, total: nat): Report {
    if records == [] then Report(total, 0, [], 0)
    else
      var n := |records| - 1;
      Judged(Tally(records[..n], column, dnc, total), Judge(PhoneOf(records[n], column), dnc), n + 2)
  }

  /** One row of the loop. */
  method CountRow(before: Report, phone: string, dnc: set<string>, row: nat) returns (report: Report)
    ensures report == Judged(before, Judge(phone, dnc), row)
  {
    report := before;
    if phone == "" {
      report := report.(invalid := report.invalid + [InvalidRow(row, EmptyPhone)]);
    } else if !IsE164(phone) {
      report := report.(invalid := report.invalid + [InvalidRow(row, BadFormat(phone))]);
    } else if phone in dnc {
      report := report.(dncSkipped := report.dncSkipped + 1);
    } else {
      report := report.(valid := report.valid + 1);
    }
  }

  /** The loop over the rows. */
  method ReportOn(records: seq<Record>, column: string, dnc: set<string>) returns (report: Report)
    ensures report == Tally(records, column, dnc, |records|)
  {
    report := Report(|records|, 0, [], 0);
    var i := 0;
    while i < |records|
      invariant 0 <= i <= |records|
      invariant report == Tally(records[..i], column, dnc, |records|)
    {
      var phone := if column in records[i] then JsTrim(records[i][column]) else "";
      assert records[..i + 1][..i] == records[..i];
      report := CountRow(report, phone, dnc, i + 2);
      i := i + 1;
    }
    assert records[..|records|] == records;
  }

  method Validate(parsed: Option<seq<Record>>, header: seq<string>, dnc: set<string>)
    returns (r: Result<Report, ValidationError>)
    ensures r == Validation(parsed, header, dnc)
  {
    if parsed.None? { return Err(BadCsv); }
    var records := parsed.value;
    if |records| == 0 { return Err(EmptyFile); }
    if |records| > MAX_CONTACTS { return Err(TooManyContacts); }
    var column := PhoneColumn(header);
    if column.None? { return Err(NoPhoneColumn); }
    var report := ReportOn(records, column.value, dnc);
    if report.valid == 0 { return Err(NoValidPhones); }
    r := Ok(report);
  }

  /** What the validator answers. */
  function Validation(parsed: Option<seq<Record>>, header: seq<string>, dnc: set<string>)
    : Result<Report, ValidationError>
  {
    if parsed.None? then Err(BadCsv)
    else if parsed.value == [] then Err(EmptyFile)
    else if |parsed.value| > MAX_CONTACTS then Err(TooManyContacts)
    else if PhoneColumn(header).None? then Err(NoPhoneColumn)
    else
      var report := Tally(parsed.value, PhoneColumn(header).value, dnc, |parsed.value|);
      if report.valid == 0 then Err(NoValidPhones) else Ok(report)
  }

  // ---- the insertion pass ----

  datatype NewContact = NewContact(phone: string, name: Option<string>, notes: Option<string>)

  function TextOrNull(r: Record, column: string): Option<string> {
    if column in r && r[column] != "" then Some(r[column]) else None
  }

  predicate Insertable(r: Record, column: string, dnc: set<string>) {
    var phone := PhoneOf(r, column);
    phone != "" && IsE164(phone) && phone !in dnc
  }

  function ToContact(r: Record, column: string): NewContact {
    NewContact(PhoneOf(r, column), TextOrNull(r, "name"), TextOrNull(r, "notes"))
  }

  /** The filter and map of createCampaign, written apart from the validator. */
  function Contacts(records: seq<Record>, column: string, dnc: set<string>): seq<NewContact> {
    if records == [] then []
    else
      var n := |records| - 1;
      Contacts(records[..n], column, dnc)
      + (if Insertable(records[n], column, dnc) then [ToContact(records[n], column)] else [])
  }

  /** The rows that pass, by position. */
  function Passing(records: seq<Record>, column: string, dnc: set<string>): (r: seq<nat>)
    ensures forall k :: 0 <= k < |r| ==> r[k] < |records|
    ensures forall j, k :: 0 <= j < k < |r| ==> r[j] < r[k]
  {
    if records == [] then []
    else
      var n := |records| - 1;
      Passing(records[..n], column, dnc) + (if Insertable(records[n], column, dnc) then [n] else [])
  }

  /** The contact carries the row's trimmed phone, and its name and notes unless they are missing or empty. */
  predicate IsBuiltFrom(contact: NewContact, r: Record, column: string) {
    && column in r && contact.phone == JsTrim(r[column])
    && (contact.name.Some? <==> "name" in r && r["name"] != "")
    && (contact.name.Some? ==> contact.name.value == r["name"])
    && (contact.notes.Some? <==> "notes" in r && r["notes"] != "")
    && (contact.notes.Some? ==> contact.notes.value == r["notes"])
  }

  lemma {:induction false} PassingExactly(records: seq<Record>, column: string, dnc: set<string>, i: nat)
    requires i < |records|
    ensures i in Passing(records, column, dnc) <==> Insertable(records[i], column, dnc)
  {
    var n := |records| - 1;
    if i < n {
      PassingExactly(records[..n], column, dnc, i);
      assert records[..n][i] == records[i];
    }
  }

  lemma {:induction false} PassingBuilds(records: seq<Record>, column: string, dnc: set<string>, k: nat)
    requires k < |Passing(records, column, dnc)|
    ensures |Contacts(records, column, dnc)| == |Passing(records, column, dnc)|
    ensures IsBuiltFrom(Contacts(records, column, dnc)[k], records[Passing(records, column, dnc)[k]], column)
  {
    var n := |records| - 1;
    var front := records[..n];
    SameLength(front, column, dnc);
    SameLength(records, column, dnc);
    if k < |Passing(front, column, dnc)| {
      PassingBuilds(front, column, dnc, k);
      assert front[Passing(front, column, dnc)[k]] == records[Passing(front, column, dnc)[k]];
    }
  }

  lemma {:induction false} SameLength(records: seq<Record>, column: string, dnc: set<string>)
    ensures |Contacts(records, column, dnc)| == |Passing(records, column, dnc)|
  {
    if records != [] { SameLength(records[..|records| - 1], column, dnc); }
  }

  /** The inserted contacts are built from exactly the passing rows, in the order of the file. */
  lemma ContactsFollowRows(records: seq<Record>, column: string, dnc: set<string>)
    ensures var ps := Passing(records, column, dnc); var cs := Contacts(records, column, dnc);
      && |cs| == |ps| && (forall k :: 0 <= k < |ps| ==> IsBuiltFrom(cs[k], records[ps[k]], column))
      && (forall i :: 0 <= i < |records| ==> (i in ps <==> Insertable(records[i], column, dnc)))
  {
    SameLength(records, column, dnc);
    forall k | 0 <= k < |Passing(records, column, dnc)|
      ensures IsBuiltFrom(Contacts(records, column, dnc)[k], records[Passing(records, column, dnc)[k]], column)
    {
      PassingBuilds(records, column, dnc, k);
    }
    forall i | 0 <= i < |records| ensures i in Passing(records, column, dnc) <==> Insertable(records[i], column, dnc) {
      PassingExactly(records, column, dnc, i);
    }
  }

  function RowOf(r: InvalidRow): nat { r.row }

  /** The validator's books balance, its row numbers rise, and it counts as valid what the other pass inserts. */
  lemma {:induction false} TallyBalances(records: seq<Record>, column: string, dnc: set<string>, total: nat)
    ensures var t := Tally(records, column, dnc, total);
      && t.total == total && t.valid + |t.invalid| + t.dncSkipped == |records|
      && (forall k :: 0 <= k < |t.invalid| ==> 2 <= t.invalid[k].row <= |records| + 1)
      && (forall j, k :: 0 <= j < k < |t.invalid| ==> t.invalid[j].row < t.invalid[k].row)
      && t.valid == |Passing(records, column, dnc)|
  {
    if records != [] { TallyBalances(records[..|records| - 1], column, dnc, total); }
  }

  lemma JudgedRows(before: Report, verdict: Verdict, row: nat, q: nat)
    ensures HasRow(Judged(before, verdict, row).invalid, RowOf, q)
            <==> HasRow(before.invalid, RowOf, q) || (verdict.Invalid? && row == q)
  {
    if verdict.Invalid? { HasRowNext(before.invalid, InvalidRow(row, verdict.reason), RowOf, q); }
  }

  predicate IsFlagged(records: seq<Record>, column: string, dnc: set<string>, total: nat, i: nat) {
    HasRow(Tally(records, column, dnc, total).invalid, RowOf, i + 2)
  }

  /** The rows called invalid are exactly those whose phone is missing or not E.164. */
  lemma {:induction false} TallyFlags(records: seq<Record>, column: string, dnc: set<string>, total: nat, i: nat)
    requires i < |records|
    ensures IsFlagged(records, column, dnc, total, i) <==> !IsE164(PhoneOf(records[i], column))
  {
    var n := |records| - 1;
    var before, verdict := Tally(records[..n], column, dnc, total), Judge(PhoneOf(records[n], column), dnc);
    JudgedRows(before, verdict, n + 2, i + 2);
    if i < n {
      TallyFlags(records[..n], column, dnc, total, i);
      assert records[..n][i] == records[i];
    } else {
      TallyBalances(records[..n], column, dnc, total);
    }
  }

  /** Every entry names its reason: the phone is empty, or it is the text that does not match. */
  lemma {:induction false} FlagReasons(records: seq<Record>, column: string, dnc: set<string>, total: nat, k: nat)
    requires k < |Tally(records, column, dnc, total).invalid|
    ensures var e := Tally(records, column, dnc, total).invalid[k];
      2 <= e.row < |records| + 2 &&
      var r := records[e.row - 2];
      var phone := if column in r then JsTrim(r[column]) else "";
      e.reason == if phone == "" then EmptyPhone else BadFormat(phone)
  {
    var n := |records| - 1;
    if k < |Tally(records[..n], column, dnc, total).invalid| {
      FlagReasons(records[..n], column, dnc, total, k);
    }
  }

  /** A row the campaign can use. */
  predicate IsUsable(r: Record, column: string, dnc: set<string>) {
    column in r && IsE164(JsTrim(r[column])) && JsTrim(r[column]) !in dnc
  }

  lemma {:induction false} ValidExactly(records: seq<Record>, column: string, dnc: set<string>, total: nat)
    ensures Tally(records, column, dnc, total).valid == 0
            <==> forall i :: 0 <= i < |records| ==> !IsUsable(records[i], column, dnc)
  {
    if records != [] {
      var n := |records| - 1;
      ValidExactly(records[..n], column, dnc, total);
      assert records == records[..n] + [records[n]];
    }
  }

  /** Which error when: each of the five exactly when those before it do not apply. */
  lemma ErrorsMeant(parsed: Option<seq<Record>>, header: seq<string>, dnc: set<string>)
    ensures var e := Validation(parsed, header, dnc);
      var some := exists i :: 0 <= i < |header| && IsOneOfFive(header[i]);
      && (e == Err(BadCsv) <==> parsed.None?)
      && (e == Err(EmptyFile) <==> parsed == Some([]))
      && (e == Err(TooManyContacts) <==> parsed.Some? && |parsed.value| > 100_000)
      && (e == Err(NoPhoneColumn) <==> parsed.Some? && 0 < |parsed.value| <= 100_000 && !some)
      && (e == Err(NoValidPhones) <==>
            parsed.Some? && 0 < |parsed.value| <= 100_000 && some &&
            exists h :: IsFirstPhone(header, Some(h))
              && forall i :: 0 <= i < |parsed.value| ==> !IsUsable(parsed.value[i], h, dnc))
  {
    PhoneColumnIsFirst(header);
    if parsed.Some? && PhoneColumn(header).Some? {
      ValidExactly(parsed.value, PhoneColumn(header).value, dnc, |parsed.value|);
      assert IsFirstPhone(header, Some(PhoneColumn(header).value));
    }
  }

  datatype NewCampaign = NewCampaign(totalContacts: nat, contacts: seq<NewContact>, report: Report)

  /**
    createCampaign: both passes agree, so the stored total is the number of contacts inserted; every inserted number is
    E.164 and none is on the do-not-call list.
   */
  method CreateCampaign(parsed: Option<seq<Record>>, header: seq<string>, dnc: set<string>)
    returns (r: Result<NewCampaign, ValidationError>)
    ensures r.Err? <==> Validation(parsed, header, dnc).Err?
    ensures r.Err? ==> r.error == Validation(parsed, header, dnc).error
    ensures r.Ok? ==>
      && r.value.report == Validation(parsed, header, dnc).value
      && r.value.totalContacts == r.value.report.valid == |r.value.contacts| > 0
      && r.value.report.total == |parsed.value|
         == r.value.report.valid + |r.value.report.invalid| + r.value.report.dncSkipped
      && (forall k :: 0 <= k < |r.value.contacts| ==>
            IsE164(r.value.contacts[k].phone) && r.value.contacts[k].phone !in dnc)
      && r.value.contacts == Contacts(parsed.value, PhoneColumn(header).value, dnc)
  {
    var validated := Validate(parsed, header, dnc);
    if validated.Err? { return Err(validated.error); }
    var records := parsed.value;
    var found := PhoneColumn(header);
    var column := if found.Some? then found.value else "phone";
    var contacts := Contacts(records, column, dnc);
    TallyBalances(records, column, dnc, |records|);
    ContactsFollowRows(records, column, dnc);
    forall k | 0 <= k < |contacts| ensures IsE164(contacts[k].phone) && contacts[k].phone !in dnc {
      var ps := Passing(records, column, dnc);
      assert ps[k] in ps && Insertable(records[ps[k]], column, dnc);
    }
    r := Ok(NewCampaign(validated.value.valid, contacts, validated.value));
  }
}

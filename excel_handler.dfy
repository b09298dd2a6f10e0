/** Member spreadsheet import (members/utils/excel_handler.py): validation of the active sheet,
    then an upsert of every row into the member registry.

    The workbook is already loaded: a sheet is its header row and its data rows (rows 2 to
    `max_row`), each data row giving the cell under each header. */
module ExcelHandler {
  import opened Wrappers
  import opened Seqs
  import opened Text
  import opened Dates
  import opened Records

  /** A cell value as openpyxl returns it: text, an integer, a `datetime` (its calendar date and
      the time-of-day part of its `str()`, "00:00:00" at midnight) or anything else (a float, a
      boolean), given by its `str()` and its Python truth value. */
  datatype Cell = Str(text: string) | Int(value: int) | DateVal(date: CalendarDate, time: string) | Other(repr: string, truthy: bool)

  /** The non-empty cells of one data row, keyed by the header of their column. */
  type Row = map<string, Cell>

  /** The active worksheet: `max_row` is `|rows| + 1`. */
  datatype Sheet = Sheet(headers: set<string>, rows: seq<Row>)

  /** `row_data.get(key)`: the cell under `key`, None when the column is missing or the cell empty. */
  function Get(s: Sheet, row: Row, key: string): Option<Cell>
  {
    if key in s.headers && key in row then Some(row[key]) else None
  }

  /** Python truthiness of a cell value: None, '' and 0 are false. */
  predicate Truthy(c: Option<Cell>)
  {
    match c
    case None => false
    case Some(Str(t)) => t != ""
    case Some(Int(n)) => n != 0
    case Some(DateVal(_, _)) => true
    case Some(Other(_, b)) => b
  }

  /** `str(value)` of a cell. */
  function CellText(c: Cell): string
  {
    match c
    case Str(t) => t
    case Int(n) => IntText(n)
    case DateVal(d, time) => IsoText(d) + " " + time
    case Other(r, _) => r
  }

  function NumberCell(s: Sheet, i: nat): Option<Cell>
    requires i < |s.rows|
  {
    Get(s, s.rows[i], "member_number")
  }

  function NameCell(s: Sheet, i: nat): Option<Cell>
    requires i < |s.rows|
  {
    Get(s, s.rows[i], "member_name")
  }

  function DateCell(s: Sheet, i: nat): Option<Cell>
    requires i < |s.rows|
  {
    Get(s, s.rows[i], "date")
  }

  // ---------------------------------------------------------------- validation

  const EmptyFileMessage := "Excel file is empty. No data to import."
  const RequiredHeaders := ["date", "member_number", "member_name"]

  function MissingHeaderMessage(h: string): string
  {
    "Missing required column: " + h
  }

  /** The required headers absent from the header row, in the order they are checked. */
  function MissingHeaders(headers: set<string>): seq<string>
  {
    Filter(RequiredHeaders, h => h !in headers)
  }

  /** One problem found in a data row; `row` is the spreadsheet row number (data starts at 2). */
  datatype Finding =
    | MissingNumber(row: nat)
    | Duplicate(row: nat, value: Cell)
    | MissingName(row: nat)
    | BadDate(row: nat)

  function RowLabel(n: nat): string
  {
    "Row " + DecimalText(n) + ": "
  }

  function FindingMessage(f: Finding): string
  {
    match f
    case MissingNumber(n) => RowLabel(n) + "member_number is required!"
    case Duplicate(n, v) => RowLabel(n) + "Duplicate member_number " + CellText(v)
    case MissingName(n) => RowLabel(n) + "member_name is required!"
    case BadDate(n) => RowLabel(n) + "Invalid date format. Use YYYY-MM_DD"
  }

  function DateWarning(n: nat): string
  {
    RowLabel(n) + "date is missing,, will use today's date"
  }

  /** A present date that is text must parse as `%Y-%m-%d`; a date of any other type is accepted. */
  predicate DateRejected(c: Option<Cell>)
  {
    Truthy(c) && c.value.Str? && !IsYmdDate(c.value.text)
  }

  /** The member-number finding of data row `i`: missing, or a repeat of an earlier raw value. */
  ghost function NumberFindings(s: Sheet, i: nat): seq<Finding>
    requires i < |s.rows|
  {
    if !Truthy(NumberCell(s, i)) then [MissingNumber(i + 2)]
    else if NumberCell(s, i).value in SeenNumbers(s, i) then [Duplicate(i + 2, NumberCell(s, i).value)]
    else []
  }

  function NameFindings(s: Sheet, i: nat): seq<Finding>
    requires i < |s.rows|
  {
    if !Truthy(NameCell(s, i)) then [MissingName(i + 2)] else []
  }

  function DateFindings(s: Sheet, i: nat): seq<Finding>
    requires i < |s.rows|
  {
    if DateRejected(DateCell(s, i)) then [BadDate(i + 2)] else []
  }

  /** What the source reports about data row `i`, stated without the running set of seen numbers. */
  ghost function RowFindings(s: Sheet, i: nat): seq<Finding>
    requires i < |s.rows|
  {
    NumberFindings(s, i) + NameFindings(s, i) + DateFindings(s, i)
  }

  function RowWarnings(s: Sheet, i: nat): seq<string>
    requires i < |s.rows|
  {
    if !Truthy(DateCell(s, i)) then [DateWarning(i + 2)] else []
  }

  /** The findings of the first `k` data rows, one entry per row. */
  ghost function FindingsByRow(s: Sheet, k: nat): seq<seq<Finding>>
    requires k <= |s.rows|
  {
    seq(k, i requires 0 <= i < k <= |s.rows| => RowFindings(s, i))
  }

  /** The findings of the first `k` data rows, row after row. */
  ghost function AllFindings(s: Sheet, k: nat): seq<Finding>
    requires k <= |s.rows|
  {
    Flatten(FindingsByRow(s, k))
  }

  function AllWarnings(s: Sheet, k: nat): seq<string>
    requires k <= |s.rows|
  {
    if k == 0 then [] else AllWarnings(s, k - 1) + RowWarnings(s, k - 1)
  }

  /** The set `member_numbers` after the first `k` rows: every present raw member-number value. */
  ghost function SeenNumbers(s: Sheet, k: nat): set<Cell>
    requires k <= |s.rows|
  {
    set j | 0 <= j < k && Truthy(NumberCell(s, j)) :: NumberCell(s, j).value
  }

  /** The triple `(is_valid, errors, warnings)`. */
  datatype Validation = Validation(ok: bool, errors: seq<string>, warnings: seq<string>)

  /** What `validate_excel_data` returns for a sheet it could read. */
  ghost function Validate(s: Sheet): Validation
  {
    if |s.rows| == 0 then Validation(false, [EmptyFileMessage], [])
    else if MissingHeaders(s.headers) != [] then
      Validation(false, MapSeq(MissingHeaders(s.headers), MissingHeaderMessage), [])
    else
      var findings := AllFindings(s, |s.rows|);
      if findings == [] then Validation(true, [], AllWarnings(s, |s.rows|))
      else Validation(false, MapSeq(findings, FindingMessage), AllWarnings(s, |s.rows|))
  }

  /** Each row adds its present raw member number to `member_numbers`. */
  lemma SeenStep(s: Sheet, i: nat)
    requires i < |s.rows|
    ensures SeenNumbers(s, i + 1)
         == SeenNumbers(s, i) + (if Truthy(NumberCell(s, i)) then {NumberCell(s, i).value} else {})
  {
    var extra := if Truthy(NumberCell(s, i)) then {NumberCell(s, i).value} else {};
    forall v | v in SeenNumbers(s, i + 1)
      ensures v in SeenNumbers(s, i) + extra
    {
      var j :| 0 <= j < i + 1 && Truthy(NumberCell(s, j)) && NumberCell(s, j).value == v;
      if j < i {
        assert v in SeenNumbers(s, i);
      }
    }
  }

  /** Checking one more row appends that row's findings. */
  lemma AllFindingsStep(s: Sheet, i: nat)
    requires i < |s.rows|
    ensures AllFindings(s, i + 1) == AllFindings(s, i) + RowFindings(s, i)
  {
    assert FindingsByRow(s, i + 1) == FindingsByRow(s, i) + [RowFindings(s, i)];
    FlattenAppend(FindingsByRow(s, i), RowFindings(s, i));
  }

  /** Every finding of data row `i` names spreadsheet row `i + 2`. */
  lemma FindingRow(s: Sheet, i: nat, f: Finding)
    requires i < |s.rows| && f in RowFindings(s, i)
    ensures f.row == i + 2
  {
  }

  /** A finding that names row `i + 2` comes from row `i` and from no other row. */
  lemma FindingsOfRow(s: Sheet, k: nat, i: nat, f: Finding)
    requires i < k <= |s.rows| && f.row == i + 2
    ensures f in AllFindings(s, k) <==> f in RowFindings(s, i)
  {
    var rows := FindingsByRow(s, k);
    FlattenContains(rows, f);
    if f in AllFindings(s, k) {
      var j :| 0 <= j < k && f in rows[j];
      FindingRow(s, j, f);
    }
    assert rows[i] == RowFindings(s, i);
  }

  /** The findings are empty exactly when every row is clean. */
  lemma AllFindingsEmpty(s: Sheet, k: nat)
    requires k <= |s.rows|
    ensures AllFindings(s, k) == [] <==> forall i :: 0 <= i < k ==> RowFindings(s, i) == []
  {
    var rows := FindingsByRow(s, k);
    FlattenEmpty(rows);
    assert forall i :: 0 <= i < k ==> rows[i] == RowFindings(s, i);
  }

  /** Every required header that is absent is reported, and nothing else is. */
  lemma MissingHeadersExact(headers: set<string>, h: string)
    ensures h in MissingHeaders(headers) <==> h in RequiredHeaders && h !in headers
  {
    if h in RequiredHeaders && h !in headers {
      var k :| 0 <= k < |RequiredHeaders| && RequiredHeaders[k] == h;
    }
  }

  /** A sheet without data rows is rejected before its headers are looked at. */
  lemma EmptySheetRejected(s: Sheet)
    requires |s.rows| == 0
    ensures Validate(s) == Validation(false, ["Excel file is empty. No data to import."], [])
  {
  }

  /** The header check fails closed: with a required header missing, the verdict is one error per
      missing header, in checking order, and it does not depend on the data rows at all. */
  lemma HeaderCheckFailsClosed(s1: Sheet, s2: Sheet)
    requires s1.headers == s2.headers && |s1.rows| > 0 && |s2.rows| > 0
    requires MissingHeaders(s1.headers) != []
    ensures Validate(s1) == Validate(s2)
    ensures !Validate(s1).ok && Validate(s1).warnings == []
    ensures |Validate(s1).errors| == |MissingHeaders(s1.headers)|
    ensures forall k :: 0 <= k < |Validate(s1).errors| ==>
              Validate(s1).errors[k] == "Missing required column: " + MissingHeaders(s1.headers)[k]
  {
  }

  /** Validation passes exactly when the sheet has data rows, all required headers and no row with
      a finding; a passing result carries no errors and a failing one at least one. */
  lemma ValidIff(s: Sheet)
    ensures Validate(s).ok <==> |s.rows| > 0 && MissingHeaders(s.headers) == []
                                && forall i :: 0 <= i < |s.rows| ==> RowFindings(s, i) == []
    ensures Validate(s).ok <==> Validate(s).errors == []
  {
    AllFindingsEmpty(s, |s.rows|);
  }

  /** The member-number rules, read off the final verdict: row `i + 2` is reported as missing its
      number exactly when the cell is empty, and as a duplicate of `v` exactly when its raw value
      is `v` and an earlier row holds the same raw value. The first occurrence is accepted. */
  lemma NumberFindingsExact(s: Sheet, i: nat, v: Cell)
    requires i < |s.rows|
    ensures MissingNumber(i + 2) in AllFindings(s, |s.rows|) <==> !Truthy(NumberCell(s, i))
    ensures Duplicate(i + 2, v) in AllFindings(s, |s.rows|)
        <==> NumberCell(s, i) == Some(v) && Truthy(Some(v))
             && exists j :: 0 <= j < i && Truthy(NumberCell(s, j)) && NumberCell(s, j).value == v
  {
    FindingsOfRow(s, |s.rows|, i, MissingNumber(i + 2));
    FindingsOfRow(s, |s.rows|, i, Duplicate(i + 2, v));
  }

  /** The name and date rules, read off the final verdict: row `i + 2` is reported as missing its
      name exactly when that cell is empty, and as having a bad date exactly when the date is
      text that `%Y-%m-%d` does not parse. */
  lemma NameDateFindingsExact(s: Sheet, i: nat)
    requires i < |s.rows|
    ensures MissingName(i + 2) in AllFindings(s, |s.rows|) <==> !Truthy(NameCell(s, i))
    ensures BadDate(i + 2) in AllFindings(s, |s.rows|)
        <==> Truthy(DateCell(s, i)) && DateCell(s, i).value.Str? && !IsYmdDate(DateCell(s, i).value.text)
  {
    FindingsOfRow(s, |s.rows|, i, MissingName(i + 2));
    FindingsOfRow(s, |s.rows|, i, BadDate(i + 2));
  }

  /** Errors are collected from every row before returning: when the headers are in place, the
      message of every finding of every row is among the errors, and a row without a date
      contributes a warning rather than an error. */
  lemma ErrorsCollected(s: Sheet, i: nat)
    requires i < |s.rows| && MissingHeaders(s.headers) == []
    ensures forall f :: f in RowFindings(s, i) ==> FindingMessage(f) in Validate(s).errors
    ensures !Truthy(DateCell(s, i)) ==> DateWarning(i + 2) in Validate(s).warnings
  {
    forall f | f in RowFindings(s, i)
      ensures FindingMessage(f) in Validate(s).errors
    {
      FindingReported(s, i, f);
    }
    WarningsCollected(s, |s.rows|, i);
  }

  lemma FindingReported(s: Sheet, i: nat, f: Finding)
    requires i < |s.rows| && MissingHeaders(s.headers) == [] && f in RowFindings(s, i)
    ensures FindingMessage(f) in Validate(s).errors
  {
    var all := AllFindings(s, |s.rows|);
    FindingRow(s, i, f);
    FindingsOfRow(s, |s.rows|, i, f);
    var k :| 0 <= k < |all| && all[k] == f;
    assert MapSeq(all, FindingMessage)[k] == FindingMessage(f);
  }

  lemma {:induction false} WarningsCollected(s: Sheet, k: nat, i: nat)
    requires i < k <= |s.rows|
    ensures !Truthy(DateCell(s, i)) ==> DateWarning(i + 2) in AllWarnings(s, k)
  {
    if k - 1 != i {
      WarningsCollected(s, k - 1, i);
    }
  }

  /** The required headers among the first `k` that are absent, in checking order. */
  function MissingAmong(headers: set<string>, k: nat): seq<string>
    requires k <= |RequiredHeaders|
  {
    Filter(RequiredHeaders[..k], h => h !in headers)
  }

  /** Checking one more required header appends its message when it is absent. */
  lemma MissingAmongStep(headers: set<string>, k: nat)
    requires k < |RequiredHeaders|
    ensures MapSeq(MissingAmong(headers, k + 1), MissingHeaderMessage)
         == MapSeq(MissingAmong(headers, k), MissingHeaderMessage)
            + if RequiredHeaders[k] !in headers then [MissingHeaderMessage(RequiredHeaders[k])] else []
  {
    var h := RequiredHeaders[k];
    assert RequiredHeaders[..k + 1] == RequiredHeaders[..k] + [h];
    FilterAppend(RequiredHeaders[..k], [h], h => h !in headers);
    MapSeqAppend(MissingAmong(headers, k), Filter([h], h => h !in headers), MissingHeaderMessage);
  }

  /** The required-header loop: one message per missing header, in order. */
  method CheckHeaders(headers: set<string>) returns (errors: seq<string>)
    ensures errors == MapSeq(MissingHeaders(headers), MissingHeaderMessage)
  {
    errors := [];
    for k := 0 to |RequiredHeaders|
      invariant errors == MapSeq(MissingAmong(headers, k), MissingHeaderMessage)
    {
      MissingAmongStep(headers, k);
      if RequiredHeaders[k] !in headers {
        errors := errors + [MissingHeaderMessage(RequiredHeaders[k])];
      }
    }
    assert RequiredHeaders[..|RequiredHeaders|] == RequiredHeaders;
  }

  /** The member-number check of one data row against the set of member numbers seen so far. */
  method CheckNumber(s: Sheet, i: nat, seen: set<Cell>) returns (errors: seq<string>, seen': set<Cell>)
    requires i < |s.rows| && seen == SeenNumbers(s, i)
    ensures errors == MapSeq(NumberFindings(s, i), FindingMessage)
    ensures seen' == SeenNumbers(s, i + 1)
  {
    var number := Get(s, s.rows[i], "member_number");
    SeenStep(s, i);
    errors, seen' := [], seen;
    if !Truthy(number) {
      errors := [FindingMessage(MissingNumber(i + 2))];
    } else if number.value in seen {
      errors := [FindingMessage(Duplicate(i + 2, number.value))];
    } else {
      seen' := seen + {number.value};
    }
  }

  /** The member-name check of one data row. */
  method CheckName(s: Sheet, i: nat) returns (errors: seq<string>)
    requires i < |s.rows|
    ensures errors == MapSeq(NameFindings(s, i), FindingMessage)
  {
    errors := [];
    if !Truthy(Get(s, s.rows[i], "member_name")) {
      errors := [FindingMessage(MissingName(i + 2))];
    }
  }

  /** The date check of one data row: a warning for a missing date, an error for unparsable text. */
  method CheckDate(s: Sheet, i: nat) returns (errors: seq<string>, warnings: seq<string>)
    requires i < |s.rows|
    ensures errors == MapSeq(DateFindings(s, i), FindingMessage)
    ensures warnings == RowWarnings(s, i)
  {
    var date := Get(s, s.rows[i], "date");
    errors, warnings := [], [];
    if !Truthy(date) {
      warnings := [DateWarning(i + 2)];
    }
    if Truthy(date) && date.value.Str? && !IsYmdDate(date.value.text) {
      errors := [FindingMessage(BadDate(i + 2))];
    }
  }

  /** The checks of one data row, in the order the source makes them. */
  method CheckRow(s: Sheet, i: nat, seen: set<Cell>) returns (rowErrors: seq<string>, rowWarnings: seq<string>, seen': set<Cell>)
    requires i < |s.rows| && seen == SeenNumbers(s, i)
    ensures rowErrors == MapSeq(RowFindings(s, i), FindingMessage)
    ensures rowWarnings == RowWarnings(s, i)
    ensures seen' == SeenNumbers(s, i + 1)
  {
    var numberErrors, nameErrors, dateErrors;
    numberErrors, seen' := CheckNumber(s, i, seen);
    nameErrors := CheckName(s, i);
    dateErrors, rowWarnings := CheckDate(s, i);
    rowErrors := numberErrors + nameErrors + dateErrors;
    MapSeqAppend(NumberFindings(s, i), NameFindings(s, i), FindingMessage);
    MapSeqAppend(NumberFindings(s, i) + NameFindings(s, i), DateFindings(s, i), FindingMessage);
  }

  /** `validate_excel_data`: the empty-file check, the required-header check, then one pass over
      the data rows collecting every error and warning. */
  method ValidateExcelData(s: Sheet) returns (ok: bool, errors: seq<string>, warnings: seq<string>)
    ensures Validation(ok, errors, warnings) == Validate(s)
  {
    warnings := [];
    if |s.rows| < 1 {
      return false, [EmptyFileMessage], warnings;
    }
    errors := CheckHeaders(s.headers);
    if errors != [] {
      return false, errors, warnings;
    }
    var seen: set<Cell> := {};
    var i := 0;
    while i < |s.rows|
      invariant 0 <= i <= |s.rows|
      invariant errors == MapSeq(AllFindings(s, i), FindingMessage)
      invariant warnings == AllWarnings(s, i)
      invariant seen == SeenNumbers(s, i)
    {
      var rowErrors, rowWarnings;
      rowErrors, rowWarnings, seen := CheckRow(s, i, seen);
      AllFindingsStep(s, i);
      MapSeqAppend(AllFindings(s, i), RowFindings(s, i), FindingMessage);
      errors := errors + rowErrors;
      warnings := warnings + rowWarnings;
      i := i + 1;
    }
    if errors != [] {
      return false, errors, warnings;
    }
    return true, [], warnings;
  }

  // ---------------------------------------------------------------- import

  /** The member-number key: `str(value).strip()`, then `zfill(9)` when what is left is all digits. */
  function NormalizeMemberNumber(t: string): (r: string)
    ensures IsDigits(Strip(t)) ==> IsDigits(r) && |r| >= 9
    ensures IsDigits(Strip(t)) && |Strip(t)| < 9 ==> r == Zeros(9 - |Strip(t)|) + Strip(t)
    ensures IsDigits(Strip(t)) && |Strip(t)| >= 9 ==> r == Strip(t)
    ensures !IsDigits(Strip(t)) ==> r == Strip(t)
  {
    var n := Strip(t);
    if IsDigits(n) then ZFill(n, 9) else n
  }

  /** Normalising a normalised key changes nothing. */
  lemma NormalizeIdempotent(t: string)
    ensures NormalizeMemberNumber(NormalizeMemberNumber(t)) == NormalizeMemberNumber(t)
  {
    var n := Strip(t);
    StripIdempotent(t);
    if IsDigits(n) {
      StripDigits(NormalizeMemberNumber(t));
    }
  }

  function MemberKey(c: Cell): string
  {
    NormalizeMemberNumber(CellText(c))
  }

  /** An optional column as stored: `cell_value if cell_value else ''`, made text by the CharField. */
  function FieldText(c: Option<Cell>): string
  {
    if Truthy(c) then CellText(c.value) else ""
  }

  /** The `member_data` dictionary built from one row. */
  datatype MemberData = MemberData(
    date: CalendarDate,
    memberName: string,
    phone: string,
    dobBs: string,
    citizenshipNo: string,
    email: string,
    profession: string,
    facebookDetail: string,
    whatsappDetail: string,
    fatherName: string,
    grandfatherName: string,
    spouseName: string,
    spousePhone: string,
    address: string,
    wardNo: string,
    businessName: string,
    businessAddress: string,
    job: string,
    jobAddress: string)

  function RowData(s: Sheet, row: Row, date: CalendarDate): MemberData
  {
    MemberData(
      date,
      FieldText(Get(s, row, "member_name")),
      FieldText(Get(s, row, "phone")),
      FieldText(Get(s, row, "dob_bs")),
      FieldText(Get(s, row, "citizenship_no")),
      FieldText(Get(s, row, "email")),
      FieldText(Get(s, row, "profession")),
      FieldText(Get(s, row, "facebook_detail")),
      FieldText(Get(s, row, "whatsapp_detail")),
      FieldText(Get(s, row, "father_name")),
      FieldText(Get(s, row, "grandfather_name")),
      FieldText(Get(s, row, "spouse_name")),
      FieldText(Get(s, row, "spouse_phone")),
      FieldText(Get(s, row, "address")),
      FieldText(Get(s, row, "ward_no")),
      FieldText(Get(s, row, "business_name")),
      FieldText(Get(s, row, "business_address")),
      FieldText(Get(s, row, "job_name")),
      FieldText(Get(s, row, "job_address")))
  }

  /** The member after the upsert: every imported field from `d`; the two columns the sheet does
      not carry (Nepali name, national id) kept from an existing member, empty for a new one. */
  function Upsert(existing: Option<Member>, d: MemberData): Member
  {
    Member(
      d.date, d.memberName,
      if existing.Some? then existing.value.memberNameNepali else None,
      Some(d.phone), Some(d.dobBs), Some(d.citizenshipNo),
      if existing.Some? then existing.value.nationalIdNo else None,
      Some(d.email), Some(d.profession), Some(d.facebookDetail), Some(d.whatsappDetail),
      Some(d.grandfatherName), Some(d.fatherName), Some(d.spouseName), Some(d.spousePhone),
      Some(d.address), Some(d.wardNo), Some(d.businessName), Some(d.businessAddress),
      Some(d.job), Some(d.jobAddress))
  }

  /** Upserting twice is upserting the second row once. */
  lemma UpsertOverwrites(e: Option<Member>, a: MemberData, b: MemberData)
    ensures Upsert(Some(Upsert(e, a)), b) == Upsert(e, b)
  {
  }

  /** The date stored for a row, or the cell Django's DateField cannot store. */
  datatype DateChoice = Chosen(date: CalendarDate) | Unstorable(cell: Cell)

  /** The date of a row: a text date is parsed, falling back to `today` when it does not parse (an
      empty cell has become '' and takes that path too); a date cell keeps its calendar date,
      whatever its time of day, as a DateField stores `value.date()`; any other present
      value (an integer, a float, a boolean) cannot be saved into the DateField. */
  function PickDate(c: Option<Cell>, today: CalendarDate): DateChoice
  {
    if !Truthy(c) then Chosen(today)
    else
      match c.value
      case Str(t) => (match ParseYmd(t) case Some(d) => Chosen(d) case None => Chosen(today))
      case DateVal(d, _) => Chosen(d)
      case _ => Unstorable(c.value)
  }

  /** What the loop does with one data row: skip it (no member number), fail on it (the save
      raises), or upsert the member under `key`. */
  datatype RowAction = Skip | Fail | Put(key: string, data: MemberData)

  function Plan(s: Sheet, i: nat, today: CalendarDate): RowAction
    requires i < |s.rows|
  {
    var number := NumberCell(s, i);
    if !Truthy(number) then Skip
    else
      match PickDate(DateCell(s, i), today)
      case Unstorable(_) => Fail
      case Chosen(d) => Put(MemberKey(number.value), RowData(s, s.rows[i], d))
  }

  /** The actions for the first `k` data rows. */
  function Plans(s: Sheet, k: nat, today: CalendarDate): (r: seq<RowAction>)
    requires k <= |s.rows|
    ensures |r| == k && forall i :: 0 <= i < k ==> r[i] == Plan(s, i, today)
  {
    if k == 0 then [] else Plans(s, k - 1, today) + [Plan(s, k - 1, today)]
  }

  /** The loop state: the member table and the three counters; `failed` once a save has raised. */
  datatype Progress = Progress(members: map<string, Member>, created: nat, updated: nat, skipped: nat, failed: bool)

  function Apply(p: Progress, a: RowAction): Progress
  {
    if p.failed then p
    else
      match a
      case Skip => p.(skipped := p.skipped + 1)
      case Fail => p.(failed := true)
      case Put(key, data) =>
        if key in p.members then
          p.(members := p.members[key := Upsert(Some(p.members[key]), data)], updated := p.updated + 1)
        else
          p.(members := p.members[key := Upsert(None, data)], created := p.created + 1)
  }

  /** The loop state after the actions `acts`, starting from the member table `m`. */
  function Run(m: map<string, Member>, acts: seq<RowAction>): Progress
  {
    if |acts| == 0 then Progress(m, 0, 0, 0, false) else Apply(Run(m, acts[..|acts| - 1]), acts[|acts| - 1])
  }

  /** The 4-tuple `(success, message, errors, warnings)`. */
  datatype ImportOutcome = ImportOutcome(ok: bool, message: string, errors: seq<string>, warnings: seq<string>)

  const ValidationFailedMessage := "Data validation failed!"

  /** The prefix of the message of a failed save; the exception text after it is not modelled. */
  const ImportFailedMessage := "Import failed: "

  function SuccessMessage(created: nat, updated: nat, skipped: nat): string
  {
    "Import successful! Created: " + DecimalText(created) + ", Updated: " + DecimalText(updated)
    + ", Skipped: " + DecimalText(skipped)
  }

  /** `import_from_excel`: the member table afterwards and the returned tuple. The function runs
      inside `transaction.atomic`, and a save that raises marks that block for rollback even though
      the handler catches the exception, so after a failed save the table is as it was before. */
  ghost function Import(m: map<string, Member>, s: Sheet, today: CalendarDate): (map<string, Member>, ImportOutcome)
  {
    var v := Validate(s);
    if !v.ok then (m, ImportOutcome(false, ValidationFailedMessage, v.errors, v.warnings))
    else
      var p := Run(m, Plans(s, |s.rows|, today));
      if p.failed then (m, ImportOutcome(false, ImportFailedMessage, [], []))
      else (p.members, ImportOutcome(true, SuccessMessage(p.created, p.updated, p.skipped), [], v.warnings))
  }

  /** Once a save has failed, the remaining actions are not carried out. */
  lemma {:induction false} FailureSticks(m: map<string, Member>, acts: seq<RowAction>, k: nat)
    requires k <= |acts| && Run(m, acts[..k]).failed
    ensures Run(m, acts) == Run(m, acts[..k])
  {
    if k < |acts| {
      assert acts[..|acts| - 1][..k] == acts[..k];
      FailureSticks(m, acts[..|acts| - 1], k);
    } else {
      assert acts[..k] == acts;
    }
  }

  /** The member table the import writes to. */
  class MemberRegistry {
    var members: map<string, Member>

    constructor (initial: map<string, Member>)
      ensures members == initial
    {
      members := initial;
    }

    /** `import_from_excel`: validate, then upsert row after row, counting creations, updates
        and skipped rows. */
    method ImportFromExcel(s: Sheet, today: CalendarDate) returns (outcome: ImportOutcome)
      modifies this
      ensures (members, outcome) == Import(old(members), s, today)
    {
      var ok, errors, warnings := ValidateExcelData(s);
      if !ok {
        return ImportOutcome(false, ValidationFailedMessage, errors, warnings);
      }
      var committed := members;
      var failed, created, updated, skipped := ImportAll(s, today);
      if failed {
        // the atomic block is rolled back: the rows written before the failing save are discarded
        members := committed;
        return ImportOutcome(false, ImportFailedMessage, [], []);
      }
      return ImportOutcome(true, SuccessMessage(created, updated, skipped), [], warnings);
    }

    /** The loop over the data rows; it stops at the first row whose save fails. */
    method ImportAll(s: Sheet, today: CalendarDate) returns (failed: bool, created: nat, updated: nat, skipped: nat)
      modifies this
      ensures Run(old(members), Plans(s, |s.rows|, today)) == Progress(members, created, updated, skipped, failed)
    {
      ghost var initial := members;
      ghost var plans := Plans(s, |s.rows|, today);
      created, updated, skipped := 0, 0, 0;
      for i := 0 to |s.rows|
        invariant Run(initial, plans[..i]) == Progress(members, created, updated, skipped, false)
      {
        RunStep(initial, plans, i);
        failed, created, updated, skipped := ImportRow(s, i, today, created, updated, skipped);
        if failed {
          FailureSticks(initial, plans, i + 1);
          return;
        }
      }
      assert plans[..|s.rows|] == plans;
      failed := false;
    }

    /** The body of the loop for data row `i`: skip a row without a member number, fail on a date
        that cannot be saved, otherwise update or create the member under the normalised key. */
    method ImportRow(s: Sheet, i: nat, today: CalendarDate, created: nat, updated: nat, skipped: nat)
      returns (failed: bool, created': nat, updated': nat, skipped': nat)
      requires i < |s.rows|
      modifies this
      ensures Apply(Progress(old(members), created, updated, skipped, false), Plan(s, i, today))
              == Progress(members, created', updated', skipped', failed)
    {
      failed, created', updated', skipped' := false, created, updated, skipped;
      ghost var before := Progress(members, created, updated, skipped, false);
      var row := s.rows[i];
      var number := Get(s, row, "member_number");
      if !Truthy(number) {
        assert Plan(s, i, today) == Skip;
        skipped' := skipped + 1;
        return;
      }
      var key := MemberKey(number.value);
      var choice := PickDate(Get(s, row, "date"), today);
      if choice.Unstorable? {
        assert Plan(s, i, today) == Fail;
        failed := true;
        return;
      }
      var data := RowData(s, row, choice.date);
      assert Plan(s, i, today) == Put(key, data);
      if key in members {
        members := members[key := Upsert(Some(members[key]), data)];
        updated' := updated + 1;
      } else {
        members := members[key := Upsert(None, data)];
        created' := created + 1;
      }
      assert Apply(before, Put(key, data)) == Progress(members, created', updated', skipped', failed);
    }
  }

  /** Running one more action applies it to the state reached so far. */
  lemma RunStep(m: map<string, Member>, acts: seq<RowAction>, i: nat)
    requires i < |acts|
    ensures Run(m, acts[..i + 1]) == Apply(Run(m, acts[..i]), acts[i])
  {
    assert acts[..i + 1][..i] == acts[..i];
  }

  // ---------------------------------------------------------------- import properties

  function Lookup(m: map<string, Member>, key: string): Option<Member>
  {
    if key in m then Some(m[key]) else None
  }

  /** The two member columns an import never writes. */
  function Kept(e: Option<Member>): (Option<string>, Option<string>)
  {
    if e.Some? then (e.value.memberNameNepali, e.value.nationalIdNo) else (None, None)
  }

  /** The keys the actions write to. */
  function Keys(acts: seq<RowAction>): (r: set<string>)
    ensures forall i :: 0 <= i < |acts| && acts[i].Put? ==> acts[i].key in r
  {
    if |acts| == 0 then {}
    else Keys(acts[..|acts| - 1]) + (if acts[|acts| - 1].Put? then {acts[|acts| - 1].key} else {})
  }

  /** A run fails exactly when one of its actions is a failing save. */
  lemma {:induction false} FailedIff(m: map<string, Member>, acts: seq<RowAction>)
    ensures Run(m, acts).failed <==> Fail in acts
  {
    if |acts| > 0 {
      var init := acts[..|acts| - 1];
      FailedIff(m, init);
      assert acts == init + [acts[|acts| - 1]];
    }
  }

  /** Every action carried out is counted exactly once. */
  lemma {:induction false} CountersAddUp(m: map<string, Member>, acts: seq<RowAction>)
    requires !Run(m, acts).failed
    ensures var p := Run(m, acts); p.created + p.updated + p.skipped == |acts|
  {
    if |acts| > 0 {
      CountersAddUp(m, acts[..|acts| - 1]);
    }
  }

  /** A run with nothing to skip reports no skipped rows. */
  lemma {:induction false} NothingSkipped(m: map<string, Member>, acts: seq<RowAction>)
    requires Skip !in acts
    ensures Run(m, acts).skipped == 0
  {
    if |acts| > 0 {
      var init := acts[..|acts| - 1];
      assert forall a :: a in init ==> a in acts;
      NothingSkipped(m, init);
    }
  }

  /** After a successful validation every row has a member number, so no row is skipped. */
  lemma ValidSheetSkipsNothing(s: Sheet, today: CalendarDate)
    requires Validate(s).ok
    ensures Skip !in Plans(s, |s.rows|, today)
  {
    var plans := Plans(s, |s.rows|, today);
    ValidIff(s);
    forall i | 0 <= i < |s.rows|
      ensures plans[i] != Skip
    {
      assert RowFindings(s, i) == [];
    }
  }

  /** A run that neither skips nor fails creates the new keys and updates on every other row. */
  lemma RunCounts(m: map<string, Member>, acts: seq<RowAction>)
    requires Skip !in acts && Fail !in acts
    ensures var p := Run(m, acts);
            && p.created == |Keys(acts) - m.Keys| <= |acts|
            && p.updated == |acts| - p.created && p.skipped == 0
            && p.members.Keys == m.Keys + Keys(acts)
  {
    FailedIff(m, acts);
    NothingSkipped(m, acts);
    CountersAddUp(m, acts);
    CreatedAreNewKeys(m, acts);
    ImportKeys(m, acts);
  }

  /** A validated date is never replaced by today's date: a text date parses to the date it
      names, a date cell is kept, and only an empty cell falls back to `today`. */
  lemma ValidatedDateKept(s: Sheet, i: nat, today: CalendarDate)
    requires i < |s.rows| && Validate(s).ok
    ensures var c := DateCell(s, i);
            && (!Truthy(c) ==> PickDate(c, today) == Chosen(today))
            && (Truthy(c) && c.value.Str? ==>
                  IsYmdDate(c.value.text) && PickDate(c, today) == Chosen(ParseYmd(c.value.text).value))
            && (Truthy(c) && c.value.DateVal? ==> PickDate(c, today) == Chosen(c.value.date))
  {
    ValidIff(s);
    assert RowFindings(s, i) == [];
  }

  /** The import creates and updates members, never deletes one, and writes only to the keys of
      its actions; when no save fails, every key it meant to write is in the table. */
  lemma {:induction false} ImportKeys(m: map<string, Member>, acts: seq<RowAction>)
    ensures var p := Run(m, acts);
            && m.Keys <= p.members.Keys <= m.Keys + Keys(acts)
            && (!p.failed ==> p.members.Keys == m.Keys + Keys(acts))
  {
    if |acts| > 0 {
      ImportKeys(m, acts[..|acts| - 1]);
    }
  }

  /** An entry of the table that no action writes is left as it was. */
  lemma {:induction false} ImportUntouched(m: map<string, Member>, acts: seq<RowAction>, key: string)
    requires key in m && key !in Keys(acts)
    ensures key in Run(m, acts).members && Run(m, acts).members[key] == m[key]
  {
    if |acts| > 0 {
      ImportUntouched(m, acts[..|acts| - 1], key);
    }
  }

  /** The two columns the sheet lacks are those of the member before the import (empty for a
      member the import created). */
  lemma {:induction false} ImportKeepsColumns(m: map<string, Member>, acts: seq<RowAction>, key: string)
    requires key in Run(m, acts).members
    ensures Kept(Some(Run(m, acts).members[key])) == Kept(Lookup(m, key))
  {
    if |acts| > 0 {
      var init := acts[..|acts| - 1];
      var prev := Run(m, init);
      ApplyKeeps(prev, acts[|acts| - 1], key);
      if key in prev.members {
        ImportKeepsColumns(m, init, key);
      } else {
        ImportKeys(m, init);
      }
    }
  }

  /** One step keeps the two unwritten columns of the member under `key`. */
  lemma ApplyKeeps(p: Progress, a: RowAction, key: string)
    requires key in Apply(p, a).members
    ensures Kept(Some(Apply(p, a).members[key])) == Kept(Lookup(p.members, key))
  {
  }

  /** The number of members created is the number of distinct keys written that were not in the
      table before. */
  lemma {:induction false} CreatedAreNewKeys(m: map<string, Member>, acts: seq<RowAction>)
    requires !Run(m, acts).failed
    ensures Run(m, acts).created == |Keys(acts) - m.Keys|
  {
    if |acts| > 0 {
      var init := acts[..|acts| - 1];
      var a := acts[|acts| - 1];
      var prev := Run(m, init);
      CreatedStep(prev, a);
      CreatedAreNewKeys(m, init);
      ImportKeys(m, init);
      NewKeysStep(Keys(init), m.Keys, a);
    }
  }

  lemma CreatedStep(p: Progress, a: RowAction)
    requires !Apply(p, a).failed
    ensures !p.failed
    ensures Apply(p, a).created == p.created + (if a.Put? && a.key !in p.members then 1 else 0)
  {
  }

  lemma NewKeysStep(keys: set<string>, previous: set<string>, a: RowAction)
    ensures var added := keys + (if a.Put? then {a.key} else {});
            |added - previous| == |keys - previous| + (if a.Put? && a.key !in keys + previous then 1 else 0)
  {
    if a.Put? && a.key !in keys + previous {
      assert (keys + {a.key}) - previous == (keys - previous) + {a.key};
    } else if a.Put? {
      assert (keys + {a.key}) - previous == keys - previous;
    }
  }

  /** The last action writing a key decides that member: every imported column comes from that
      row, the two columns the sheet lacks from the member that existed before the import. */
  lemma {:induction false} LastRowWins(m: map<string, Member>, acts: seq<RowAction>, j: nat)
    requires !Run(m, acts).failed && j < |acts| && acts[j].Put?
    requires forall l :: j < l < |acts| && acts[l].Put? ==> acts[l].key != acts[j].key
    ensures var p := Run(m, acts);
            acts[j].key in p.members && p.members[acts[j].key] == Upsert(Lookup(m, acts[j].key), acts[j].data)
  {
    var init := acts[..|acts| - 1];
    if j == |acts| - 1 {
      if acts[j].key in Run(m, init).members {
        ImportKeepsColumns(m, init, acts[j].key);
      } else {
        ImportKeys(m, init);
      }
    } else {
      LastRowWins(m, init, j);
    }
  }

  /** A sheet that fails validation leaves the table untouched and reports the validation errors. */
  lemma ImportRejectsInvalid(m: map<string, Member>, s: Sheet, today: CalendarDate)
    requires !Validate(s).ok
    ensures Import(m, s, today).0 == m
    ensures var o := Import(m, s, today).1;
            !o.ok && o.message == "Data validation failed!" && o.errors != [] && o.errors == Validate(s).errors
            && o.warnings == Validate(s).warnings
  {
    ValidIff(s);
  }

  /** The import succeeds exactly when the sheet validates and no numbered row holds a date value
      the date column cannot store. */
  lemma ImportSucceedsIff(m: map<string, Member>, s: Sheet, today: CalendarDate)
    ensures Import(m, s, today).1.ok <==> Validate(s).ok && StorableDates(s, today)
  {
    FailedIff(m, Plans(s, |s.rows|, today));
    PlansFailIff(s, today);
  }

  /** Whatever makes an import fail, the table is left as it was: a sheet that fails validation
      is never written, and the writes before a failing save are rolled back. */
  lemma FailedImportKeepsTable(m: map<string, Member>, s: Sheet, today: CalendarDate)
    ensures !Import(m, s, today).1.ok ==> Import(m, s, today).0 == m
    ensures !Import(m, s, today).1.ok
            ==> Import(m, s, today).1.message in {ValidationFailedMessage, ImportFailedMessage}
  {
  }

  /** Every row with a member number has a date the date column can store. */
  ghost predicate StorableDates(s: Sheet, today: CalendarDate)
  {
    forall i :: 0 <= i < |s.rows| && Truthy(NumberCell(s, i)) ==> PickDate(DateCell(s, i), today).Chosen?
  }

  lemma PlansFailIff(s: Sheet, today: CalendarDate)
    ensures Fail in Plans(s, |s.rows|, today) <==> !StorableDates(s, today)
  {
    var plans := Plans(s, |s.rows|, today);
    if Fail in plans {
      var i :| 0 <= i < |s.rows| && plans[i] == Fail;
      assert Truthy(NumberCell(s, i)) && !PickDate(DateCell(s, i), today).Chosen?;
    }
    if !StorableDates(s, today) {
      var i :| 0 <= i < |s.rows| && Truthy(NumberCell(s, i)) && !PickDate(DateCell(s, i), today).Chosen?;
      assert plans[i] == Fail;
    }
  }

  /** A successful import reports as created the file's new keys and as updated all other rows,
      and passes on the validation warnings. */
  lemma ImportCounts(m: map<string, Member>, s: Sheet, today: CalendarDate)
    requires Import(m, s, today).1.ok
    ensures |Keys(Plans(s, |s.rows|, today)) - m.Keys| <= |s.rows|
    ensures Import(m, s, today).0.Keys == m.Keys + Keys(Plans(s, |s.rows|, today))
    ensures var created := |Keys(Plans(s, |s.rows|, today)) - m.Keys|;
            Import(m, s, today).1
            == ImportOutcome(true, SuccessMessage(created, |s.rows| - created, 0), [], Validate(s).warnings)
  {
    var plans := Plans(s, |s.rows|, today);
    var v := Validate(s);
    var p := Run(m, plans);
    ImportSucceedsIff(m, s, today);
    ValidSheetSkipsNothing(s, today);
    PlansFailIff(s, today);
    RunCounts(m, plans);
    assert v.ok && !p.failed;
    var created := |Keys(plans) - m.Keys|;
    assert p.created == created && p.updated == |s.rows| - created && p.skipped == 0;
    assert SuccessMessage(p.created, p.updated, p.skipped) == SuccessMessage(created, |s.rows| - created, 0);
    assert Import(m, s, today)
           == (p.members, ImportOutcome(true, SuccessMessage(p.created, p.updated, p.skipped), [], v.warnings));
  }

  // ---------------------------------------------------------------- an example

  /** Two rows whose numbers differ as text but share a key: validation compares the raw cells
      and accepts the sheet, and the import then merges them into one member, the second row
      updating the member the first row created. */
  const PaddedTwins := Sheet({"date", "member_number", "member_name"},
    [map["member_number" := Str("1"), "member_name" := Str("Ram")],
     map["member_number" := Str("000000001"), "member_name" := Str("Hari")]])

  lemma PaddedTwinsCells(i: nat)
    requires i < 2
    ensures NumberCell(PaddedTwins, i) == Some(Str(if i == 0 then "1" else "000000001"))
    ensures NameCell(PaddedTwins, i) == Some(Str(if i == 0 then "Ram" else "Hari"))
    ensures DateCell(PaddedTwins, i) == None
  {
    assert "date" !in PaddedTwins.rows[i];
  }

  /** Both numbers normalise to the same nine-digit key. */
  lemma PaddedTwinsKeys()
    ensures MemberKey(Str("1")) == "000000001" && MemberKey(Str("000000001")) == "000000001"
  {
    assert IsDigits("1");
    StripDigits("1");
    var z := ZFill("1", 9);
    assert |z| == 9 && z[8] == '1' && forall i :: 0 <= i < 8 ==> z[i] == '0';
    assert z == "000000001";
    assert IsDigits("000000001");
    StripDigits("000000001");
  }

  lemma PaddedTwinsValid()
    ensures Validate(PaddedTwins).ok
  {
    var s := PaddedTwins;
    PaddedTwinsCells(0);
    PaddedTwinsCells(1);
    assert SeenNumbers(s, 1) == {Str("1")};
    assert RowFindings(s, 0) == [];
    assert RowFindings(s, 1) == [];
    ValidIff(s);
  }

  lemma PaddedTwinsPlan(i: nat, today: CalendarDate)
    requires i < 2
    ensures Plan(PaddedTwins, i, today) == Put("000000001", RowData(PaddedTwins, PaddedTwins.rows[i], today))
  {
    PaddedTwinsCells(i);
    PaddedTwinsKeys();
    var number := NumberCell(PaddedTwins, i);
    assert Truthy(number) && MemberKey(number.value) == "000000001";
    assert PickDate(DateCell(PaddedTwins, i), today) == Chosen(today);
  }

  /** Two upserts of the same key into an empty table: one creation, one update, and the
      second row's data. */
  lemma TwoPutsOneMember(key: string, a: MemberData, b: MemberData)
    ensures Run(map[], [Put(key, a), Put(key, b)]) == Progress(map[key := Upsert(None, b)], 1, 1, 0, false)
  {
    var acts := [Put(key, a), Put(key, b)];
    var empty: map<string, Member> := map[];
    assert acts[..1] == [Put(key, a)] && [Put(key, a)][..0] == [];
    assert Run(empty, []) == Progress(empty, 0, 0, 0, false);
    var first := Run(empty, acts[..1]);
    assert first == Progress(map[key := Upsert(None, a)], 1, 0, 0, false);
    UpsertOverwrites(None, a, b);
    assert Run(empty, acts) == Apply(first, Put(key, b));
  }

  /** The plan of a two-row sheet is the plan of its first row, then that of its second. */
  lemma TwoRowPlans(s: Sheet, today: CalendarDate, first: RowAction, second: RowAction)
    requires |s.rows| == 2 && Plan(s, 0, today) == first && Plan(s, 1, today) == second
    ensures Plans(s, 2, today) == [first, second]
  {
  }

  /** The run over the two rows: one member, created by the first row and overwritten by the
      second. */
  lemma PaddedTwinsRun(today: CalendarDate)
    ensures var p := Run(map[], Plans(PaddedTwins, 2, today));
            && !p.failed && p.members.Keys == {"000000001"} && p.members["000000001"].memberName == "Hari"
            && p.created == 1 && p.updated == 1 && p.skipped == 0
  {
    var d0 := RowData(PaddedTwins, PaddedTwins.rows[0], today);
    var d1 := RowData(PaddedTwins, PaddedTwins.rows[1], today);
    var key := "000000001";
    PaddedTwinsPlan(0, today);
    PaddedTwinsPlan(1, today);
    TwoRowPlans(PaddedTwins, today, Put(key, d0), Put(key, d1));
    TwoPutsOneMember(key, d0, d1);
    var p := Run(map[], Plans(PaddedTwins, 2, today));
    assert p == Progress(map[key := Upsert(None, d1)], 1, 1, 0, false);
    assert p.members.Keys == {key};
    PaddedTwinsSecondName(today);
    assert p.members[key].memberName == d1.memberName;
  }

  lemma PaddedTwinsSecondName(today: CalendarDate)
    ensures RowData(PaddedTwins, PaddedTwins.rows[1], today).memberName == "Hari"
  {
    PaddedTwinsCells(1);
  }

  lemma PaddedTwinsMerge(today: CalendarDate)
    ensures Validate(PaddedTwins).ok
    ensures Import(map[], PaddedTwins, today).0.Keys == {"000000001"}
    ensures Import(map[], PaddedTwins, today).0["000000001"].memberName == "Hari"
    ensures Import(map[], PaddedTwins, today).1.message == SuccessMessage(1, 1, 0)
  {
    PaddedTwinsValid();
    PaddedTwinsRun(today);
  }
}
